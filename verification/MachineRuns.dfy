/** The step-by-step machine of one chain, run alone, is the reference semantics: every
    program runs to its end, with the outcome and the state the reference describes. */
module MachineRuns {
  import opened Wrappers
  import opened Programs
  import opened Effects
  import opened Orders
  import opened Reference
  import opened ReferenceLaws
  import opened Contexts
  import opened Worlds
  import opened WorldSteps
  import opened WorldParts
  import opened Machines

  /** Some number of steps leads from `c` to `c'`. */
  ghost predicate Reaches(env: Environment, c: Config, c': Config) {
    exists n: nat :: Solo(env, c, n) == c'
  }

  lemma {:induction false} SoloAdd(env: Environment, c: Config, m: nat, n: nat)
    ensures Solo(env, c, m + n) == Solo(env, Solo(env, c, m), n)
    decreases n
  {
    hide SoloStep;
    if n > 0 {
      SoloAdd(env, c, m, n - 1);
    }
  }

  lemma ReachesNow(env: Environment, c: Config)
    ensures Reaches(env, c, c)
  {
    assert Solo(env, c, 0) == c;
  }

  lemma ReachesStep(env: Environment, c: Config, c': Config)
    requires Reaches(env, c, c')
    ensures Reaches(env, c, SoloStep(env, c'))
  {
    var n: nat :| Solo(env, c, n) == c';
    assert Solo(env, c, n + 1) == SoloStep(env, c');
  }

  lemma ReachesThen(env: Environment, c: Config, c': Config, c'': Config)
    requires Reaches(env, c, c') && Reaches(env, c', c'')
    ensures Reaches(env, c, c'')
  {
    var m: nat :| Solo(env, c, m) == c';
    var n: nat :| Solo(env, c', n) == c'';
    SoloAdd(env, c, m, n);
  }

  /** From `c` the machine runs to `c'`, gives the outcome of `r` to the frames below,
      and has changed the state as `r` says. */
  ghost predicate Runs(env: Environment, c: Config, c': Config, r: Result) {
    && Reaches(env, c, c')
    && c'.control == Give(r.outcome) && c'.stack == c.stack && c'.store == c.store
    && Simulates(c.world, c'.world, r)
  }

  /** `f` waits above the frames of `c`. */
  ghost predicate Waits(c: Config, f: Frame, c': Config) {
    c'.stack == [f] + c.stack && c'.store == c.store
  }

  lemma StepOfFrame(env: Environment, c: Config, f: Frame, rest: seq<Frame>)
    requires c.control.Give? && c.stack == [f] + rest
    ensures SoloStep(env, c) == StepFrame(env, c.(stack := rest), f, c.control.outcome)
  {
    assert c.stack[1..] == rest;
  }

  /** A step that changes nothing, then `r`. */
  lemma RunsAfterMove(env: Environment, c: Config, c1: Config, c': Config, r: Result)
    requires c1 == SoloStep(env, c) && c1.world == c.world && c1.stack == c.stack && c1.store == c.store
    requires Runs(env, c1, c', r)
    ensures Runs(env, c, c', r)
  {
    ReachesNow(env, c);
    ReachesStep(env, c, c);
    ReachesThen(env, c, c1, c');
  }

  lemma RunsInOneStep(env: Environment, c: Config, r: Result)
    requires var c' := SoloStep(env, c);
             && c'.control == Give(r.outcome) && c'.stack == c.stack && c'.store == c.store
             && Simulates(c.world, c'.world, r)
    ensures Runs(env, c, SoloStep(env, c), r)
  {
    ReachesNow(env, c);
    ReachesStep(env, c, c);
  }

  /** Every program runs to its end as the reference says. */
  lemma {:induction false} Performs(p: Program, env: Environment, c: Config) returns (last: Config)
    requires c.control == Perform(p) && Consistent(c.world)
    ensures Runs(env, c, last, Eval(p, env, ScopeOf(c.world)))
    decreases Size(p), 1
  {
    hide Consistent, Simulates, Runs;
    match p
    case Then(first, second) => last := PerformsThen(first, second, env, c);
    case Catch(body, handler, rethrow) => last := PerformsCatch(body, handler, rethrow, env, c);
    case Choose(normally, otherwise) => last := PerformsChoose(normally, otherwise, env, c);
    case Run(o, body) => last := PerformsRun(o, body, env, c);
    case _ => last := PerformsLeaf(p, env, c);
  }

  lemma {:induction false} PerformsLeaf(p: Program, env: Environment, c: Config) returns (last: Config)
    requires c.control == Perform(p) && Consistent(c.world)
    requires !p.Then? && !p.Catch? && !p.Choose? && !p.Run?
    ensures Runs(env, c, last, Eval(p, env, ScopeOf(c.world)))
  {
    hide Consistent, Simulates, Runs;
    var w := c.world;
    last := SoloStep(env, c);
    FirstIsEntered(w);
    match p {
      case Emit(note) => SimulatesIdle(w, last.world, Ok, [Noted(note)]);
      case Write(d, row) =>
        WritesLeaf(d, row, env, c);
      case Throw(error) => SimulatesNothing(w, Fail(error));
      case ThrowFresh(classes) => RaisesAsReference(c, classes);
      case Attach(d, phase, hook) =>
        SimulatesNothing(w, Ok);
        InOrder(w, d);
        if d in w.entries {
          SimulatesPush(w, d, phase, hook);
        } else {
          NotEntered(w, d);
        }
      case Register(phase, hook) =>
        if w.order == [] {
          RaisesAsReference(c, {ILLEGAL_STATE});
        } else {
          SimulatesPush(w, w.order[0], phase, hook);
        }
      case _ => SimulatesNothing(w, Ok);
    }
    RunsInOneStep(env, c, Eval(p, env, ScopeOf(w)));
  }

  lemma WritesLeaf(d: DataSource, row: Row, env: Environment, c: Config)
    requires c.control == Perform(Write(d, row)) && Consistent(c.world)
    ensures Simulates(c.world, SoloStep(env, c).world, Eval(Write(d, row), env, ScopeOf(c.world)))
  {
    hide Consistent, Simulates;
    InOrder(c.world, d);
    if d in c.world.entries {
      EntryParts(c.world, d);
      SimulatesInsert(c.world, d, row);
    } else {
      NotEntered(c.world, d);
      SimulatesIdle(c.world, SoloStep(env, c).world, Ok, [Autocommitted(d, row)]);
    }
  }

  lemma InOrder(w: World, d: DataSource)
    requires Consistent(w)
    ensures d in w.entries <==> d in w.order
  {
  }

  lemma NotEntered(w: World, d: DataSource)
    requires d !in w.entries
    ensures !Entered(w, d)
  {
  }

  lemma RaisesAsReference(c: Config, classes: set<ErrorClass>)
    requires Consistent(c.world)
    ensures var c', r := Machines.Raising(c, classes), Raise(classes, ScopeOf(c.world));
            Simulates(c.world, c'.world, r) && c'.control == Give(r.outcome)
  {
    var c' := Machines.Raising(c, classes);
    assert c.world.log + [] == c.world.log;
    SimulatesIdle(c.world, c'.world, c'.control.outcome, []);
  }

  lemma {:induction false} PerformsThen(first: Program, second: Program, env: Environment, c: Config)
    returns (last: Config)
    requires c.control == Perform(Then(first, second)) && Consistent(c.world)
    ensures Runs(env, c, last, Eval(Then(first, second), env, ScopeOf(c.world)))
    decreases Size(Then(first, second)), 0
  {
    hide Consistent, Simulates;
    var c1 := SoloStep(env, c);
    ReachesNow(env, c);
    ReachesStep(env, c, c);
    var c2 := Performs(first, env, c1);
    var r := Eval(first, env, ScopeOf(c.world));
    ReachesThen(env, c, c1, c2);
    StepOfFrame(env, c2, SecondFrame(second), c.stack);
    var c3 := SoloStep(env, c2);
    ReachesStep(env, c, c2);
    SimulatesParts(c.world, c2.world, r);
    if r.outcome.Ok? {
      last := Performs(second, env, c3);
      ReachesThen(env, c, c3, last);
      SimulatesSequence(c.world, c2.world, last.world, r, Eval(second, env, r.scope));
    } else {
      last := c3;
    }
  }

  lemma {:induction false} PerformsCatch(body: Program, handler: Program, rethrow: bool, env: Environment, c: Config)
    returns (last: Config)
    requires c.control == Perform(Catch(body, handler, rethrow)) && Consistent(c.world)
    ensures Runs(env, c, last, Eval(Catch(body, handler, rethrow), env, ScopeOf(c.world)))
    decreases Size(Catch(body, handler, rethrow)), 0
  {
    hide Consistent, Simulates;
    var c1 := SoloStep(env, c);
    ReachesNow(env, c);
    ReachesStep(env, c, c);
    var c2 := Performs(body, env, c1);
    var r := Eval(body, env, ScopeOf(c.world));
    ReachesThen(env, c, c1, c2);
    StepOfFrame(env, c2, HandlerFrame(handler, rethrow), c.stack);
    var c3 := SoloStep(env, c2);
    ReachesStep(env, c, c2);
    SimulatesParts(c.world, c2.world, r);
    if r.outcome.Ok? {
      last := c3;
    } else {
      var c4 := Performs(handler, env, c3);
      ReachesThen(env, c, c3, c4);
      var r' := Eval(handler, env, r.scope);
      SimulatesSequence(c.world, c2.world, c4.world, r, r');
      if rethrow {
        StepOfFrame(env, c4, RethrowFrame(r.outcome), c.stack);
        last := SoloStep(env, c4);
        ReachesStep(env, c, c4);
        SimulatesAnyOutcome(c.world, c4.world, Sequence(r, r'), last.control.outcome);
      } else {
        last := c4;
      }
    }
  }

  lemma {:induction false} PerformsChoose(normally: Program, otherwise: Program, env: Environment, c: Config)
    returns (last: Config)
    requires c.control == Perform(Choose(normally, otherwise)) && Consistent(c.world)
    ensures Runs(env, c, last, Eval(Choose(normally, otherwise), env, ScopeOf(c.world)))
    decreases Size(Choose(normally, otherwise)), 0
  {
    hide Consistent, Simulates;
    var c1 := SoloStep(env, c);
    ReachesNow(env, c);
    ReachesStep(env, c, c);
    AnswersAsReference(c);
    last := Performs(if env.signal(c.world.clock).Proceed? then normally else otherwise, env, c1);
    ReachesThen(env, c, c1, last);
    SimulatesAfterIdle(c.world, c1.world, last.world, Eval(Choose(normally, otherwise), env, ScopeOf(c.world)));
  }

  lemma AnswersAsReference(c: Config)
    requires Consistent(c.world)
    ensures var w' := Answered(c).world;
            Simulates(c.world, w', Quiet(Ok, ScopeOf(w'))) && Consistent(w')
  {
    assert c.world.log + [] == c.world.log;
    SimulatesIdle(c.world, Answered(c).world, Ok, []);
  }

  // `run`.

  lemma {:induction false} PerformsRun(o: Options, body: Program, env: Environment, c: Config) returns (last: Config)
    requires c.control == Perform(Run(o, body)) && Consistent(c.world)
    ensures Runs(env, c, last, Eval(Run(o, body), env, ScopeOf(c.world)))
    decreases Size(Run(o, body)), 0
  {
    hide Consistent, Simulates, Runs, Started;
    var d, c1, s := o.dataSource, SoloStep(env, c), ScopeOf(c.world);
    InOrder(c.world, d);
    RaisesAsReference(c, {ILLEGAL_STATE});
    assert Eval(Run(o, body), env, s) == EvalRun(o, body, env, s);
    if env.misses(d).Some? {
      RaisesAsReference(c, {env.misses(d).value});
      RunsInOneStep(env, c, EvalRun(o, body, env, s));
      last := c1;
    } else if d in c.world.entries && o.propagation.REQUIRES_NEW? {
      last := PerformsRequiresNew(o, body, env, c);
    } else if d in c.world.entries && o.propagation.NOT_SUPPORTED? {
      last := PerformsNotSupported(o, body, env, c);
    } else if d in c.world.entries && o.propagation.NESTED? && d in env.savepoints {
      last := PerformsNested(o, body, env, c);
    } else if c1.control == Perform(body) {
      last := Performs(body, env, c1);
      RunsAfterMove(env, c, c1, last, Eval(body, env, s));
    } else if d !in c.world.entries && !o.propagation.MANDATORY? {
      assert c1 == Starting(c, o, body);
      last := StartsRun(o, body, env, c);
      StartedRuns(env, c, c1, last, StartWithRetry(o, body, env, s));
    } else {
      assert c1 == Machines.Raising(c, {ILLEGAL_STATE});
      assert EvalRun(o, body, env, s) == Raise({ILLEGAL_STATE}, s);
      RunsInOneStep(env, c, Raise({ILLEGAL_STATE}, s));
      last := c1;
    }
  }

  /** From `c1`, the next step of `c`, the machine does `r`. */
  ghost predicate Started(env: Environment, c: Config, c1: Config, c': Config, r: Result) {
    && Reaches(env, c1, c')
    && c'.control == Give(r.outcome) && c'.stack == c.stack && c'.store == c.store
    && Simulates(c.world, c'.world, r)
  }

  lemma StartedRuns(env: Environment, c: Config, c1: Config, c': Config, r: Result)
    requires c1 == SoloStep(env, c) && Started(env, c, c1, c', r)
    ensures Runs(env, c, c', r)
  {
    ReachesNow(env, c);
    ReachesStep(env, c, c);
    ReachesThen(env, c, c1, c');
  }

  lemma {:induction false} StartsRun(o: Options, body: Program, env: Environment, c: Config) returns (last: Config)
    requires Consistent(c.world) && o.dataSource !in c.world.entries
    ensures Started(env, c, Starting(c, o, body), last, StartWithRetry(o, body, env, ScopeOf(c.world)))
    decreases Budget(Attempts(o.retry), Size(body)), 5
  {
    hide Consistent, Simulates;
    var c1 := Starting(c, o, body);
    ReachesNow(env, c1);
    if ValidRetry(o.retry) {
      last := TriesRun(Attempts(o.retry), o, body, env, c1);
    } else {
      RaisesAsReference(c, {TYPE_ERROR});
      last := c1;
    }
  }

  lemma {:induction false} PerformsRequiresNew(o: Options, body: Program, env: Environment, c: Config)
    returns (last: Config)
    requires c.control == Perform(Run(o, body)) && Consistent(c.world) && o.propagation.REQUIRES_NEW?
    requires o.dataSource in c.world.entries && env.misses(o.dataSource).None?
    ensures var d := o.dataSource;
            Runs(env, c, last, Resume(StartWithRetry(o, body, env, Suspend(ScopeOf(c.world), d)), d))
    decreases Budget(Attempts(o.retry), Size(body)), 6
  {
    hide Consistent, Simulates, StartWithRetry;
    var d, w := o.dataSource, c.world;
    var tx, suspended := w.entries[d], Suspending(c, d);
    SuspendedIsConsistent(w, d);
    OrderDiffers(w);
    var c1 := SoloStep(env, c);
    assert c1 == Starting(suspended, o, body);
    var c2 := StartsRun(o, body, env, suspended);
    var r := StartWithRetry(o, body, env, ScopeOf(suspended.world));
    TidyStartWithRetry(o, body, env, ScopeOf(suspended.world));
    ReachesNow(env, c);
    ReachesStep(env, c, c);
    ReachesThen(env, c, c1, c2);
    last := ResumesAs(env, c, c2, d, r);
  }

  lemma {:induction false} PerformsNotSupported(o: Options, body: Program, env: Environment, c: Config)
    returns (last: Config)
    requires c.control == Perform(Run(o, body)) && Consistent(c.world) && o.propagation.NOT_SUPPORTED?
    requires o.dataSource in c.world.entries && env.misses(o.dataSource).None?
    ensures Runs(env, c, last, Resume(Eval(body, env, Suspend(ScopeOf(c.world), o.dataSource)), o.dataSource))
    decreases Size(body), 2
  {
    hide Consistent, Simulates, Eval;
    var d, w := o.dataSource, c.world;
    SuspendedIsConsistent(w, d);
    OrderDiffers(w);
    var c1 := SoloStep(env, c);
    assert c1 == Performing(Suspending(c, d), body);
    var c2 := Performs(body, env, c1);
    var r := Eval(body, env, ScopeOf(c1.world));
    TidyEval(body, env, ScopeOf(c1.world));
    ReachesNow(env, c);
    ReachesStep(env, c, c);
    ReachesThen(env, c, c1, c2);
    last := ResumesAs(env, c, c2, d, r);
  }

  lemma OrderDiffers(w: World)
    requires Consistent(w)
    ensures Distinct(w.order) && forall d :: d in w.entries <==> d in w.order
    ensures forall d :: Distinct(Remove(w.order, d)) && d !in Remove(w.order, d)
  {
    forall d ensures Distinct(Remove(w.order, d)) && d !in Remove(w.order, d) {
      RemoveOne(w.order, d);
    }
  }

  /** The frame that resumes `d`, after `r` has happened without it. */
  lemma {:induction false} ResumesAs(env: Environment, c: Config, c2: Config, d: DataSource, r: Result)
    returns (last: Config)
    requires Consistent(c.world) && d in c.world.entries && Reaches(env, c, c2)
    requires c2.control == Give(r.outcome) && Waits(c, ResumeFrame(c.world.entries[d]), c2)
    requires Simulates(Suspended(c.world, d), c2.world, r) && forall e | e in r.effects :: e.dataSource != d
    ensures Runs(env, c, last, Resume(r, d))
  {
    hide Consistent, Simulates;
    var tx := c.world.entries[d];
    EntryParts(c.world, d);
    SimulatesSuspended(c.world, c2.world, d, r);
    StepOfFrame(env, c2, ResumeFrame(tx), c.stack);
    last := SoloStep(env, c2);
    ReachesStep(env, c, c2);
  }

  lemma {:induction false} PerformsNested(o: Options, body: Program, env: Environment, c: Config) returns (last: Config)
    requires c.control == Perform(Run(o, body)) && Consistent(c.world) && o.propagation.NESTED?
    requires o.dataSource in c.world.entries && env.misses(o.dataSource).None? && o.dataSource in env.savepoints
    ensures Runs(env, c, last, Savepoint(o, body, env, ScopeOf(c.world)))
    decreases Size(body), 2
  {
    hide Consistent, Simulates;
    var d, w := o.dataSource, c.world;
    EntryParts(w, d);
    var h := w.entries[d].handle;
    SavedIsConsistent(w, h);
    var c1 := SoloStep(env, c);
    var c2 := Performs(body, env, c1);
    var r := Eval(body, env, ScopeOf(c1.world));
    ReachesNow(env, c);
    ReachesStep(env, c, c);
    ReachesThen(env, c, c1, c2);
    StepOfFrame(env, c2, SavepointFrame(o, h, w.names), c.stack);
    last := SoloStep(env, c2);
    ReachesStep(env, c, c2);
    SimulatesParts(c1.world, c2.world, r);
    LeavesSavepoint(w, c2.world, d, r, r.outcome.Fail? && ShouldRollback(r.outcome.error, o));
  }

  lemma {:induction false} LeavesSavepoint(w: World, w': World, d: DataSource, r: Result, back: bool)
    requires Consistent(w) && Entered(w, d) && w.entries[d].handle < |w.sessions|
    requires Simulates(Saved(w, w.entries[d].handle), w', r)
    ensures Simulates(w, LeaveSavepoint(w', w.entries[d].handle, w.names, back),
                      if back then r.(effects := WithoutRows(r.effects, d)) else r)
  {
    hide Consistent, Simulates;
    var h := w.entries[d].handle;
    SimulatesParts(Saved(w, h), w', r);
    Parts(w);
    FindSaved(w, w', d, r);
    if back {
      SimulatesRolledBackTo(w, w', d, r);
    } else {
      SimulatesReleased(w, w', d, r);
    }
  }

  // Attempts.

  lemma {:induction false} TriesRun(k: nat, o: Options, body: Program, env: Environment, c: Config)
    returns (last: Config)
    requires c.control == Try(k, o, body) && 1 <= k && Consistent(c.world) && o.dataSource !in c.world.entries
    ensures Runs(env, c, last, AttemptUpTo(k, o, body, env, ScopeOf(c.world)))
    decreases Budget(k, Size(body)), 3
  {
    hide Consistent, Simulates, Reference.StartNew, Reaches;
    var a := Reference.StartNew(o, body, env, ScopeOf(c.world));
    var c1 := AttemptRuns(k, o, body, env, c);
    SimulatesParts(c.world, c1.world, a.result);
    var c2 := SoloStep(env, c1);
    ReachesStep(env, c, c1);
    if TriesAgain(k, o, a.result) {
      var wait := Wait(k, o, a.result.outcome.error);
      if wait > 0 {
        SimulatesIdle(c1.world, c2.world, Ok, [Waited(wait)]);
        SimulatesParts(c1.world, c2.world, Result(Ok, ScopeOf(c2.world), [], [Waited(wait)]));
      }
      last := TriesRun(k - 1, o, body, env, c2);
      ReachesThen(env, c, c2, last);
      var r' := AttemptUpTo(k - 1, o, body, env, a.result.scope);
      if wait > 0 {
        SimulatesLogged(c1.world, c2.world, last.world, Waited(wait), r');
      }
      SimulatesSequence(c.world, c1.world, last.world, a.result, Delayed(wait, r'));
    } else {
      last := c2;
    }
  }

  /** One attempt, up to the retry decision. */
  lemma {:induction false} AttemptRuns(k: nat, o: Options, body: Program, env: Environment, c: Config)
    returns (last: Config)
    requires c.control == Try(k, o, body) && Consistent(c.world) && o.dataSource !in c.world.entries
    ensures var r := Reference.StartNew(o, body, env, ScopeOf(c.world)).result;
            && Reaches(env, c, last) && last.control == Decide(k, o, body, r.outcome)
            && last.stack == c.stack && last.store == c.store && Simulates(c.world, last.world, r)
    decreases Size(body), 5
  {
    hide Consistent, Simulates, Settle, Reaches, Inside;
    var c1 := SoloStep(env, c);
    ReachesNow(env, c);
    ReachesStep(env, c, c);
    AnswersAsReference(c);
    if env.signal(c.world.clock).Fault? {
      last := c1;
      BeginFails(c, env.signal(c.world.clock).classes, c1.world);
    } else {
      last := BegunRuns(k, o, body, env, c, c1);
      var w := Answered(c).world;
      ReachesThen(env, c, c1, last);
      SimulatesAfterIdle(c.world, w, last.world,
                         Settle(o, body, Inside(o.dataSource, body, env, ScopeOf(w)), env, |w.lists|).result);
    }
  }

  lemma BeginFails(c: Config, classes: set<ErrorClass>, w': World)
    requires Consistent(c.world)
    requires w' == Answered(c).world.(errors := c.world.errors + 1, marked := c.world.marked + {Fresh(c.world.errors)})
    ensures var r := Raise(classes, ScopeOf(Answered(c).world));
            Simulates(c.world, w', r.(scope := Mark(r.scope, r.outcome.error)))
  {
    assert c.world.log + [] == c.world.log;
    SimulatesIdle(c.world, w', Fail(Object(Fresh(c.world.errors), classes)), []);
  }

  /** The transaction `c1` has begun: its callback, its ending, its after-phase hooks. */
  lemma {:induction false} BegunRuns(k: nat, o: Options, body: Program, env: Environment, c: Config, c1: Config)
    returns (last: Config)
    requires c.control == Try(k, o, body) && Consistent(Answered(c).world) && o.dataSource !in c.world.entries
    requires env.signal(c.world.clock).Proceed? && c1 == StepBegin(env, c, k, o, body)
    ensures var w := Answered(c).world;
            var r := Settle(o, body, Inside(o.dataSource, body, env, ScopeOf(w)), env, |w.lists|).result;
            && Reaches(env, c1, last) && last.control == Decide(k, o, body, r.outcome)
            && last.stack == c.stack && last.store == c.store && Simulates(w, last.world, r)
    decreases Size(body), 4
  {
    hide Consistent, Simulates, Settle, InsideDone, BodyAndHooks, Inside;
    var d, w := o.dataSource, Answered(c).world;
    var tx := c1.world.entries[d];
    var job := c1.stack[0].job;
    OpenedIsConsistent(w, tx);
    var c2, next := CallbackRuns(tx, job, env, c, c1);
    ClosedInside(w, c2.world, tx, body, env);
    StepOfFrame(env, c2, CallbackFrame(job, next), c.stack);
    var c3 := SoloStep(env, c2);
    ReachesStep(env, c1, c2);
    var closed := c2.(stack := c.stack, world := Suspended(c2.world, d));
    assert c3 == StepSettle(env, closed, job, c2.control.outcome);
    last := SettleRuns(job, env, closed, c2.control.outcome, w, Inside(d, body, env, ScopeOf(w)));
    ReachesThen(env, c1, c3, last);
  }

  /** The body and the before-commit hooks, up to where the callback ends. */
  lemma {:induction false} CallbackRuns(tx: ActiveTransaction, job: Job, env: Environment, c: Config, c1: Config)
    returns (last: Config, next: nat)
    requires c1.control == Perform(job.body) && c1.stack == [CallbackFrame(job, 0)] + c.stack && Consistent(c1.world)
    requires tx.dataSource == job.options.dataSource && tx.handle == job.handle < |c1.world.lists|
    requires tx.dataSource in c1.world.entries && c1.world.entries[tx.dataSource] == tx
    requires c1.world.lists[tx.handle] == NoHooks(tx.dataSource)
    ensures var r := BodyAndHooks(tx.dataSource, job.body, tx.handle, env, ScopeOf(c1.world));
            && Reaches(env, c1, last) && last.control == Give(r.outcome)
            && last.stack == [CallbackFrame(job, next)] + c.stack && last.store == c1.store
            && Simulates(c1.world, last.world, r)
            && (r.outcome.Ok? ==> |HooksAt(last.world, job.handle, BeforeCommit)| <= next)
    decreases Size(job.body), 2
  {
    hide Consistent, Simulates;
    var d := tx.dataSource;
    var r := Eval(job.body, env, ScopeOf(c1.world));
    var c2 := Performs(job.body, env, c1);
    FreshHooks(c1.world, c2.world, tx, r);
    SimulatesParts(c1.world, c2.world, r);
    HookSizeSplit(r.effects, d);
    last, next := c2, 0;
    if r.outcome.Ok? {
      var queue := Hooks(r.effects, d, BeforeCommit);
      assert queue[0..] == queue;
      last, next := BeforeLoopRuns(tx, job, 0, queue, env, c, c2);
      ReachesThen(env, c1, c2, last);
      SimulatesSequence(c1.world, c2.world, last.world, r, BeforeCommitLoop(queue, 0, tx.handle, d, env, r.scope));
    }
  }

  lemma {:induction false} BeforeLoopRuns(tx: ActiveTransaction, job: Job, i: nat, queue: seq<Program>,
                                          env: Environment, c: Config, c1: Config)
    returns (last: Config, next: nat)
    requires c1.control == Give(Ok) && c1.stack == [CallbackFrame(job, i)] + c.stack && Consistent(c1.world)
    requires tx.dataSource == job.options.dataSource && tx.handle == job.handle < |c1.world.lists|
    requires tx.dataSource in c1.world.entries && c1.world.entries[tx.dataSource] == tx
    requires queue == c1.world.lists[tx.handle].beforeCommit && i <= |queue|
    ensures var r := BeforeCommitLoop(queue[i..], i, tx.handle, tx.dataSource, env, ScopeOf(c1.world));
            && Reaches(env, c1, last) && last.control == Give(r.outcome)
            && last.stack == [CallbackFrame(job, next)] + c.stack && last.store == c1.store
            && Simulates(c1.world, last.world, r)
            && (r.outcome.Ok? ==> |HooksAt(last.world, job.handle, BeforeCommit)| <= next)
    decreases QueueSize(queue[i..]), 3
  {
    hide Consistent, Simulates, BeforeCommitLoop, FireHook, SoloStep, Reaches, QueueSize;
    var d, h, w := tx.dataSource, tx.handle, c1.world;
    if i == |queue| {
      ReachesNow(env, c1);
      SimulatesNothing(w, Ok);
      NoHooksLeft(queue[i..], i, h, d, env, ScopeOf(w));
      last, next := c1, i;
    } else {
      HookFits(queue, i);
      var c2 := SoloStep(env, c1);
      NextHook(env, c, c1, job, i, queue);
      ReachesNow(env, c1);
      ReachesStep(env, c1, c1);
      var r' := FireHook(queue[i], BeforeCommit, i, h, env, ScopeOf(w));
      var c3 := HookRuns(queue[i], BeforeCommit, i, h, env, c1, c2);
      ReachesThen(env, c1, c2, c3);
      var quiet := Quiet(Ok, ScopeOf(w));
      LoopStep(w, c3.world, tx, queue, i, quiet, r', env);
      SequenceOfQuiet(BeforeCommitLoop(queue[i..], i, h, d, env, ScopeOf(w)), ScopeOf(w), Ok);
      SequenceOfQuiet(r', ScopeOf(w), Ok);
      SimulatesParts(w, c3.world, r');
      if r'.outcome.Fail? {
        last, next := c3, i + 1;
      } else {
        var queue' := c3.world.lists[h].beforeCommit;
        last, next := BeforeLoopRuns(tx, job, i + 1, queue', env, c, c3);
        ReachesThen(env, c1, c3, last);
        SimulatesSequence(w, c3.world, last.world, r', BeforeCommitLoop(queue'[i + 1..], i + 1, h, d, env, r'.scope));
      }
    }
  }

  /** The step that takes the next before-commit hook. */
  lemma NextHook(env: Environment, c: Config, c1: Config, job: Job, i: nat, queue: seq<Program>)
    requires c1.control == Give(Ok) && c1.stack == [CallbackFrame(job, i)] + c.stack
    requires job.handle < |c1.world.lists| && queue == c1.world.lists[job.handle].beforeCommit && i < |queue|
    ensures var c2 := SoloStep(env, c1);
            && c2.control == Perform(queue[i]) && c2.stack == [CallbackFrame(job, i + 1)] + c.stack
            && c2.store == c1.store
            && c2.world == c1.world.(log := c1.world.log + [Fired(job.handle, BeforeCommit, i)])
  {
    StepOfFrame(env, c1, CallbackFrame(job, i), c.stack);
  }

  lemma NoHooksLeft(queue: seq<Program>, i: nat, h: nat, d: DataSource, env: Environment, s: Scope)
    requires queue == []
    ensures BeforeCommitLoop(queue, i, h, d, env, s) == Quiet(Ok, s)
  {
  }

  /** A hook, noted in the log, with its frame above `c`. */
  lemma {:induction false} HookRuns(hook: Program, phase: Phase, i: nat, h: nat, env: Environment, c: Config,
                                    c2: Config)
    returns (c3: Config)
    requires Consistent(c.world) && c2.control == Perform(hook) && c2.store == c.store
    requires c2.world == c.world.(log := c.world.log + [Fired(h, phase, i)])
    ensures var r := FireHook(hook, phase, i, h, env, ScopeOf(c.world));
            && Reaches(env, c2, c3) && c3.control == Give(r.outcome) && c3.stack == c2.stack && c3.store == c.store
            && Simulates(c.world, c3.world, r)
    decreases Size(hook), 2
  {
    hide Consistent, Simulates;
    SimulatesIdle(c.world, c2.world, Ok, [Fired(h, phase, i)]);
    SimulatesParts(c.world, c2.world, Result(Ok, ScopeOf(c2.world), [], [Fired(h, phase, i)]));
    c3 := Performs(hook, env, c2);
    SimulatesLogged(c.world, c2.world, c3.world, Fired(h, phase, i), Eval(hook, env, ScopeOf(c.world)));
  }

  // The ending.

  lemma {:induction false} AfterLoopRuns(job: Job, phase: Phase, i: nat, hooks: seq<Program>, ending: Outcome,
                                         env: Environment, c: Config, c1: Config)
    returns (last: Config, after: World)
    requires c1.control.Give? && c1.stack == [AfterFrame(job, phase, i, ending)] + c.stack && Consistent(c1.world)
    requires phase != BeforeCommit && job.handle < |c1.world.lists| && !IsLive(c1.world, job.handle)
    requires hooks == HooksOf(c1.world.lists[job.handle], phase) && i <= |hooks|
    ensures var r := AfterHooks(hooks[i..], phase, i, job.handle, env, ScopeOf(c1.world));
            && Reaches(env, c1, last) && last.control == Decide(job.left, job.options, job.body, ending)
            && last.stack == c.stack && last.store == (if job.outermost then None else c1.store)
            && Simulates(c1.world, after, r)
            && last.world == (if phase.AfterRollback? && ending.Fail? && ending.error.Object?
                            then after.(marked := after.marked + {ending.error.id}) else after)
    decreases QueueSize(hooks[i..]), 4
  {
    hide Consistent, Simulates, AfterHooks, FireHook, IsLive, Reaches, Sequence;
    var h, w := job.handle, c1.world;
    StepOfFrame(env, c1, AfterFrame(job, phase, i, ending), c.stack);
    var c2 := SoloStep(env, c1);
    ReachesNow(env, c1);
    ReachesStep(env, c1, c1);
    var quiet := Quiet(Ok, ScopeOf(w));
    SequenceOfQuiet(AfterHooks(hooks[i..], phase, i, h, env, ScopeOf(w)), ScopeOf(w), Ok);
    if i == |hooks| {
      AfterHooksDone(hooks[i..], i, phase, h, env, quiet);
      SimulatesNothing(w, Ok);
      last, after := c2, w;
      assert w.marked + {} == w.marked;
    } else {
      HookFits(hooks, i);
      var r' := FireHook(hooks[i], phase, i, h, env, ScopeOf(w));
      var c3 := HookRuns(hooks[i], phase, i, h, env, c1, c2);
      ReachesThen(env, c1, c2, c3);
      FinishedKeeps(w, c3.world, h, r');
      SimulatesParts(w, c3.world, r');
      AfterHooksStep(hooks, i, phase, h, env, quiet, r');
      SequenceOfQuiet(r', ScopeOf(w), Ok);
      last, after := AfterLoopRuns(job, phase, i + 1, hooks, ending, env, c, c3);
      ReachesThen(env, c1, c3, last);
      SimulatesSequence(w, c3.world, after, r', AfterHooks(hooks[i + 1..], phase, i + 1, h, env, r'.scope));
    }
  }

  /** COMMIT or ROLLBACK of the transaction `inside` describes, and its after hooks. */
  lemma {:induction false} SettleRuns(job: Job, env: Environment, c: Config, out: Outcome, w: World, inside: Result)
    returns (last: Config)
    requires InsideDone(w, c.world, inside, job.handle, job.options.dataSource) && out == inside.outcome
    requires OtherHookSize(inside.effects, job.options.dataSource) < Size(job.body)
    ensures var r := Settle(job.options, job.body, inside, env, job.handle).result;
            && Reaches(env, StepSettle(env, c, job, out), last)
            && last.control == Decide(job.left, job.options, job.body, r.outcome)
            && last.stack == c.stack && last.store == (if job.outermost then None else c.store)
            && Simulates(w, last.world, r)
    decreases Size(job.body), 3
  {
    hide Consistent, Simulates, InsideDone, Reaches, AfterHooks, Settled;
    var d, o, body, h := job.options.dataSource, job.options, job.body, job.handle;
    InsideKnows(w, c.world, inside, h, d);
    var closed := Suspend(inside.scope, d);
    if out.Fail? && ShouldRollback(out.error, o) {
      SimulatesNothing(c.world, Ok);
      last := RollbackRuns(job, env, c, c, out.error, w, inside);
      assert Settle(o, body, inside, env, h) == RollBack(d, body, inside, out.error, closed, env, h);
    } else {
      var c1 := Answered(c);
      AnswersAsReference(c);
      assert Settle(o, body, inside, env, h) == AskCommit(d, body, inside, closed, env, h);
      match env.signal(c.world.clock) {
        case Proceed =>
          last := CommitRuns(job, env, c, c1, w, inside);
          assert AskCommit(d, body, inside, closed, env, h) == Commit(d, body, inside, ScopeOf(c1.world), env, h);
        case Fault(classes) =>
          var e := Object(Fresh(c.world.errors), classes);
          var c2 := c1.(world := c1.world.(errors := c.world.errors + 1));
          RefusalIsIdle(c.world, c2.world);
          last := RollbackRuns(job, env, c, c2, e, w, inside);
          assert AskCommit(d, body, inside, closed, env, h) == RollBack(d, body, inside, e, ScopeOf(c2.world), env, h);
      }
    }
  }

  lemma RefusalIsIdle(w: World, w': World)
    requires Consistent(w) && w' == w.(clock := w.clock + 1, errors := w.errors + 1)
    ensures Simulates(w, w', Quiet(Ok, ScopeOf(w')))
  {
    assert w.log + [] == w.log;
    SimulatesIdle(w, w', Ok, []);
  }

  lemma InsideKnows(w: World, w': World, inside: Result, h: nat, d: DataSource)
    requires InsideDone(w, w', inside, h, d)
    ensures Consistent(w') && ScopeOf(w') == Suspend(inside.scope, d)
    ensures h < |w'.lists| == |w'.sessions| && !IsLive(w', h)
    ensures ListsGrew(NoHooks(d), w'.lists[h], inside.effects) && w'.sessions[h].rows == Rows(inside.effects, d)
  {
  }

  lemma {:induction false} RollbackRuns(job: Job, env: Environment, c: Config, c2: Config, e: Error, w: World,
                                        inside: Result)
    returns (last: Config)
    requires InsideDone(w, c.world, inside, job.handle, job.options.dataSource)
    requires OtherHookSize(inside.effects, job.options.dataSource) < Size(job.body)
    requires Simulates(c.world, c2.world, Quiet(Ok, ScopeOf(c2.world)))
    requires c2.world == c.world.(clock := c2.world.clock, errors := c2.world.errors)
    requires c2.stack == c.stack && c2.store == c.store
    ensures var d := job.options.dataSource;
            var r := RollBack(d, job.body, inside, e, ScopeOf(c2.world), env, job.handle).result;
            && Reaches(env, Settled(c2, RolledBack(job.handle, d), job, AfterRollback, Fail(e)), last)
            && last.control == Decide(job.left, job.options, job.body, Fail(e))
            && last.stack == c.stack && last.store == (if job.outermost then None else c.store)
            && Simulates(w, last.world, r)
    decreases Size(job.body), 2
  {
    hide Consistent, Simulates, InsideDone, AfterHooks;
    var d, h := job.options.dataSource, job.handle;
    InsideKnows(w, c.world, inside, h, d);
    SimulatesParts(c.world, c2.world, Quiet(Ok, ScopeOf(c2.world)));
    OwnHooks(inside, c.world.lists[h], d);
    var hooks := c2.world.lists[h].afterRollback;
    var c3, w' := EndingRuns(job, AfterRollback, RolledBack(h, d), hooks, Fail(e), env, c2);
    last := c3;
    var ran := AfterHooks(hooks, AfterRollback, 0, h, env, ScopeOf(c2.world));
    MarkedSimulates(c2.world, w', last.world, Logged(RolledBack(h, d), ran), e);
    SimulatesAnyOutcome(c2.world, last.world, Logged(RolledBack(h, d), ran).(scope := Mark(ran.scope, e)), Fail(e));
    SimulatesFinished(w, c.world, c2.world, last.world, d, inside, h, Fail(e), Mark(ran.scope, e), RolledBack(h, d),
                      ran);
  }

  lemma {:induction false} CommitRuns(job: Job, env: Environment, c: Config, c2: Config, w: World, inside: Result)
    returns (last: Config)
    requires InsideDone(w, c.world, inside, job.handle, job.options.dataSource)
    requires OtherHookSize(inside.effects, job.options.dataSource) < Size(job.body)
    requires Simulates(c.world, c2.world, Quiet(Ok, ScopeOf(c2.world)))
    requires c2.world == c.world.(clock := c2.world.clock, errors := c2.world.errors)
    requires c2.stack == c.stack && c2.store == c.store
    ensures var d := job.options.dataSource;
            var r := Commit(d, job.body, inside, ScopeOf(c2.world), env, job.handle).result;
            && job.handle < |c2.world.sessions|
            && Reaches(env, Settled(c2, Committed(job.handle, d, c2.world.sessions[job.handle].rows), job, AfterCommit,
                                   inside.outcome), last)
            && last.control == Decide(job.left, job.options, job.body, inside.outcome)
            && last.stack == c.stack && last.store == (if job.outermost then None else c.store)
            && Simulates(w, last.world, r)
    decreases Size(job.body), 2
  {
    hide Consistent, Simulates, InsideDone, AfterHooks;
    var d, h := job.options.dataSource, job.handle;
    InsideKnows(w, c.world, inside, h, d);
    SimulatesParts(c.world, c2.world, Quiet(Ok, ScopeOf(c2.world)));
    OwnHooks(inside, c.world.lists[h], d);
    var hooks, committed := c2.world.lists[h].afterCommit, Committed(h, d, c2.world.sessions[h].rows);
    var c3, w' := EndingRuns(job, AfterCommit, committed, hooks, inside.outcome, env, c2);
    last := c3;
    var ran := AfterHooks(hooks, AfterCommit, 0, h, env, ScopeOf(c2.world));
    SimulatesAnyOutcome(c2.world, last.world, Logged(committed, ran), inside.outcome);
    SimulatesFinished(w, c.world, c2.world, last.world, d, inside, h, inside.outcome, ran.scope, committed, ran);
  }

  /** The ending in the log, then the after-phase hooks. */
  lemma {:induction false} EndingRuns(job: Job, phase: Phase, entry: Entry, hooks: seq<Program>, ending: Outcome,
                                      env: Environment, c: Config)
    returns (last: Config, after: World)
    requires Consistent(c.world) && phase != BeforeCommit
    requires job.handle < |c.world.lists| && !IsLive(c.world, job.handle)
    requires hooks == HooksOf(c.world.lists[job.handle], phase)
    ensures var r := AfterHooks(hooks, phase, 0, job.handle, env, ScopeOf(c.world));
            && Reaches(env, Settled(c, entry, job, phase, ending), last)
            && last.control == Decide(job.left, job.options, job.body, ending)
            && last.stack == c.stack && last.store == (if job.outermost then None else c.store)
            && Simulates(c.world, after, Logged(entry, r))
            && last.world == (if phase.AfterRollback? && ending.Fail? && ending.error.Object?
                            then after.(marked := after.marked + {ending.error.id}) else after)
    decreases QueueSize(hooks), 5
  {
    hide Consistent, Simulates, AfterHooks;
    var c1 := Settled(c, entry, job, phase, ending);
    SimulatesIdle(c.world, c1.world, Ok, [entry]);
    SimulatesParts(c.world, c1.world, Result(Ok, ScopeOf(c1.world), [], [entry]));
    assert hooks[0..] == hooks;
    last, after := AfterLoopRuns(job, phase, 0, hooks, ending, env, c, c1);
    SimulatesLogged(c.world, c1.world, after, entry, AfterHooks(hooks, phase, 0, job.handle, env, ScopeOf(c.world)));
  }

  lemma {:induction false} MarkedSimulates(w: World, w': World, w'': World, r: Result, e: Error)
    requires Simulates(w, w', r)
    requires w'' == if e.Object? then w'.(marked := w'.marked + {e.id}) else w'
    ensures Simulates(w, w'', r.(scope := Mark(r.scope, e)))
  {
    hide Consistent, Simulates;
    SimulatesParts(w, w', r);
    MarkIsIdle(w', w'', e);
    SimulatesBeforeIdle(w, w', w'', r);
  }

  lemma MarkIsIdle(w': World, w'': World, e: Error)
    requires Consistent(w') && w'' == if e.Object? then w'.(marked := w'.marked + {e.id}) else w'
    ensures Simulates(w', w'', Quiet(Ok, ScopeOf(w''))) && ScopeOf(w'') == Mark(ScopeOf(w'), e)
  {
    assert w'.log + [] == w'.log;
    SimulatesIdle(w', w'', Ok, []);
  }

  /** Alone, from the start, a chain runs its program to the end: with the outcome,
      the log and the state of the reference semantics, and no store left. */
  lemma {:induction false} SoloIsReference(p: Program, env: Environment) returns (n: nat)
    ensures var c, first := Solo(env, Initially(p), n), Initially(p).world;
            var r := Eval(p, env, ScopeOf(first));
            && c.control == Give(r.outcome) && c.stack == [] && c.store == None
            && Simulates(first, c.world, r) && c.world.log == r.log
  {
    hide Eval;
    var c := Initially(p);
    var c' := Performs(p, env, c);
    n :| Solo(env, c, n) == c';
    var r := Eval(p, env, ScopeOf(c.world));
    assert [] + r.log == r.log;
  }
}
