/** What every step of the machine of one chain keeps: which transactions its store
    holds follows from the frames that wait, and all carry the store's correlation id. */
module MachineLaws {
  import opened Wrappers
  import opened Programs
  import opened Contexts
  import opened Worlds
  import opened Machines

  /** The dataSources with a visible transaction: those with a callback still open,
      without those suspended. */
  function Visible(stack: seq<Frame>): set<DataSource> {
    if stack == [] then {}
    else
      match stack[0]
      case CallbackFrame(job, _) => Visible(stack[1..]) + {job.options.dataSource}
      case ResumeFrame(tx) => Visible(stack[1..]) - {tx.dataSource}
      case _ => Visible(stack[1..])
  }

  predicate IsJob(f: Frame) {
    f.CallbackFrame? || f.AfterFrame?
  }

  predicate Outermost(stack: seq<Frame>) {
    forall i | 0 <= i < |stack| :: !IsJob(stack[i])
  }

  /** What is suspended was visible, what began was not, and an attempt is the outermost
      one exactly when no other is around it. */
  predicate Bracketed(stack: seq<Frame>) {
    stack == [] ||
    (Bracketed(stack[1..]) &&
     match stack[0]
     case ResumeFrame(tx) => tx.dataSource in Visible(stack[1..])
     case CallbackFrame(job, _) => Fits(job, stack[1..])
     case AfterFrame(job, _, _, _) => Fits(job, stack[1..])
     case _ => true)
  }

  predicate Fits(job: Job, stack: seq<Frame>) {
    job.options.dataSource !in Visible(stack) && (job.outermost <==> Outermost(stack))
  }

  predicate StartsOutside(c: Control, stack: seq<Frame>) {
    (c.Try? || c.Decide?) ==> c.options.dataSource !in Visible(stack)
  }

  predicate Carries(tx: ActiveTransaction, store: Option<nat>) {
    store == Some(tx.correlationId)
  }

  ghost predicate Correlated(c: Config) {
    && c.world.entries.Keys == Visible(c.stack)
    && Bracketed(c.stack) && StartsOutside(c.control, c.stack)
    && (c.store.None? <==> Outermost(c.stack))
    && (forall d | d in c.world.entries ::
          c.world.entries[d].dataSource == d && Carries(c.world.entries[d], c.store))
    && forall i | 0 <= i < |c.stack| && c.stack[i].ResumeFrame? :: Carries(c.stack[i].tx, c.store)
  }

  lemma {:induction false} OutermostSeesNothing(stack: seq<Frame>)
    requires Outermost(stack) && Bracketed(stack)
    ensures Visible(stack) == {} && forall i | 0 <= i < |stack| :: !stack[i].ResumeFrame?
  {
    if stack != [] {
      assert !IsJob(stack[0]);
      assert forall i | 0 <= i < |stack| - 1 :: stack[1..][i] == stack[i + 1];
      OutermostSeesNothing(stack[1..]);
      forall i | 0 <= i < |stack| ensures !stack[i].ResumeFrame? {
        if i > 0 {
          assert stack[i] == stack[1..][i - 1];
        }
      }
    }
  }

  /** A frame of no account pushed, or none. */
  predicate IsPlain(f: Frame) {
    !IsJob(f) && !f.ResumeFrame?
  }

  lemma PlainPush(f: Frame, stack: seq<Frame>)
    requires IsPlain(f)
    ensures Visible([f] + stack) == Visible(stack) && Bracketed([f] + stack) == Bracketed(stack)
    ensures Outermost([f] + stack) == Outermost(stack)
  {
    assert ([f] + stack)[1..] == stack && ([f] + stack)[0] == f;
    assert forall i | 0 <= i < |stack| :: ([f] + stack)[i + 1] == stack[i];
  }

  lemma JobPush(f: Frame, stack: seq<Frame>)
    requires IsJob(f)
    ensures Visible([f] + stack) == Visible(stack) + (if f.CallbackFrame? then {f.job.options.dataSource} else {})
    ensures Bracketed([f] + stack) == (Bracketed(stack) && Fits(f.job, stack))
    ensures !Outermost([f] + stack)
  {
    assert ([f] + stack)[1..] == stack && ([f] + stack)[0] == f;
  }

  lemma ResumePush(tx: ActiveTransaction, stack: seq<Frame>)
    ensures var f := ResumeFrame(tx);
            && Visible([f] + stack) == Visible(stack) - {tx.dataSource}
            && Bracketed([f] + stack) == (Bracketed(stack) && tx.dataSource in Visible(stack))
            && Outermost([f] + stack) == Outermost(stack)
  {
    var f := ResumeFrame(tx);
    assert ([f] + stack)[1..] == stack && ([f] + stack)[0] == f;
    assert forall i | 0 <= i < |stack| :: ([f] + stack)[i + 1] == stack[i];
  }

  /** A step that leaves the map and the store alone, and pushes a plain frame or none. */
  lemma Moves(c: Config, c': Config)
    requires Correlated(c) && c'.world.entries == c.world.entries && c'.store == c.store
    requires StartsOutside(c'.control, c.stack)
    requires c'.stack == c.stack || (|c'.stack| > 0 && IsPlain(c'.stack[0]) && c'.stack == [c'.stack[0]] + c.stack)
    ensures Correlated(c')
  {
    hide Visible, Bracketed, Outermost;
    if c'.stack != c.stack {
      PlainPush(c'.stack[0], c.stack);
    }
  }

  lemma {:induction false} SuspendsOne(c: Config, d: DataSource)
    requires Correlated(c) && d in c.world.entries && !c.control.Try? && !c.control.Decide?
    ensures Correlated(Suspending(c, d))
  {
    hide Visible, Bracketed, Outermost;
    ResumePush(c.world.entries[d], c.stack);
    var c' := Suspending(c, d);
    forall i | 0 <= i < |c'.stack| && c'.stack[i].ResumeFrame? ensures Carries(c'.stack[i].tx, c'.store) {
      assert i > 0 ==> c'.stack[i] == c.stack[i - 1];
    }
  }

  lemma ProgramCorrelates(env: Environment, c: Config, p: Program)
    requires Correlated(c) && c.control == Perform(p)
    ensures Correlated(StepProgram(env, c, p))
  {
    hide Correlated, StepRun, Entered;
    match p
    case Run(o, body) =>
      if env.misses(o.dataSource).Some? {
        Moves(c, StepProgram(env, c, p));
      } else {
        RunCorrelates(env, c, o, body);
      }
    case _ => Moves(c, StepProgram(env, c, p));
  }

  lemma RunCorrelates(env: Environment, c: Config, o: Options, body: Program)
    requires Correlated(c) && c.control.Perform?
    ensures Correlated(StepRun(env, c, o, body))
  {
    hide Correlated, Starting;
    var d, c' := o.dataSource, StepRun(env, c, o, body);
    MapIsVisible(c);
    if d in c.world.entries && (o.propagation.REQUIRES_NEW? || o.propagation.NOT_SUPPORTED?) {
      var suspended := Suspending(c, d);
      SuspendsOne(c, d);
      MapIsVisible(suspended);
      StartCorrelates(suspended, o, body);
      Moves(suspended, Performing(suspended, body));
    } else if d !in c.world.entries
              && (o.propagation.REQUIRED? || o.propagation.REQUIRES_NEW? || o.propagation.NESTED?) {
      StartCorrelates(c, o, body);
    } else {
      Moves(c, c');
    }
  }

  lemma MapIsVisible(c: Config)
    requires Correlated(c)
    ensures c.world.entries.Keys == Visible(c.stack)
  {
  }

  lemma StartCorrelates(c: Config, o: Options, body: Program)
    requires Correlated(c) && o.dataSource !in Visible(c.stack)
    ensures Correlated(Starting(c, o, body))
  {
    hide Correlated;
    Moves(c, Starting(c, o, body));
  }

  lemma {:induction false} BeginCorrelates(env: Environment, c: Config, left: nat, o: Options, body: Program)
    requires Correlated(c) && c.control == Try(left, o, body)
    ensures Correlated(StepBegin(env, c, left, o, body))
  {
    hide Visible, Bracketed, Outermost;
    var c' := StepBegin(env, c, left, o, body);
    if env.signal(c.world.clock).Fault? {
      Moves(c, c');
    } else {
      var f := c'.stack[0];
      JobPush(f, c.stack);
      if c.store.None? {
        OutermostSeesNothing(c.stack);
      }
      forall i | 0 <= i < |c'.stack| && c'.stack[i].ResumeFrame? ensures Carries(c'.stack[i].tx, c'.store) {
        assert c'.stack[i] == c.stack[i - 1];
      }
    }
  }

  /** The frame on top is taken off. */
  lemma Popped(c: Config)
    requires Correlated(c) && c.stack != []
    ensures var rest := c.stack[1..];
            && Bracketed(rest) && c.stack == [c.stack[0]] + rest
            && (forall i | 0 <= i < |rest| && rest[i].ResumeFrame? :: Carries(rest[i].tx, c.store))
            && (IsPlain(c.stack[0]) && c.control.Give? ==> Correlated(Popping(c)))
  {
    var rest := c.stack[1..];
    assert forall i | 0 <= i < |rest| :: rest[i] == c.stack[i + 1];
    if IsPlain(c.stack[0]) {
      assert c.stack == [c.stack[0]] + rest;
      PlainPush(c.stack[0], rest);
    }
  }

  lemma {:induction false} ResumeCorrelates(env: Environment, c: Config, tx: ActiveTransaction)
    requires Correlated(c) && c.control.Give? && c.stack != [] && c.stack[0] == ResumeFrame(tx)
    ensures Correlated(StepFrame(env, Popping(c), c.stack[0], c.control.outcome))
  {
    hide Visible, Bracketed, Outermost;
    Popped(c);
    ResumePush(tx, c.stack[1..]);
    assert Carries(c.stack[0].tx, c.store);
  }

  lemma {:induction false} CallbackCorrelates(env: Environment, c: Config, job: Job, next: nat, outcome: Outcome)
    requires Correlated(c) && c.control == Give(outcome) && c.stack != [] && c.stack[0] == CallbackFrame(job, next)
    ensures Correlated(StepCallback(env, Popping(c), job, next, outcome))
  {
    hide Visible, Bracketed, Outermost, HooksAt, ShouldRollback;
    var rest, c' := c.stack[1..], StepCallback(env, Popping(c), job, next, outcome);
    Popped(c);
    JobPush(c.stack[0], rest);
    var f := c'.stack[0];
    assert c'.stack == [f] + rest && IsJob(f) && f.job == job;
    JobPush(f, rest);
    forall i | 0 <= i < |c'.stack| && c'.stack[i].ResumeFrame? ensures Carries(c'.stack[i].tx, c'.store) {
      assert c'.stack[i] == rest[i - 1];
    }
  }

  lemma {:induction false} AfterCorrelates(c: Config, job: Job, phase: Phase, next: nat, outcome: Outcome)
    requires Correlated(c) && c.control.Give? && c.stack != [] && c.stack[0] == AfterFrame(job, phase, next, outcome)
    ensures Correlated(StepAfter(Popping(c), job, phase, next, outcome))
  {
    hide Visible, Bracketed, Outermost, HooksAt;
    var rest, c' := c.stack[1..], StepAfter(Popping(c), job, phase, next, outcome);
    Popped(c);
    JobPush(c.stack[0], rest);
    if next < |HooksAt(c.world, job.handle, phase)| {
      JobPush(c'.stack[0], rest);
      forall i | 0 <= i < |c'.stack| && c'.stack[i].ResumeFrame? ensures Carries(c'.stack[i].tx, c'.store) {
        assert c'.stack[i] == rest[i - 1];
      }
    } else if job.outermost {
      OutermostSeesNothing(rest);
    }
  }

  lemma FrameCorrelates(env: Environment, c: Config)
    requires Correlated(c) && c.control.Give? && c.stack != []
    ensures Correlated(StepFrame(env, Popping(c), c.stack[0], c.control.outcome))
  {
    hide Correlated, StepCallback, StepAfter, LeaveSavepoint;
    var c' := StepFrame(env, Popping(c), c.stack[0], c.control.outcome);
    Popped(c);
    match c.stack[0]
    case ResumeFrame(tx) => ResumeCorrelates(env, c, tx);
    case CallbackFrame(job, next) => CallbackCorrelates(env, c, job, next, c.control.outcome);
    case AfterFrame(job, phase, next, ending) => AfterCorrelates(c, job, phase, next, ending);
    case SavepointFrame(_, handle, name) =>
      SavepointsKeepTheMap(c.world, handle, name);
      Moves(Popping(c), c');
    case _ => Moves(Popping(c), c');
  }

  lemma SavepointsKeepTheMap(w: World, handle: nat, name: nat)
    ensures forall back :: LeaveSavepoint(w, handle, name, back).entries == w.entries
  {
  }

  /** Every step keeps the correspondence, whatever the shared set of errors says. */
  lemma {:induction false} StepCorrelates(env: Environment, marked: set<Identity>, c: Config)
    requires Correlated(c)
    ensures Correlated(Step(env, marked, c))
  {
    hide Correlated, StepProgram, StepBegin, StepFrame;
    match c.control
    case Perform(p) => ProgramCorrelates(env, c, p);
    case Give(_) =>
      if c.stack != [] {
        FrameCorrelates(env, c);
      }
    case Try(left, o, body) => BeginCorrelates(env, c, left, o, body);
    case Decide(_, _, _, _) => DecideCorrelates(env, marked, c);
  }

  lemma DecideCorrelates(env: Environment, marked: set<Identity>, c: Config)
    requires Correlated(c) && c.control.Decide?
    ensures Correlated(Step(env, marked, c))
  {
    Moves(c, Step(env, marked, c));
  }

  lemma {:induction false} StartCorrelated(p: Program)
    ensures Correlated(Initially(p))
  {
  }

  /** As long as a chain has a store it keeps the store's correlation id, and every
      transaction in it, visible or suspended, carries that id. */
  lemma {:induction false} CorrelationStays(env: Environment, p: Program, n: nat)
    ensures var c, c' := Solo(env, Initially(p), n), Solo(env, Initially(p), n + 1);
            && Correlated(c)
            && (c.store.Some? && c'.store.Some? ==> c'.store == c.store)
            && (forall d | d in c.world.entries :: Carries(c.world.entries[d], c.store))
  {
    hide Step;
    if n == 0 {
      StartCorrelated(p);
    } else {
      CorrelationStays(env, p, n - 1);
      var c := Solo(env, Initially(p), n - 1);
      StepCorrelates(env, c.world.marked, c);
    }
    var c := Solo(env, Initially(p), n);
    StoreStays(env, c.world.marked, c);
  }

  lemma StoreStays(env: Environment, marked: set<Identity>, c: Config)
    ensures c.store.Some? && Step(env, marked, c).store.Some? ==> Step(env, marked, c).store == c.store
  {
  }
}
