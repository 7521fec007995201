/** When independently started roots cannot disturb each other, and an input by which
    they do. */
module RootLaws {
  import opened Wrappers
  import opened Programs
  import opened Reference
  import opened Worlds
  import opened WorldSteps
  import opened RetryLaws
  import opened Machines
  import opened MachineLaws
  import opened Roots

  // Safe options keep roots apart.

  /** The options of every run in `p`, also of those in its hooks, are safe. */
  ghost predicate Safe(p: Program, occurs: Error -> bool) {
    match p
    case Then(first, second) => Safe(first, occurs) && Safe(second, occurs)
    case Catch(body, handler, _) => Safe(body, occurs) && Safe(handler, occurs)
    case Choose(normally, otherwise) => Safe(normally, occurs) && Safe(otherwise, occurs)
    case Attach(_, _, hook) => Safe(hook, occurs)
    case Register(_, hook) => Safe(hook, occurs)
    case Run(o, body) => RetrySafe(o, occurs) && Safe(body, occurs)
    case _ => true
  }

  ghost predicate SafeHooks(hooks: seq<Program>, occurs: Error -> bool) {
    forall i | 0 <= i < |hooks| :: Safe(hooks[i], occurs)
  }

  ghost predicate SafeLists(lists: HookLists, occurs: Error -> bool) {
    SafeHooks(lists.beforeCommit, occurs) && SafeHooks(lists.afterCommit, occurs)
    && SafeHooks(lists.afterRollback, occurs)
  }

  ghost predicate SafeWorld(w: World, occurs: Error -> bool) {
    forall h | 0 <= h < |w.lists| :: SafeLists(w.lists[h], occurs)
  }

  ghost predicate SafeRun(left: nat, o: Options, body: Program, occurs: Error -> bool) {
    RetrySafe(o, occurs) && Safe(body, occurs) && left <= Attempts(o.retry)
  }

  predicate Exempt(outcome: Outcome, o: Options) {
    outcome.Fail? ==> !ShouldRollback(outcome.error, o)
  }

  ghost predicate SafeFrame(f: Frame, occurs: Error -> bool) {
    match f
    case SecondFrame(second) => Safe(second, occurs)
    case HandlerFrame(handler, _) => Safe(handler, occurs)
    case CallbackFrame(job, _) => SafeRun(job.left, job.options, job.body, occurs)
    case AfterFrame(job, phase, _, outcome) =>
      SafeRun(job.left, job.options, job.body, occurs) && (phase == AfterRollback || Exempt(outcome, job.options))
    case _ => true
  }

  /** An error at a retry decision is one the attempt was rolled back for, or exempt. */
  ghost predicate SafeControl(c: Control, marked: set<Identity>, occurs: Error -> bool) {
    match c
    case Perform(p) => Safe(p, occurs)
    case Give(_) => true
    case Try(left, o, body) => SafeRun(left, o, body, occurs)
    case Decide(left, o, body, outcome) =>
      && SafeRun(left, o, body, occurs)
      && (outcome.Fail? && outcome.error.Object? && outcome.error.id !in marked ==> Exempt(outcome, o))
  }

  ghost predicate SafeConfig(c: Config, occurs: Error -> bool) {
    && SafeWorld(c.world, occurs)
    && SafeControl(c.control, c.world.marked, occurs)
    && forall i | 0 <= i < |c.stack| :: SafeFrame(c.stack[i], occurs)
  }

  lemma PushedIsSafe(w: World, d: DataSource, phase: Phase, hook: Program, occurs: Error -> bool)
    requires SafeWorld(w, occurs) && Safe(hook, occurs) && d in w.entries && w.entries[d].handle < |w.lists|
    ensures SafeWorld(Pushed(w, d, phase, hook), occurs)
  {
    hide Safe;
    var w' := Pushed(w, d, phase, hook);
    forall h | 0 <= h < |w'.lists| ensures SafeLists(w'.lists[h], occurs) {
      assert SafeLists(w.lists[h], occurs);
    }
  }

  lemma ProgramStaysSafe(env: Environment, c: Config, p: Program, occurs: Error -> bool)
    requires SafeConfig(c, occurs) && c.control == Perform(p)
    ensures SafeConfig(StepProgram(env, c, p), occurs)
  {
    hide SafeLists, Entered, RetrySafe;
    match p
    case Attach(d, phase, hook) =>
      if Entered(c.world, d) {
        EnteredParts(c.world, d);
        PushedIsSafe(c.world, d, phase, hook, occurs);
      }
    case Register(phase, hook) =>
      if c.world.order != [] && Entered(c.world, c.world.order[0]) {
        EnteredParts(c.world, c.world.order[0]);
        PushedIsSafe(c.world, c.world.order[0], phase, hook, occurs);
      }
    case Run(o, body) => RunStaysSafe(env, c, o, body, occurs);
    case _ =>
  }

  lemma EnteredParts(w: World, d: DataSource)
    requires Entered(w, d)
    ensures d in w.entries && w.entries[d].handle < |w.lists|
  {
  }

  /** A step that leaves the hooks alone, and pushes one frame or none. */
  lemma MovedIsSafe(c: Config, c': Config, occurs: Error -> bool)
    requires SafeConfig(c, occurs) && c'.world.lists == c.world.lists
             && SafeControl(c'.control, c'.world.marked, occurs)
    requires c'.stack == c.stack || (exists f :: c'.stack == [f] + c.stack && SafeFrame(f, occurs))
    ensures SafeConfig(c', occurs)
  {
    hide SafeControl, SafeFrame, SafeLists;
  }

  lemma RunStaysSafe(env: Environment, c: Config, o: Options, body: Program, occurs: Error -> bool)
    requires SafeConfig(c, occurs) && RetrySafe(o, occurs) && Safe(body, occurs)
    ensures SafeConfig(StepRun(env, c, o, body), occurs)
  {
    hide SafeConfig, RetrySafe, Safe, Starting, Suspending;
    var d := o.dataSource;
    StartingIsSafe(c, o, body, occurs);
    MovedIsSafe(c, Performing(c, body), occurs);
    MovedIsSafe(c, Machines.Raising(c, {ILLEGAL_STATE}), occurs);
    if d in c.world.entries {
      var h := c.world.entries[d].handle;
      SuspendingIsSafe(c, d, occurs);
      StartingIsSafe(Suspending(c, d), o, body, occurs);
      MovedIsSafe(Suspending(c, d), Performing(Suspending(c, d), body), occurs);
      if h < |c.world.sessions| {
        SavingIsSafe(c, o, body, h, occurs);
      }
    }
  }

  lemma SavingIsSafe(c: Config, o: Options, body: Program, h: nat, occurs: Error -> bool)
    requires SafeConfig(c, occurs) && Safe(body, occurs) && h < |c.world.sessions|
    ensures var saved := Performing(c.(world := Saved(c.world, h)), body);
            SafeConfig(Pushing(saved, SavepointFrame(o, h, c.world.names)), occurs)
  {
    hide SafeConfig, Safe;
    var f := SavepointFrame(o, h, c.world.names);
    assert SafeFrame(f, occurs);
    MovedIsSafe(c, Pushing(Performing(c.(world := Saved(c.world, h)), body), f), occurs);
  }

  lemma StartingIsSafe(c: Config, o: Options, body: Program, occurs: Error -> bool)
    requires SafeConfig(c, occurs) && RetrySafe(o, occurs) && Safe(body, occurs)
    ensures SafeConfig(Starting(c, o, body), occurs)
  {
    hide SafeLists, RetrySafe, Safe;
  }

  lemma SuspendingIsSafe(c: Config, d: DataSource, occurs: Error -> bool)
    requires SafeConfig(c, occurs) && d in c.world.entries
    ensures SafeConfig(Suspending(c, d), occurs)
  {
    hide SafeLists, RetrySafe, Safe;
  }

  lemma BeginStaysSafe(env: Environment, c: Config, left: nat, o: Options, body: Program, occurs: Error -> bool)
    requires SafeConfig(c, occurs) && SafeRun(left, o, body, occurs)
    ensures SafeConfig(StepBegin(env, c, left, o, body), occurs)
  {
    hide RetrySafe, Safe;
    assert SafeLists(NoHooks(o.dataSource), occurs);
  }

  lemma HooksAreSafe(c: Config, handle: nat, phase: Phase, next: nat, occurs: Error -> bool)
    requires SafeConfig(c, occurs) && next < |HooksAt(c.world, handle, phase)|
    ensures Safe(HooksAt(c.world, handle, phase)[next], occurs)
  {
    hide Safe;
    assert SafeLists(c.world.lists[handle], occurs);
  }

  lemma CallbackStaysSafe(env: Environment, c: Config, job: Job, next: nat, outcome: Outcome, occurs: Error -> bool)
    requires SafeConfig(c, occurs) && SafeFrame(CallbackFrame(job, next), occurs)
    ensures SafeConfig(StepCallback(env, c, job, next, outcome), occurs)
  {
    hide RetrySafe, Safe, SafeLists, HooksAt;
    if outcome.Ok? && next < |HooksAt(c.world, job.handle, BeforeCommit)| {
      HooksAreSafe(c, job.handle, BeforeCommit, next, occurs);
    }
  }

  lemma AfterStaysSafe(c: Config, job: Job, phase: Phase, next: nat, outcome: Outcome, occurs: Error -> bool)
    requires SafeConfig(c, occurs) && SafeFrame(AfterFrame(job, phase, next, outcome), occurs)
    ensures SafeConfig(StepAfter(c, job, phase, next, outcome), occurs)
  {
    hide RetrySafe, Safe, SafeLists, HooksAt;
    if next < |HooksAt(c.world, job.handle, phase)| {
      HooksAreSafe(c, job.handle, phase, next, occurs);
    }
  }

  lemma FrameStaysSafe(env: Environment, c: Config, f: Frame, outcome: Outcome, occurs: Error -> bool)
    requires SafeConfig(c, occurs) && c.control == Give(outcome) && SafeFrame(f, occurs)
    ensures SafeConfig(StepFrame(env, c, f, outcome), occurs)
  {
    hide RetrySafe, Safe, SafeLists, StepCallback, StepAfter;
    match f
    case CallbackFrame(job, next) => CallbackStaysSafe(env, c, job, next, outcome, occurs);
    case AfterFrame(job, phase, next, ending) => AfterStaysSafe(c, job, phase, next, ending, occurs);
    case _ =>
  }

  lemma StepStaysSafe(env: Environment, c: Config, occurs: Error -> bool)
    requires SafeConfig(c, occurs)
    ensures SafeConfig(SoloStep(env, c), occurs)
  {
    hide RetrySafe, Safe, SafeLists, StepProgram, StepFrame, StepBegin;
    match c.control
    case Perform(p) => ProgramStaysSafe(env, c, p, occurs);
    case Try(left, o, body) => BeginStaysSafe(env, c, left, o, body, occurs);
    case Give(outcome) =>
      if c.stack != [] {
        FrameStaysSafe(env, Popping(c), c.stack[0], outcome, occurs);
      }
    case Decide(left, o, body, outcome) =>
  }

  lemma {:induction false} AloneStaysSafe(root: Root, n: nat, occurs: Error -> bool)
    requires Safe(root.program, occurs)
    ensures SafeConfig(Alone(root, n), occurs)
  {
    hide SafeConfig, SoloStep;
    if n == 0 {
      StartsSafe(root, occurs);
    } else {
      AloneStaysSafe(root, n - 1, occurs);
      StepStaysSafe(root.env, Alone(root, n - 1), occurs);
    }
  }

  lemma StartsSafe(root: Root, occurs: Error -> bool)
    requires Safe(root.program, occurs)
    ensures SafeConfig(Initially(root.program), occurs)
  {
  }

  /** Every error that reaches a retry decision of one of the roots alone can occur. */
  ghost predicate DecidesOnly(roots: seq<Root>, occurs: Error -> bool) {
    forall r, n: nat | 0 <= r < |roots| :: ErrorOccurs(Alone(roots[r], n).control, occurs)
  }

  ghost predicate ErrorOccurs(c: Control, occurs: Error -> bool) {
    c.Decide? && c.outcome.Fail? ==> occurs(c.outcome.error)
  }

  /** Roots all of whose options are safe are independent, whatever they share. */
  lemma {:induction false} SafeRootsAreIndependent(roots: seq<Root>, occurs: Error -> bool)
    requires DecidesOnly(roots, occurs) && forall r | 0 <= r < |roots| :: Safe(roots[r].program, occurs)
    ensures Independent(roots)
  {
    hide Alone, Safe;
    forall q, r, m: nat, n: nat, x: nat | 0 <= q < |roots| && 0 <= r < |roots| && q != r
      ensures !Clash(roots[q], roots[r], m, n, x)
    {
      AloneStaysSafe(roots[r], n, occurs);
      assert ErrorOccurs(Alone(roots[r], n).control, occurs);
    }
  }

  // What no interleaving disturbs.

  /** Clash or not: in every interleaving each root has its own store, with the
      transactions its own frames say, all under the store's correlation id. */
  lemma {:induction false} StoresStayApart(roots: seq<Root>, schedule: seq<nat>)
    requires Schedules(roots, schedule)
    ensures forall r | 0 <= r < |roots| :: Correlated(Interleaved(roots, schedule).configs[r])
    decreases |schedule|
  {
    hide Correlated, Step;
    if schedule == [] {
      NothingRan(roots);
      forall r | 0 <= r < |roots| ensures Correlated(Interleaved(roots, schedule).configs[r]) {
        StartCorrelated(roots[r].program);
      }
    } else {
      var before, q := schedule[..|schedule| - 1], schedule[|schedule| - 1];
      StoresStayApart(roots, before);
      var sys := Interleaved(roots, before);
      StepCorrelates(roots[q].env, Seen(sys.rolledBack, q), sys.configs[q]);
    }
  }

  // An input by which one root makes another commit twice.

  ghost function Steps(env: Environment, seen: set<Identity>, c: Config, n: nat): Config {
    if n == 0 then c else Step(env, seen, Steps(env, seen, c, n - 1))
  }

  lemma {:induction false} StepsAdd(env: Environment, seen: set<Identity>, c: Config, m: nat, n: nat)
    ensures Steps(env, seen, c, m + n) == Steps(env, seen, Steps(env, seen, c, m), n)
    decreases n
  {
    hide Step;
    if n > 0 {
      StepsAdd(env, seen, c, m, n - 1);
    }
  }

  /** While a root marks nothing, what it sees stays the same. */
  lemma {:induction false} TurnsAreSteps(roots: seq<Root>, before: seq<nat>, r: nat, n: nat)
    requires r < |roots| && Schedules(roots, before)
    requires var sys := Interleaved(roots, before);
             Steps(roots[r].env, Seen(sys.rolledBack, r), sys.configs[r], n).world.marked == sys.configs[r].world.marked
    ensures Schedules(roots, before + Times(r, n))
    ensures var sys, sys' := Interleaved(roots, before), Interleaved(roots, before + Times(r, n));
            && sys'.configs[r] == Steps(roots[r].env, Seen(sys.rolledBack, r), sys.configs[r], n)
            && sys'.rolledBack == sys.rolledBack
    decreases n
  {
    hide Step, Interleaved;
    SchedulesTimes(roots, r, n);
    BooksAreKept(roots, before);
    var sys := Interleaved(roots, before);
    if n == 0 {
      assert before + [] == before;
    } else {
      var c := Steps(roots[r].env, Seen(sys.rolledBack, r), sys.configs[r], n - 1);
      StepsKeepMarks(roots[r].env, Seen(sys.rolledBack, r), sys.configs[r], n - 1);
      MarksStay(roots[r].env, Seen(sys.rolledBack, r), c);
      TurnsAreSteps(roots, before, r, n - 1);
      InterleavedMore(roots, before + Times(r, n - 1), r);
      assert before + Times(r, n) == (before + Times(r, n - 1)) + [r];
    }
  }

  lemma {:induction false} StepsKeepMarks(env: Environment, seen: set<Identity>, c: Config, n: nat)
    ensures c.world.marked <= Steps(env, seen, c, n).world.marked
  {
    hide Step;
    if n > 0 {
      StepsKeepMarks(env, seen, c, n - 1);
      MarksStay(env, seen, Steps(env, seen, c, n - 1));
    }
  }

  lemma {:induction false} SoloIsSteps(env: Environment, c: Config, n: nat)
    requires Steps(env, c.world.marked, c, n).world.marked == c.world.marked
    ensures Solo(env, c, n) == Steps(env, c.world.marked, c, n)
  {
    hide Step;
    if n > 0 {
      StepsKeepMarks(env, c.world.marked, c, n - 1);
      MarksStay(env, c.world.marked, Steps(env, c.world.marked, c, n - 1));
      SoloIsSteps(env, c, n - 1);
    }
  }

  /** No transaction is active, and nothing waits. */
  ghost predicate Idle(c: Config) {
    && c.world.entries == map[] && c.world.order == [] && |c.world.lists| == |c.world.sessions|
    && c.store == None && c.stack == []
  }

  /** An attempt of a body that only throws, where every BEGIN and COMMIT works. */
  lemma {:induction false} AttemptThrows(seen: set<Identity>, c: Config, left: nat, o: Options, e: Error)
    requires c.control == Try(left, o, Throw(e)) && Idle(c) && e.Object?
    ensures var c', h := Steps(Obliging(), seen, c, 4), |c.world.lists|;
            && |c'.world.lists| == h + 1
            && c'.control == Decide(left, o, Throw(e), Fail(e)) && Idle(c')
            && (if ShouldRollback(e, o)
                then c'.world.marked == c.world.marked + {e.id}
                     && c'.world.log == c.world.log + [Began(h, o.dataSource)] + [RolledBack(h, o.dataSource)]
                else c'.world.marked == c.world.marked
                     && c'.world.log == c.world.log + [Began(h, o.dataSource)] + [Committed(h, o.dataSource, [])])
    ensures Steps(Obliging(), seen, c, 3).world.marked == c.world.marked
  {
    var env, d, h := Obliging(), o.dataSource, |c.world.lists|;
    var c1 := Step(env, seen, c);
    assert c1.control == Perform(Throw(e));
    var c2 := Step(env, seen, c1);
    assert c2.control == Give(Fail(e)) && |c2.stack| == 1;
    var c3 := Step(env, seen, c2);
    assert c3.control == Give(Ok) && |c3.stack| == 1 && c3.stack[0].AfterFrame?;
    var c4 := Step(env, seen, c3);
    assert Steps(env, seen, c, 0) == c;
    assert Steps(env, seen, c, 1) == c1;
    assert Steps(env, seen, c, 2) == c2;
    assert Steps(env, seen, c, 3) == c3;
  }

  function Conflict(): Error {
    Object(Shared(0), {"Conflict"})
  }

  /** Rolls back for the conflict. */
  function Marking(d: DataSource): Root {
    Root(Obliging(), Run(Plain(d), Throw(Conflict())))
  }

  /** Commits in spite of the conflict, and may retry once. */
  function Forgiving(d: DataSource): Root {
    Root(Obliging(), Run(ForgivingOptions(d), Throw(Conflict())))
  }

  function ForgivingOptions(d: DataSource): Options {
    Options(d, REQUIRED, {"Conflict"}, {}, Retry(2, _ => true, (_, _) => 0))
  }

  lemma ForgivingCommits(d: DataSource)
    ensures !ShouldRollback(Conflict(), ForgivingOptions(d)) && Retryable(Conflict(), ForgivingOptions(d).retry)
    ensures ShouldRollback(Conflict(), Plain(d))
  {
    assert "Conflict" in {"Conflict"};
  }

  function Commits(d: DataSource, n: nat): seq<Entry> {
    if n == 0 then [] else Commits(d, n - 1) + [Began(n - 1, d)] + [Committed(n - 1, d, [])]
  }

  lemma RootStarts(root: Root, o: Options, seen: set<Identity>)
    requires root == Root(Obliging(), Run(o, Throw(Conflict()))) && ValidRetry(o.retry)
    requires o.propagation.REQUIRED? || o.propagation.REQUIRES_NEW?
    ensures var c := Steps(root.env, seen, Initially(root.program), 1);
            && c.control == Try(Attempts(o.retry), o, Throw(Conflict())) && Idle(c)
            && c.world == Initially(root.program).world
  {
    var c := Initially(root.program);
    assert Steps(root.env, seen, c, 0) == c;
    assert Steps(root.env, seen, c, 1) == Step(root.env, seen, c);
    assert Step(root.env, seen, c) == StepProgram(root.env, c, root.program);
  }

  /** The run of the forgiving root, up to its first retry decision. */
  lemma {:induction false} ForgivingDecides(d: DataSource, seen: set<Identity>)
    ensures var root := Forgiving(d);
            var c := Steps(root.env, seen, Initially(root.program), 5);
            && c.control == Decide(2, ForgivingOptions(d), Throw(Conflict()), Fail(Conflict()))
            && Idle(c) && c.world.marked == {} && c.world.log == Commits(d, 1) && |c.world.lists| == 1
  {
    hide Step, Idle, ShouldRollback;
    var root := Forgiving(d);
    RootStarts(root, ForgivingOptions(d), seen);
    ForgivingCommits(d);
    AttemptThrows(seen, Steps(root.env, seen, Initially(root.program), 1), 2, ForgivingOptions(d), Conflict());
    StepsAdd(root.env, seen, Initially(root.program), 1, 4);
    assert Commits(d, 0) == [] && Commits(d, 1) == [Began(0, d)] + [Committed(0, d, [])];
  }

  /** Where it sees its error marked, the forgiving root commits twice. */
  lemma {:induction false} ForgivingRepeats(d: DataSource, seen: set<Identity>)
    requires Shared(0) in seen
    ensures var root := Forgiving(d);
            var c := Steps(root.env, seen, Initially(root.program), 11);
            && c.control == Give(Fail(Conflict())) && Idle(c)
            && c.world.marked == {} && c.world.log == Commits(d, 2)
  {
    hide Step, Idle, ShouldRollback;
    var root, o := Forgiving(d), ForgivingOptions(d);
    var first := Initially(root.program);
    ForgivingDecides(d, seen);
    ForgivingCommits(d);
    var c5, c6 := Steps(root.env, seen, first, 5), Steps(root.env, seen, first, 6);
    Decides(root.env, seen, c5);
    AttemptThrows(seen, c6, 1, o, Conflict());
    StepsAdd(root.env, seen, first, 6, 4);
    var c10 := Steps(root.env, seen, first, 10);
    Decides(root.env, seen, c10);
    assert Steps(root.env, seen, first, 11) == Step(root.env, seen, c10);
    assert Commits(d, 2) == Commits(d, 1) + [Began(1, d)] + [Committed(1, d, [])];
  }

  /** A retry decision without a wait. */
  lemma Decides(env: Environment, seen: set<Identity>, c: Config)
    requires c.control.Decide? && c.control.outcome == Fail(Conflict()) && Idle(c)
    requires Retryable(Conflict(), c.control.options.retry)
    requires Wait(c.control.left, c.control.options, Conflict()) == 0
    ensures var c', x := Step(env, seen, c), c.control;
            && c'.control == (if x.left > 1 && Shared(0) in seen
                              then Try(x.left - 1, x.options, x.body) else Give(x.outcome))
            && c'.world == c.world && Idle(c')
  {
  }

  /** Marks after four steps and after five. */
  lemma {:induction false} MarkingMarks(d: DataSource, seen: set<Identity>)
    ensures var root := Marking(d);
            && Steps(root.env, seen, Initially(root.program), 4).world.marked == {}
            && Steps(root.env, seen, Initially(root.program), 5).world.marked == {Shared(0)}
  {
    hide Step, Idle, ShouldRollback;
    var root := Marking(d);
    RootStarts(root, Plain(d), seen);
    ForgivingCommits(d);
    var c1 := Steps(root.env, seen, Initially(root.program), 1);
    AttemptThrows(seen, c1, 1, Plain(d), Conflict());
    StepsAdd(root.env, seen, Initially(root.program), 1, 3);
    StepsAdd(root.env, seen, Initially(root.program), 1, 4);
  }

  /** Beside a root that rolls back for the shared error, one that commits with it
      makes a second attempt and commits again; alone it commits once. */
  lemma {:induction false} OtherRootRepeatsCommit(d: DataSource) returns (schedule: seq<nat>)
    ensures var roots := [Marking(d), Forgiving(d)];
            && Schedules(roots, schedule) && !Independent(roots)
            && (var alone := Alone(roots[1], 6);
                alone.control == Give(Fail(Conflict())) && Idle(alone) && alone.world.log == Commits(d, 1))
            && (var among := Interleaved(roots, schedule).configs[1];
                among.control == Give(Fail(Conflict())) && Idle(among) && among.world.log == Commits(d, 2))
  {
    hide Step, Idle, Interleaved;
    var roots := [Marking(d), Forgiving(d)];
    ForgivingAlone(d);
    MarkedForAll(roots, d);
    ForgivingRepeats(d, Seen(Interleaved(roots, Times(0, 5)).rolledBack, 1));
    TurnsAreSteps(roots, Times(0, 5), 1, 11);
    schedule := Times(0, 5) + Times(1, 11);
    MarkingAlone(d);
    assert Clash(roots[0], roots[1], 5, 5, 0);
  }

  lemma {:induction false} ForgivingAlone(d: DataSource)
    ensures var root := Forgiving(d);
            && Tempted(Alone(root, 5), Shared(0))
            && (var alone := Alone(root, 6);
                alone.control == Give(Fail(Conflict())) && Idle(alone) && alone.world.log == Commits(d, 1))
  {
    hide Step, Idle;
    var root := Forgiving(d);
    ForgivingDecides(d, {});
    ForgivingCommits(d);
    SoloIsSteps(root.env, Initially(root.program), 5);
    Decides(root.env, {}, Alone(root, 5));
  }

  lemma {:induction false} MarkingAlone(d: DataSource)
    ensures Shared(0) in Alone(Marking(d), 5).world.marked
  {
    hide Step, Idle;
    var root := Marking(d);
    MarkingMarks(d, {});
    SoloIsSteps(root.env, Initially(root.program), 4);
  }

  lemma {:induction false} MarkedForAll(roots: seq<Root>, d: DataSource)
    requires roots == [Marking(d), Forgiving(d)]
    ensures Schedules(roots, Times(0, 5))
    ensures var sys := Interleaved(roots, Times(0, 5));
            sys.configs[1] == Initially(roots[1].program) && Shared(0) in Seen(sys.rolledBack, 1)
  {
    hide Step, Interleaved, Seen;
    SchedulesTimes(roots, 0, 5);
    var start, seen := Interleaved(roots, []), Seen({}, 0);
    MarkingMarks(d, seen);
    NothingRan(roots);
    assert start.configs[0] == Initially(roots[0].program) && start.configs[1] == Initially(roots[1].program);
    TurnsAreSteps(roots, [], 0, 4);
    OthersStay(roots, [], 0, 5, 1);
    assert [] + Times(0, 4) == Times(0, 4) && [] + Times(0, 5) == Times(0, 5);
    assert Times(0, 5) == Times(0, 4) + [0];
    InterleavedMore(roots, Times(0, 4), 0);
    var sys := Interleaved(roots, Times(0, 5));
    assert sys == Advance(roots, Interleaved(roots, Times(0, 4)), 0);
    assert sys.configs[0].world.marked == {Shared(0)};
    assert Tag(0, Shared(0)) in Tags(0, sys.configs[0].world.marked);
    SeenIsTagged(sys.rolledBack, 1, Shared(0));
  }

  lemma NothingRan(roots: seq<Root>)
    ensures var start := Interleaved(roots, []);
            start.rolledBack == {} && forall r | 0 <= r < |roots| :: start.configs[r] == Initially(roots[r].program)
  {
  }

  lemma InterleavedMore(roots: seq<Root>, before: seq<nat>, r: nat)
    requires r < |roots| && Schedules(roots, before)
    ensures Schedules(roots, before + [r])
    ensures Interleaved(roots, before + [r]) == Advance(roots, Interleaved(roots, before), r)
  {
    hide Advance;
    assert (before + [r])[..|before|] == before;
  }

  lemma {:induction false} OthersStay(roots: seq<Root>, before: seq<nat>, r: nat, n: nat, q: nat)
    requires r < |roots| && q < |roots| && q != r && Schedules(roots, before)
    ensures Schedules(roots, before + Times(r, n))
    ensures Interleaved(roots, before + Times(r, n)).configs[q] == Interleaved(roots, before).configs[q]
    decreases n
  {
    hide Step, Interleaved, Tags, Seen;
    SchedulesTimes(roots, r, n);
    if n == 0 {
      assert before + [] == before;
    } else {
      OthersStay(roots, before, r, n - 1, q);
      InterleavedMore(roots, before + Times(r, n - 1), r);
      assert before + Times(r, n) == (before + Times(r, n - 1)) + [r];
    }
  }
}
