/** What the propagation modes and the hooks mean for the transactions around them. */
module EngineLaws {
  import opened Programs
  import opened Effects
  import opened Orders
  import opened Reference
  import opened ReferenceLaws

  // The before-commit hooks.

  /** A fixed list of hooks, run front to back up to the first that throws. */
  function Straight(hooks: seq<Program>, index: nat, handle: nat, env: Environment, s: Scope): Result {
    if hooks == [] then Quiet(Ok, s)
    else
      var r := FireHook(hooks[0], BeforeCommit, index, handle, env, s);
      if r.outcome.Fail? then r else Sequence(r, Straight(hooks[1..], index + 1, handle, env, r.scope))
  }

  lemma Regroup<T>(queue: seq<T>, pushed: seq<T>, later: seq<T>)
    requires queue != []
    ensures queue + (pushed + later) != [] && (queue + (pushed + later))[0] == queue[0]
    ensures (queue + (pushed + later))[1..] == (queue[1..] + pushed) + later
  {
  }

  /** A hook pushes less than it is. */
  lemma QueueShrinks(queue: seq<Program>, index: nat, handle: nat, d: DataSource, env: Environment, s: Scope)
    requires queue != []
    ensures var r := FireHook(queue[0], BeforeCommit, index, handle, env, s);
            QueueSize(queue[1..] + Hooks(r.effects, d, BeforeCommit)) < QueueSize(queue)
  {
    var r := FireHook(queue[0], BeforeCommit, index, handle, env, s);
    HookSizeSplit(r.effects, d);
    QueueSizeAppend(queue[1..], Hooks(r.effects, d, BeforeCommit));
  }

  /** The loop over the live array is the straight run of the array's final
      contents: the hooks there at the start, then all that were pushed meanwhile. */
  lemma {:induction false} LiveLoopIsStraight(queue: seq<Program>, index: nat, handle: nat, d: DataSource,
                                              env: Environment, s: Scope)
    ensures var r := BeforeCommitLoop(queue, index, handle, d, env, s);
            r == Straight(queue + Hooks(r.effects, d, BeforeCommit), index, handle, env, s)
    decreases QueueSize(queue)
  {
    hide QueueSize, FireHook, HookSize, OtherHookSize;
    var whole := BeforeCommitLoop(queue, index, handle, d, env, s);
    if queue == [] {
      assert queue + Hooks(whole.effects, d, BeforeCommit) == [];
    } else {
      var r := FireHook(queue[0], BeforeCommit, index, handle, env, s);
      var pushed := Hooks(r.effects, d, BeforeCommit);
      if r.outcome.Fail? {
        Regroup(queue, [], pushed);
        assert [] + pushed == pushed;
      } else {
        QueueShrinks(queue, index, handle, d, env, s);
        LiveLoopIsStraight(queue[1..] + pushed, index + 1, handle, d, env, r.scope);
        var r' := BeforeCommitLoop(queue[1..] + pushed, index + 1, handle, d, env, r.scope);
        HooksAppend(r.effects, r'.effects, d, BeforeCommit);
        Regroup(queue, pushed, Hooks(r'.effects, d, BeforeCommit));
      }
    }
  }

  /** So a callback is its body and, if that completes, the straight run of every
      before-commit hook the transaction ever receives. */
  lemma {:induction false} CallbackRunsEveryHook(d: DataSource, body: Program, handle: nat, env: Environment, s: Scope)
    ensures var r, whole := Eval(body, env, s), BodyAndHooks(d, body, handle, env, s);
            whole == if r.outcome.Fail? then r
                     else Sequence(r, Straight(Hooks(whole.effects, d, BeforeCommit), 0, handle, env, r.scope))
  {
    var r, whole := Eval(body, env, s), BodyAndHooks(d, body, handle, env, s);
    if r.outcome.Ok? {
      var queue := Hooks(r.effects, d, BeforeCommit);
      LiveLoopIsStraight(queue, 0, handle, d, env, r.scope);
      HookSizeSplit(r.effects, d);
      HooksAppend(r.effects, BeforeCommitLoop(queue, 0, handle, d, env, r.scope).effects, d, BeforeCommit);
    }
  }

  // The verdict.

  /** The phase of the hooks that follow a verdict. */
  function PhaseOf(verdict: Verdict): Phase {
    if verdict.DidCommit? then AfterCommit else AfterRollback
  }

  /** `a` ended with `verdict`: its own hooks of that phase ran from scope `c`, and
      only a transaction that did not commit marks its error, and raises it. */
  ghost predicate EndedWith(a: Attempt, commits: bool, d: DataSource, h: nat, env: Environment, c: Scope) {
    var phase := PhaseOf(a.verdict);
    && !a.verdict.NotBegun? && a.verdict.DidCommit? == commits
    && a.hooks == AfterHooks(Hooks(a.inside.effects, d, phase), phase, 0, h, env, c)
    && if commits
       then a.result.outcome == a.inside.outcome && a.result.scope == a.hooks.scope
       else a.result.outcome.Fail? && a.result.scope == Mark(a.hooks.scope, a.result.outcome.error)
  }

  predicate AsksForCommit(inside: Result, o: Options) {
    inside.outcome.Ok? || !ShouldRollback(inside.outcome.error, o)
  }

  lemma {:induction false} AskCommitEnds(d: DataSource, body: Program, inside: Result, s: Scope, env: Environment,
                                         h: nat)
    returns (c: Scope)
    requires OtherHookSize(inside.effects, d) < Size(body)
    ensures var a := AskCommit(d, body, inside, s, env, h);
            EndedWith(a, env.signal(s.clock).Proceed?, d, h, env, c) && a.inside == inside && c.active == s.active
  {
    var asked := s.(clock := s.clock + 1);
    match env.signal(s.clock)
    case Proceed =>
      c := asked;
      assert AskCommit(d, body, inside, s, env, h) == Commit(d, body, inside, asked, env, h);
    case Fault(classes) =>
      var failed := Raise(classes, asked);
      c := failed.scope;
      assert AskCommit(d, body, inside, s, env, h) == RollBack(d, body, inside, failed.outcome.error, c, env, h);
  }

  lemma {:induction false} SettleEnds(o: Options, body: Program, inside: Result, env: Environment, h: nat)
    returns (c: Scope)
    requires OtherHookSize(inside.effects, o.dataSource) < Size(body)
    ensures var a := Settle(o, body, inside, env, h);
            && EndedWith(a, AsksForCommit(inside, o) && env.signal(inside.scope.clock).Proceed?,
                         o.dataSource, h, env, c)
            && a.inside == inside && c.active == Remove(inside.scope.active, o.dataSource)
  {
    hide AskCommit;
    var d, closed := o.dataSource, Suspend(inside.scope, o.dataSource);
    if AsksForCommit(inside, o) {
      c := AskCommitEnds(d, body, inside, closed, env, h);
    } else {
      c := closed;
      assert Settle(o, body, inside, env, h) == RollBack(d, body, inside, inside.outcome.error, closed, env, h);
    }
  }

  /** A begun transaction commits exactly when its callback returned or threw an
      error that does not roll back, and its COMMIT worked. Its after-phase hooks
      run in a scope without it, and without the one a REQUIRES_NEW suspended for
      it: neither receives anything. */
  lemma {:induction false} Verdicts(o: Options, body: Program, env: Environment, s: Scope) returns (c: Scope)
    requires Distinct(s.active) && o.dataSource !in s.active && env.signal(s.clock).Proceed?
    ensures var a := StartNew(o, body, env, s);
            && EndedWith(a, AsksForCommit(a.inside, o) && env.signal(a.inside.scope.clock).Proceed?,
                         o.dataSource, s.handles, env, c)
            && a.inside == Inside(o.dataSource, body, env, s.(clock := s.clock + 1))
            && SameMembers(c.active, s.active)
            && forall e | e in a.hooks.effects :: e.dataSource in s.active && e.dataSource != o.dataSource
  {
    hide SameMembers, Distinct, Settle, Inside;
    var d, begun := o.dataSource, s.(clock := s.clock + 1);
    TidyInside(d, body, env, begun);
    var inside := Inside(d, body, env, begun);
    TidyClosed(begun, inside, d);
    c := SettleEnds(o, body, inside, env, s.handles);
    var phase := PhaseOf(Settle(o, body, inside, env, s.handles).verdict);
    MembersAgree(c.active, s.active);
    TidyAfterHooks(Hooks(inside.effects, d, phase), phase, 0, s.handles, env, c);
  }

  lemma MembersAgree(a: seq<DataSource>, b: seq<DataSource>)
    requires SameMembers(a, b)
    ensures Distinct(a) && forall d :: d in a <==> d in b
  {
  }

  // The propagation modes.

  /** NESTED inside a transaction: the rows of its own dataSource stay or go as
      one, everything else stays, hooks included. */
  lemma {:induction false} NestedIsAllOrNothing(o: Options, body: Program, env: Environment, s: Scope, c: DataSource,
                                                phase: Phase)
    requires o.propagation.NESTED? && o.dataSource in s.active && env.misses(o.dataSource).None?
    requires o.dataSource in env.savepoints
    ensures var r, whole := Eval(body, env, s), EvalRun(o, body, env, s);
            && whole.outcome == r.outcome && whole.scope == r.scope && whole.log == r.log
            && Hooks(whole.effects, c, phase) == Hooks(r.effects, c, phase)
            && Rows(whole.effects, c) == if c == o.dataSource && r.outcome.Fail? && ShouldRollback(r.outcome.error, o)
                                         then [] else Rows(r.effects, c)
  {
    WithoutRowsKeepsOthers(Eval(body, env, s).effects, o.dataSource, c, phase);
  }

  /** A REQUIRES_NEW inside a transaction of its dataSource leaves nothing on it:
      what it does is what it would do with no such transaction, and the map is
      the same again, its own entry last. */
  lemma {:induction false} RequiresNewIsIndependent(o: Options, body: Program, env: Environment, s: Scope)
    requires o.propagation.REQUIRES_NEW? && Distinct(s.active) && o.dataSource in s.active
             && env.misses(o.dataSource).None?
    ensures var whole, alone := EvalRun(o, body, env, s), EvalRun(o, body, env, Suspend(s, o.dataSource));
            && whole.outcome == alone.outcome && whole.effects == alone.effects && whole.log == alone.log
            && (forall e | e in whole.effects :: e.dataSource in s.active && e.dataSource != o.dataSource)
            && SameMembers(whole.scope.active, s.active)
            && whole.scope.active == alone.scope.active + [o.dataSource]
  {
    RemoveOne(s.active, o.dataSource);
    TidyRun(o, body, env, s);
    TidyRun(o, body, env, Suspend(s, o.dataSource));
  }

  /** A NOT_SUPPORTED body runs as it would with no transaction of its dataSource, and
      leaves nothing on the suspended one. */
  lemma {:induction false} NotSupportedLeavesNothing(o: Options, body: Program, env: Environment, s: Scope)
    requires o.propagation.NOT_SUPPORTED? && Distinct(s.active) && o.dataSource in s.active
             && env.misses(o.dataSource).None?
    ensures var whole := EvalRun(o, body, env, s);
            var alone := Eval(body, env, s.(active := Remove(s.active, o.dataSource)));
            && whole.outcome == alone.outcome && whole.effects == alone.effects && whole.log == alone.log
            && (forall e | e in whole.effects :: e.dataSource in s.active && e.dataSource != o.dataSource)
            && SameMembers(whole.scope.active, s.active)
  {
    RemoveOne(s.active, o.dataSource);
    TidyRun(o, body, env, s);
    TidyEval(body, env, Suspend(s, o.dataSource));
  }

  predicate Suspends(o: Options) {
    o.propagation.REQUIRES_NEW? || o.propagation.NOT_SUPPORTED?
  }

  /** The map's order is not restored: after a suspending run the resumed entry is
      last, so it is the current transaction exactly when it is the only one. */
  lemma {:induction false} SuspensionReorders(o: Options, body: Program, env: Environment, s: Scope)
    requires Suspends(o) && Distinct(s.active) && o.dataSource in s.active && env.misses(o.dataSource).None?
    ensures var active := EvalRun(o, body, env, s).scope.active;
            active != [] && (active[0] == o.dataSource <==> s.active == [o.dataSource])
  {
    var d := o.dataSource;
    RemoveOne(s.active, d);
    TidyStartWithRetry(o, body, env, Suspend(s, d));
    TidyEval(body, env, Suspend(s, d));
    var inner := if o.propagation.REQUIRES_NEW? then StartWithRetry(o, body, env, Suspend(s, d))
                 else Eval(body, env, Suspend(s, d));
    assert EvalRun(o, body, env, s).scope.active == inner.scope.active + [d];
    if inner.scope.active != [] {
      assert inner.scope.active[0] in inner.scope.active;
      assert inner.scope.active[0] in Remove(s.active, d);
    }
  }

  /** A hook registered after a suspending run can so reach another transaction
      than the same hook registered before it. */
  lemma {:induction false} HookReachesAnother(a: DataSource, b: DataSource, o: Options, body: Program, hook: Program,
                                              phase: Phase, env: Environment, s: Scope)
    requires s.active == [a, b] && a != b && o.dataSource == a && Suspends(o) && env.misses(a).None?
    ensures var r := Eval(Register(phase, hook), env, EvalRun(o, body, env, s).scope);
            && Eval(Register(phase, hook), env, s).effects == [Hooked(a, phase, hook)]
            && r.effects == [Hooked(b, phase, hook)]
  {
    assert s.active[1..] == [b];
    SuspensionReorders(o, body, env, s);
    TidyRun(o, body, env, s);
    var active := EvalRun(o, body, env, s).scope.active;
    assert active[0] in active;
  }
}
