/** What every evaluation keeps: the active map, the effects' addressees, and the
    story of each transaction in the log. */
module ReferenceLaws {
  import opened Programs
  import opened Effects
  import opened Orders
  import opened Reference

  lemma AgainIsFail(k: nat, o: Options, r: Result)
    requires TriesAgain(k, o, r)
    ensures r.outcome.Fail? && k > 1
  {
  }

  /** The map is the map on entry up to its order, nothing that was counted or
      marked is forgotten, and only visible transactions are affected. */
  ghost predicate Tidy(s: Scope, r: Result) {
    && SameMembers(r.scope.active, s.active)
    && s.clock <= r.scope.clock
    && s.errors <= r.scope.errors
    && s.handles <= r.scope.handles
    && s.marked <= r.scope.marked
    && forall e | e in r.effects :: e.dataSource in s.active
  }

  lemma {:induction false} TidySequence(s: Scope, first: Result, second: Result)
    requires Tidy(s, first) && Tidy(first.scope, second)
    ensures Tidy(s, Sequence(first, second))
  {
  }

  lemma {:induction false} WithoutIsSubset(effects: seq<Effect>, d: DataSource)
    ensures forall e :: e in Without(effects, d) <==> e in effects && e.dataSource != d
    ensures forall e | e in WithoutRows(effects, d) :: e in effects
  {
    if effects != [] {
      WithoutIsSubset(effects[1..], d);
      assert effects == [effects[0]] + effects[1..];
    }
  }

  lemma NoEffects(effects: seq<Effect>, d: DataSource, phase: Phase)
    requires forall e | e in effects :: e.dataSource != d
    ensures Rows(effects, d) == [] && Hooks(effects, d, phase) == []
  {
    if effects != [] {
      forall e | e in effects[1..] ensures e in effects {}
      NoEffects(effects[1..], d, phase);
    }
  }

  lemma {:induction false} TidyEval(p: Program, env: Environment, s: Scope)
    requires Distinct(s.active)
    ensures Tidy(s, Eval(p, env, s))
    decreases Size(p), 1
  {
    hide Distinct;
    match p
    case Then(first, second) =>
      TidyEval(first, env, s);
      var r := Eval(first, env, s);
      if r.outcome.Ok? {
        TidyEval(second, env, r.scope);
        TidySequence(s, r, Eval(second, env, r.scope));
      }
    case Catch(body, handler, rethrow) =>
      TidyEval(body, env, s);
      var r := Eval(body, env, s);
      if r.outcome.Fail? {
        TidyEval(handler, env, r.scope);
        var r' := Eval(handler, env, r.scope);
        TidySequence(s, r, r');
        TidySequence(s, r, r'.(outcome := r.outcome));
      }
    case Choose(normally, otherwise) =>
      TidyEval(normally, env, s.(clock := s.clock + 1));
      TidyEval(otherwise, env, s.(clock := s.clock + 1));
    case Run(o, body) =>
      TidyRun(o, body, env, s);
    case _ =>
  }

  lemma {:induction false} TidyRun(o: Options, body: Program, env: Environment, s: Scope)
    requires Distinct(s.active)
    ensures Tidy(s, EvalRun(o, body, env, s))
    decreases Size(Run(o, body)), 0
  {
    hide Distinct, Savepoint, StartWithRetry, Eval;
    var d := o.dataSource;
    if env.misses(d).Some? {
      TidyNothing(s);
    } else if d !in s.active {
      TidyNothing(s);
      TidyEval(body, env, s);
      TidyStartWithRetry(o, body, env, s);
    } else if o.propagation.REQUIRES_NEW? {
      RemoveOne(s.active, d);
      TidyStartWithRetry(o, body, env, Suspend(s, d));
      TidyResume(s, StartWithRetry(o, body, env, Suspend(s, d)), d);
    } else if o.propagation.NOT_SUPPORTED? {
      RemoveOne(s.active, d);
      TidyEval(body, env, Suspend(s, d));
      TidyResume(s, Eval(body, env, Suspend(s, d)), d);
    } else {
      TidyNothing(s);
      TidyEval(body, env, s);
      TidySavepoint(o, body, env, s);
    }
  }

  /** Raising an error changes nothing but the error counter. */
  lemma TidyNothing(s: Scope)
    requires Distinct(s.active)
    ensures forall classes :: Tidy(s, Raise(classes, s))
  {
  }

  lemma {:induction false} TidySavepoint(o: Options, body: Program, env: Environment, s: Scope)
    requires Distinct(s.active)
    ensures Tidy(s, Savepoint(o, body, env, s))
    decreases Size(body), 2
  {
    hide Distinct;
    TidyEval(body, env, s);
    WithoutIsSubset(Eval(body, env, s).effects, o.dataSource);
  }

  lemma {:induction false} TidyResume(s: Scope, r: Result, d: DataSource)
    requires Distinct(s.active) && d in s.active && Tidy(Suspend(s, d), r)
    ensures Tidy(s, Resume(r, d))
  {
    RemoveOne(s.active, d);
    DistinctAppend(r.scope.active, d);
  }

  lemma {:induction false} TidyStartWithRetry(o: Options, body: Program, env: Environment, s: Scope)
    requires Distinct(s.active) && o.dataSource !in s.active
    ensures Tidy(s, StartWithRetry(o, body, env, s))
    decreases Budget(Attempts(o.retry), Size(body)), 4
  {
    if ValidRetry(o.retry) {
      TidyAttempts(Attempts(o.retry), o, body, env, s);
    }
  }

  lemma {:induction false} TidyAttempts(k: nat, o: Options, body: Program, env: Environment, s: Scope)
    requires 1 <= k && Distinct(s.active) && o.dataSource !in s.active
    ensures Tidy(s, AttemptUpTo(k, o, body, env, s))
    decreases Budget(k, Size(body)), 3
  {
    TidyStartNew(o, body, env, s);
    var r := StartNew(o, body, env, s).result;
    if k > 1 {
      TidyAttempts(k - 1, o, body, env, r.scope);
      if r.outcome.Fail? {
        TidySequence(s, r, Delayed(Wait(k, o, r.outcome.error), AttemptUpTo(k - 1, o, body, env, r.scope)));
      }
    }
  }

  lemma {:induction false} TidyStartNew(o: Options, body: Program, env: Environment, s: Scope)
    requires Distinct(s.active) && o.dataSource !in s.active
    ensures Tidy(s, StartNew(o, body, env, s).result)
    decreases Size(body), 3
  {
    if env.signal(s.clock).Proceed? {
      var begun := s.(clock := s.clock + 1);
      TidyInside(o.dataSource, body, env, begun);
      TidySettle(o, body, begun, Inside(o.dataSource, body, env, begun), env, s.handles);
    }
  }

  lemma {:induction false} TidySettle(o: Options, body: Program, s: Scope, inside: Result, env: Environment,
                                      handle: nat)
    requires Distinct(s.active) && o.dataSource !in s.active
    requires OtherHookSize(inside.effects, o.dataSource) < Size(body)
    requires Tidy(s.(active := s.active + [o.dataSource]), inside)
    ensures Tidy(s, Settle(o, body, inside, env, handle).result)
    decreases Size(body), 0
  {
    hide Distinct;
    var d := o.dataSource;
    TidyClosed(s, inside, d);
    var closed := Suspend(inside.scope, d);
    var asked := closed.(clock := closed.clock + 1);
    if inside.outcome.Fail? && ShouldRollback(inside.outcome.error, o) {
      TidyRollBack(d, body, s, inside, inside.outcome.error, closed, env, handle);
    } else if env.signal(closed.clock).Proceed? {
      TidyCommit(d, body, s, inside, asked, env, handle);
    } else {
      var failed := Raise(env.signal(closed.clock).classes, asked);
      TidyRollBack(d, body, s, inside, failed.outcome.error, failed.scope, env, handle);
    }
  }

  lemma {:induction false} TidyClosed(s: Scope, inside: Result, d: DataSource)
    requires Distinct(s.active) && d !in s.active
    requires Tidy(s.(active := s.active + [d]), inside)
    ensures Tidy(s, Quiet(Ok, Suspend(inside.scope, d)))
    ensures forall e | e in inside.effects :: e.dataSource in s.active || e.dataSource == d
  {
    RemoveOne(inside.scope.active, d);
  }

  lemma {:induction false} TidyRollBack(d: DataSource, body: Program, s: Scope, inside: Result, error: Error,
                                        closed: Scope, env: Environment, handle: nat)
    requires Distinct(s.active)
    requires OtherHookSize(inside.effects, d) < Size(body)
    requires forall e | e in inside.effects :: e.dataSource in s.active || e.dataSource == d
    requires Tidy(s, Quiet(Ok, closed))
    ensures Tidy(s, RollBack(d, body, inside, error, closed, env, handle).result)
    decreases QueueSize(Hooks(inside.effects, d, AfterRollback)), 4
  {
    TidyAfterHooks(Hooks(inside.effects, d, AfterRollback), AfterRollback, 0, handle, env, closed);
    var hooks := AfterHooks(Hooks(inside.effects, d, AfterRollback), AfterRollback, 0, handle, env, closed);
    WithoutIsSubset(inside.effects, d);
    TidySequence(s, Quiet(Ok, closed).(effects := Without(inside.effects, d)), hooks);
  }

  lemma {:induction false} TidyCommit(d: DataSource, body: Program, s: Scope, inside: Result, closed: Scope,
                                      env: Environment, handle: nat)
    requires Distinct(s.active)
    requires OtherHookSize(inside.effects, d) < Size(body)
    requires forall e | e in inside.effects :: e.dataSource in s.active || e.dataSource == d
    requires Tidy(s, Quiet(Ok, closed))
    ensures Tidy(s, Commit(d, body, inside, closed, env, handle).result)
    decreases QueueSize(Hooks(inside.effects, d, AfterCommit)), 4
  {
    TidyAfterHooks(Hooks(inside.effects, d, AfterCommit), AfterCommit, 0, handle, env, closed);
    var hooks := AfterHooks(Hooks(inside.effects, d, AfterCommit), AfterCommit, 0, handle, env, closed);
    WithoutIsSubset(inside.effects, d);
    TidySequence(s, Quiet(Ok, closed).(effects := Without(inside.effects, d)), hooks);
  }

  lemma {:induction false} TidyInside(d: DataSource, body: Program, env: Environment, s: Scope)
    requires Distinct(s.active) && d !in s.active
    ensures Tidy(s.(active := s.active + [d]), Inside(d, body, env, s))
    decreases Size(body), 2, 1
  {
    DistinctAppend(s.active, d);
    TidyBodyAndHooks(d, body, s.handles, env, s.(active := s.active + [d], handles := s.handles + 1));
  }

  lemma {:induction false} TidyBodyAndHooks(d: DataSource, body: Program, handle: nat, env: Environment, s: Scope)
    requires Distinct(s.active)
    ensures Tidy(s, BodyAndHooks(d, body, handle, env, s))
    decreases Size(body), 2, 0
  {
    hide Distinct;
    TidyEval(body, env, s);
    var r := Eval(body, env, s);
    HookSizeSplit(r.effects, d);
    if r.outcome.Ok? {
      var queue := Hooks(r.effects, d, BeforeCommit);
      TidyBeforeCommitLoop(queue, 0, handle, d, env, r.scope);
      TidySequence(s, r, BeforeCommitLoop(queue, 0, handle, d, env, r.scope));
    }
  }

  lemma {:induction false} TidyBeforeCommitLoop(queue: seq<Program>, index: nat, handle: nat, d: DataSource,
                                                env: Environment, s: Scope)
    requires Distinct(s.active)
    ensures Tidy(s, BeforeCommitLoop(queue, index, handle, d, env, s))
    decreases QueueSize(queue), 3
  {
    if queue != [] {
      TidyEval(queue[0], env, s);
      var r := FireHook(queue[0], BeforeCommit, index, handle, env, s);
      HookSizeSplit(r.effects, d);
      QueueSizeAppend(queue[1..], Hooks(r.effects, d, BeforeCommit));
      if r.outcome.Ok? {
        var queue' := queue[1..] + Hooks(r.effects, d, BeforeCommit);
        TidyBeforeCommitLoop(queue', index + 1, handle, d, env, r.scope);
        TidySequence(s, r, BeforeCommitLoop(queue', index + 1, handle, d, env, r.scope));
      }
    }
  }

  lemma {:induction false} TidyAfterHooks(hooks: seq<Program>, phase: Phase, index: nat, handle: nat,
                                          env: Environment, s: Scope)
    requires Distinct(s.active)
    ensures Tidy(s, AfterHooks(hooks, phase, index, handle, env, s))
    decreases QueueSize(hooks), 3
  {
    if hooks != [] {
      TidyEval(hooks[0], env, s);
      var r := FireHook(hooks[0], phase, index, handle, env, s);
      TidyAfterHooks(hooks[1..], phase, index + 1, handle, env, r.scope);
      TidySequence(s, r, AfterHooks(hooks[1..], phase, index + 1, handle, env, r.scope));
    }
  }
}
