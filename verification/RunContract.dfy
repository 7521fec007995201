/** The documented contract of `run`, read off its options, the error's classes and the
    active map: which error rolls back, and which mode refuses, joins, suspends or begins. */
module RunContract {
  import opened Wrappers
  import opened Programs
  import opened Effects
  import opened Orders
  import opened Reference
  import opened ReferenceLaws
  import opened EngineLaws

  // The rollback rules.

  /** COMMIT was asked for; if it worked the attempt ends as its callback did, else the
      driver's new error is raised and marked. */
  ghost predicate Asks(a: Attempt, env: Environment) {
    if env.signal(a.inside.scope.clock).Proceed?
    then a.verdict.DidCommit? && a.result.outcome == a.inside.outcome
    else a.verdict.DidRollBack? && MarksWith(a, env.signal(a.inside.scope.clock).classes, a.inside.scope.errors)
  }

  /** The result is a new error object of these classes, and marked. */
  predicate MarksWith(a: Attempt, classes: set<ErrorClass>, errors: nat) {
    a.result.outcome == Fail(Object(Fresh(errors), classes)) && Fresh(errors) in a.result.scope.marked
  }

  /** It rolled back without asking, and raised and marked the callback's error. */
  predicate RollsBack(a: Attempt) {
    && a.verdict.DidRollBack? && a.result.outcome == a.inside.outcome && a.result.outcome.Fail?
    && (a.result.outcome.error.Object? ==> a.result.outcome.error.id in a.result.scope.marked)
  }

  /** The error is of no class that a rule lists. */
  predicate IsUnlisted(error: Error, o: Options) {
    error.Object? ==> error.classes !! o.noRollbackFor + o.rollbackFor
  }

  /** What the rules make of a begun transaction. A callback that returns asks for COMMIT.
      An error of some class in `noRollbackFor` does, whatever `rollbackFor` lists; else
      one of some class in `rollbackFor` rolls back; else an error rolls back exactly
      when `rollbackFor` is empty. A primitive is of no class. */
  lemma {:induction false} RulesDecide(o: Options, body: Program, env: Environment, s: Scope)
    requires Distinct(s.active) && o.dataSource !in s.active && env.signal(s.clock).Proceed?
    ensures var a := StartNew(o, body, env, s);
            var outcome := a.inside.outcome;
            && (outcome.Ok? ==> Asks(a, env))
            && (forall c | outcome.Fail? && outcome.error.Object? && c in outcome.error.classes ::
                  && (c in o.noRollbackFor ==> Asks(a, env))
                  && (c in o.rollbackFor && outcome.error.classes !! o.noRollbackFor ==> RollsBack(a)))
            && (outcome.Fail? && IsUnlisted(outcome.error, o) ==>
                  if o.rollbackFor == {} then RollsBack(a) else Asks(a, env))
  {
    hide Inside, Settle, Asks, RollsBack;
    var inside := Inside(o.dataSource, body, env, s.(clock := s.clock + 1));
    SettleDecides(o, body, inside, env, s.handles);
  }

  lemma {:induction false} SettleDecides(o: Options, body: Program, inside: Result, env: Environment, h: nat)
    requires OtherHookSize(inside.effects, o.dataSource) < Size(body)
    ensures var a := Settle(o, body, inside, env, h);
            && a.inside == inside && inside.log <= a.result.log
            && if inside.outcome.Fail? && ShouldRollback(inside.outcome.error, o) then RollsBack(a) else Asks(a, env)
  {
    hide AfterHooks, OtherHookSize, Without, Hooks, ShouldRollback;
    var d, closed := o.dataSource, Suspend(inside.scope, o.dataSource);
    if inside.outcome.Fail? && ShouldRollback(inside.outcome.error, o) {
      assert Settle(o, body, inside, env, h) == RollBack(d, body, inside, inside.outcome.error, closed, env, h);
    } else {
      var asked := closed.(clock := closed.clock + 1);
      assert Settle(o, body, inside, env, h) == AskCommit(d, body, inside, closed, env, h);
      match env.signal(closed.clock)
      case Proceed =>
        assert AskCommit(d, body, inside, closed, env, h) == Commit(d, body, inside, asked, env, h);
      case Fault(classes) =>
        var failed := Raise(classes, asked);
        assert AskCommit(d, body, inside, closed, env, h)
            == RollBack(d, body, inside, failed.outcome.error, failed.scope, env, h);
    }
  }

  /** A BEGIN that fails raises and marks a new error; the body does not run. */
  lemma FailedBegin(o: Options, body: Program, env: Environment, s: Scope)
    requires env.signal(s.clock).Fault?
    ensures var a := StartNew(o, body, env, s);
            && a.verdict.NotBegun? && MarksWith(a, env.signal(s.clock).classes, s.errors)
            && a.result.log == [] && a.result.effects == []
            && a.result.scope == Scope(s.active, s.clock + 1, s.errors + 1, s.handles, s.marked + {Fresh(s.errors)})
  {
  }

  /** The same rules decide whether a NESTED part keeps the rows of its dataSource; what
      it throws it throws. */
  lemma {:induction false} RulesCut(o: Options, body: Program, env: Environment, s: Scope)
    requires o.propagation.NESTED? && o.dataSource in s.active && env.misses(o.dataSource).None?
    requires o.dataSource in env.savepoints
    ensures var r, whole := Eval(body, env, s), EvalRun(o, body, env, s);
            var kept, cut := Rows(whole.effects, o.dataSource) == Rows(r.effects, o.dataSource),
                             Rows(whole.effects, o.dataSource) == [];
            && whole.outcome == r.outcome
            && (r.outcome.Ok? ==> kept)
            && (forall c | r.outcome.Fail? && r.outcome.error.Object? && c in r.outcome.error.classes ::
                  && (c in o.noRollbackFor ==> kept)
                  && (c in o.rollbackFor && r.outcome.error.classes !! o.noRollbackFor ==> cut))
            && (r.outcome.Fail? && IsUnlisted(r.outcome.error, o) ==> if o.rollbackFor == {} then cut else kept)
  {
    hide Eval;
    NestedIsAllOrNothing(o, body, env, s, o.dataSource, BeforeCommit);
  }

  // The propagation modes.

  /** The call is refused with a new error of class `c`: nothing is asked, written, hooked or
      logged, and the body does not run. */
  predicate Refused(r: Result, c: ErrorClass, s: Scope) {
    && r.outcome == Fail(Object(Fresh(s.errors), {c})) && r.effects == [] && r.log == []
    && r.scope == s.(errors := s.errors + 1)
  }

  /** The body ran in `from`, and nothing else happened; the map is then as on entry. */
  ghost predicate RanIn(whole: Result, body: Program, env: Environment, from: Scope, s: Scope) {
    var r := Eval(body, env, from);
    && whole.outcome == r.outcome && whole.effects == r.effects && whole.log == r.log
    && SameMembers(whole.scope.active, s.active)
    && whole.scope == r.scope.(active := whole.scope.active)
  }

  /** The first thing asked is a BEGIN, and if it works the first thing logged is that of
      a transaction on `d` with the next handle. */
  ghost predicate BeginsNew(r: Result, d: DataSource, env: Environment, s: Scope) {
    && s.clock < r.scope.clock
    && (env.signal(s.clock).Proceed? ==> r.log != [] && r.log[0] == Began(s.handles, d))
  }

  /** The modes, by whether a transaction of the dataSource is visible. */
  lemma {:induction false} ModesDecide(o: Options, body: Program, env: Environment, s: Scope)
    requires Distinct(s.active)
    ensures var d, r := o.dataSource, EvalRun(o, body, env, s);
            var visible := d in s.active;
            match env.misses(d)
            case Some(c) => Refused(r, c, s)
            case None =>
              match o.propagation
              case MANDATORY =>
                if visible then RanIn(r, body, env, s, s) else Refused(r, "IllegalTransactionStateError", s)
              case NEVER =>
                if visible then Refused(r, "IllegalTransactionStateError", s) else RanIn(r, body, env, s, s)
              case SUPPORTS => RanIn(r, body, env, s, s)
              case NOT_SUPPORTED => RanIn(r, body, env, s.(active := Remove(s.active, d)), s)
              case REQUIRED =>
                if visible then RanIn(r, body, env, s, s)
                else r == StartWithRetry(o, body, env, s) && StartsNew(r, o, env, s)
              case REQUIRES_NEW =>
                var alone := StartWithRetry(o, body, env, s.(active := Remove(s.active, d)));
                && r.outcome == alone.outcome && r.effects == alone.effects && r.log == alone.log
                && StartsNew(alone, o, env, s.(active := Remove(s.active, d)))
              case NESTED =>
                if visible
                then (d !in env.savepoints ==> Refused(r, "IllegalTransactionStateError", s))
                     && (d in env.savepoints ==> r.log == Eval(body, env, s).log && r.scope == Eval(body, env, s).scope)
                else r == StartWithRetry(o, body, env, s) && StartsNew(r, o, env, s)
  {
    hide Eval, StartWithRetry;
    var d := o.dataSource;
    RemoveOne(s.active, d);
    TidyEval(body, env, s);
    TidyEval(body, env, Suspend(s, d));
    TidyRun(o, body, env, s);
    NewBegins(o, body, env, Suspend(s, d));
  }

  /** A limit below one attempt is refused before anything is asked. */
  ghost predicate StartsNew(r: Result, o: Options, env: Environment, s: Scope) {
    if o.retry.Retry? && o.retry.maxAttempts < 1 then Refused(r, "TypeError", s)
    else BeginsNew(r, o.dataSource, env, s)
  }

  lemma {:induction false} NewBegins(o: Options, body: Program, env: Environment, s: Scope)
    requires Distinct(s.active) && o.dataSource !in s.active
    ensures var r := StartWithRetry(o, body, env, s);
            StartsNew(r, o, env, s)
  {
    hide AttemptUpTo;
    if o.retry.NoRetry? || o.retry.maxAttempts >= 1 {
      AttemptBegins(Attempts(o.retry), o, body, env, s);
    }
  }

  lemma {:induction false} AttemptBegins(k: nat, o: Options, body: Program, env: Environment, s: Scope)
    requires 1 <= k && Distinct(s.active) && o.dataSource !in s.active
    ensures BeginsNew(AttemptUpTo(k, o, body, env, s), o.dataSource, env, s)
  {
    hide StartNew, TriesAgain, Wait, BeginsNew;
    var r := StartNew(o, body, env, s).result;
    OneBegins(o, body, env, s);
    if TriesAgain(k, o, r) {
      AgainIsFail(k, o, r);
      TidyStartNew(o, body, env, s);
      TidyAttempts(k - 1, o, body, env, r.scope);
      var r' := Delayed(Wait(k, o, r.outcome.error), AttemptUpTo(k - 1, o, body, env, r.scope));
      BeginsFirst(r, r', o.dataSource, env, s);
    }
  }

  lemma BeginsFirst(first: Result, second: Result, d: DataSource, env: Environment, s: Scope)
    requires BeginsNew(first, d, env, s) && Tidy(first.scope, second)
    ensures BeginsNew(Sequence(first, second), d, env, s)
  {
  }

  lemma {:induction false} OneBegins(o: Options, body: Program, env: Environment, s: Scope)
    requires Distinct(s.active) && o.dataSource !in s.active
    ensures BeginsNew(StartNew(o, body, env, s).result, o.dataSource, env, s)
  {
    hide BodyAndHooks, Settle, Asks, RollsBack;
    if env.signal(s.clock).Proceed? {
      var begun := s.(clock := s.clock + 1);
      var inside := Inside(o.dataSource, body, env, begun);
      TidyInside(o.dataSource, body, env, begun);
      TidySettle(o, body, begun, inside, env, s.handles);
      SettleDecides(o, body, inside, env, s.handles);
    }
  }

  // Errors on their way out.

  /** A caught error is gone unless the handler throws, then it is the handler's, or asks
      for it to be thrown again; what body and handler did stays. */
  lemma CatchDecides(body: Program, handler: Program, rethrow: bool, env: Environment, s: Scope)
    ensures var r, whole := Eval(body, env, s), Eval(Catch(body, handler, rethrow), env, s);
            var r' := Eval(handler, env, r.scope);
            && (r.outcome.Ok? ==> whole == r)
            && (r.outcome.Fail? ==>
                  && whole.effects == r.effects + r'.effects && whole.log == r.log + r'.log && whole.scope == r'.scope
                  && (r'.outcome.Fail? ==> whole.outcome == r'.outcome)
                  && (r'.outcome.Ok? && rethrow ==> whole.outcome == r.outcome)
                  && (r'.outcome.Ok? && !rethrow ==> whole.outcome.Ok?))
  {
  }

  // Registrations.

  /** A hook is registered on the first transaction of the map, and refused where there is none. */
  lemma RegistrationIsFirst(phase: Phase, hook: Program, env: Environment, s: Scope)
    ensures var r := Eval(Register(phase, hook), env, s);
            if |s.active| == 0 then Refused(r, "IllegalTransactionStateError", s)
            else r == Result(Ok, s, [Hooked(s.active[0], phase, hook)], [])
  {
  }
}
