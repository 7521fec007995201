/** What a retrying run does: its attempts one by one, and when only the last can commit. */
module RetryLaws {
  import opened Wrappers
  import opened Programs
  import opened Effects
  import opened Orders
  import opened Reference
  import opened ReferenceLaws
  import opened EngineLaws
  import opened Stories
  import Backoffs

  /** The attempts a run with `k` of them left makes. */
  function Tries(k: nat, o: Options, body: Program, env: Environment, s: Scope): (t: seq<Attempt>)
    requires 1 <= k
    ensures 1 <= |t| <= k
  {
    var a := StartNew(o, body, env, s);
    if !TriesAgain(k, o, a.result) then [a] else [a] + Tries(k - 1, o, body, env, a.result.scope)
  }

  /** What is waited after an attempt with `k - 1` more allowed. */
  function WaitAfter(k: nat, o: Options, r: Result): int {
    if k > 1 && IsRetried(o, r) then o.retry.delay(o.retry.maxAttempts - k + 1, r.outcome.error) else 0
  }

  /** The outcome is an error object that some transaction was rolled back for, and that
      the caller's or the adapter's test accepts. */
  predicate IsRetried(o: Options, r: Result) {
    && o.retry.Retry? && r.outcome.Fail? && r.outcome.error.Object?
    && r.outcome.error.id in r.scope.marked && o.retry.retryIf(r.outcome.error)
  }

  function WaitEntry(wait: int): seq<Entry> {
    if wait > 0 then [Waited(wait)] else []
  }

  /** The logs of the attempts, with the waits between them. */
  function LogOf(k: nat, o: Options, tries: seq<Attempt>): seq<Entry>
    requires |tries| <= k
  {
    if tries == [] then []
    else tries[0].result.log + WaitEntry(WaitAfter(k, o, tries[0].result)) + LogOf(k - 1, o, tries[1..])
  }

  /** The time waited between the attempts. */
  function WaitedIn(k: nat, o: Options, tries: seq<Attempt>): int
    requires |tries| <= k
  {
    if tries == [] then 0
    else
      var wait := WaitAfter(k, o, tries[0].result);
      (if wait > 0 then wait else 0) + WaitedIn(k - 1, o, tries[1..])
  }

  function EffectsOf(tries: seq<Attempt>): seq<Effect> {
    if tries == [] then [] else tries[0].result.effects + EffectsOf(tries[1..])
  }

  function ScopeBefore(tries: seq<Attempt>, i: nat, s: Scope): Scope
    requires i < |tries|
  {
    if i == 0 then s else tries[i - 1].result.scope
  }

  /** Attempt `i` starts where the one before it ended; it is followed by another exactly
      when it ended with a retried error and fewer than `limit` have been made. */
  ghost predicate Chained(limit: nat, t: seq<Attempt>, i: nat, o: Options, body: Program, env: Environment, s: Scope)
    requires i < |t|
  {
    && t[i] == StartNew(o, body, env, ScopeBefore(t, i, s))
    && (i < |t| - 1 <==> i + 1 < limit && IsRetried(o, t[i].result))
  }

  lemma {:induction false} TriesAreChained(k: nat, o: Options, body: Program, env: Environment, s: Scope, i: nat)
    requires 1 <= k && i < |Tries(k, o, body, env, s)|
    ensures Chained(k, Tries(k, o, body, env, s), i, o, body, env, s)
    decreases k
  {
    hide StartNew;
    var a, t := StartNew(o, body, env, s), Tries(k, o, body, env, s);
    if i > 0 {
      var t' := Tries(k - 1, o, body, env, a.result.scope);
      assert t == [a] + t';
      TriesAreChained(k - 1, o, body, env, a.result.scope, i - 1);
      assert t[i] == t'[i - 1] && ScopeBefore(t, i, s) == ScopeBefore(t', i - 1, a.result.scope);
    }
  }

  /** What the loop asks is what the retry options say. */
  lemma WaitIsWaited(k: nat, o: Options, r: Result)
    requires 1 <= k && (o.retry.Retry? ==> k <= o.retry.maxAttempts)
    ensures TriesAgain(k, o, r) <==> k > 1 && IsRetried(o, r)
    ensures TriesAgain(k, o, r) ==> WaitAfter(k, o, r) == Wait(k, o, r.outcome.error)
    ensures !TriesAgain(k, o, r) ==> WaitAfter(k, o, r) == 0
  {
  }

  lemma {:induction false} RunConcatenatesTries(k: nat, o: Options, body: Program, env: Environment, s: Scope)
    requires 1 <= k
    requires o.retry.Retry? ==> k <= o.retry.maxAttempts
    ensures var t, r := Tries(k, o, body, env, s), AttemptUpTo(k, o, body, env, s);
            && r.log == LogOf(k, o, t) && r.effects == EffectsOf(t)
            && r.outcome == t[|t| - 1].result.outcome && r.scope == t[|t| - 1].result.scope
    decreases k
  {
    hide StartNew, TriesAgain, Wait, IsRetried, Delayed, Sequence;
    var a, t := StartNew(o, body, env, s), Tries(k, o, body, env, s);
    var r := a.result;
    WaitIsWaited(k, o, r);
    if !TriesAgain(k, o, r) {
      assert t == [a] && t[1..] == [];
      assert r.log + [] + [] == r.log && r.effects + [] == r.effects;
    } else {
      AgainIsFail(k, o, r);
      var t' := Tries(k - 1, o, body, env, r.scope);
      assert t == [a] + t' && t[1..] == t';
      RunConcatenatesTries(k - 1, o, body, env, r.scope);
      var rest := AttemptUpTo(k - 1, o, body, env, r.scope);
      DelayedParts(r, Wait(k, o, r.outcome.error), rest);
    }
  }

  lemma DelayedParts(r: Result, wait: int, rest: Result)
    ensures var whole := Sequence(r, Delayed(wait, rest));
            && whole.log == r.log + WaitEntry(wait) + rest.log && whole.effects == r.effects + rest.effects
            && whole.outcome == rest.outcome && whole.scope == rest.scope
  {
    assert [] + rest.log == rest.log;
    assert r.log + (WaitEntry(wait) + rest.log) == r.log + WaitEntry(wait) + rest.log;
  }

  /** The number of attempts the caller allows. */
  function Limit(retry: Retry): int {
    if retry.NoRetry? then 1 else retry.maxAttempts
  }

  /** A run is the concatenation of its attempts, with the waits between them; each is a
      transaction of its own; another follows exactly while the limit is not reached and
      the error is retried; and the run ends like the last. */
  lemma {:induction false} RunIsItsTries(o: Options, body: Program, env: Environment, s: Scope)
    requires Limit(o.retry) >= 1
    ensures var n := Limit(o.retry);
            var t, r := Tries(n, o, body, env, s), StartWithRetry(o, body, env, s);
            && 1 <= |t| <= n
            && r.log == LogOf(n, o, t) && r.effects == EffectsOf(t)
            && r.outcome == t[|t| - 1].result.outcome && r.scope == t[|t| - 1].result.scope
            && forall i | 0 <= i < |t| :: Chained(n, t, i, o, body, env, s)
  {
    var n := Limit(o.retry);
    RunConcatenatesTries(n, o, body, env, s);
    var t := Tries(n, o, body, env, s);
    forall i | 0 <= i < |t| ensures Chained(n, t, i, o, body, env, s) {
      TriesAreChained(n, o, body, env, s, i);
    }
  }

  /** The run begins a transaction of its own, if it runs. */
  predicate NeedsNew(o: Options, s: Scope) {
    || o.propagation.REQUIRES_NEW?
    || (o.dataSource !in s.active && (o.propagation.REQUIRED? || o.propagation.NESTED?))
  }

  /** A run that needs a new transaction and allows less than one attempt raises a
      TypeError, and nothing else happens; any other asks the world for a BEGIN. */
  lemma {:induction false} RetryIsChecked(o: Options, body: Program, env: Environment, s: Scope)
    requires NeedsNew(o, s) && env.misses(o.dataSource).None? && Distinct(s.active)
    ensures var r := EvalRun(o, body, env, s);
            && (r.scope.clock == s.clock <==> Limit(o.retry) < 1)
            && (Limit(o.retry) < 1 ==>
                  && r.outcome == Fail(Object(Fresh(s.errors), {"TypeError"})) && r.effects == [] && r.log == []
                  && r.scope.errors == s.errors + 1 && r.scope.marked == s.marked && r.scope.handles == s.handles)
  {
    hide StartNew;
    RemoveOne(s.active, o.dataSource);
    var from := Suspend(s, o.dataSource);
    if Limit(o.retry) >= 1 {
      AsksFirst(Limit(o.retry), o, body, env, from);
      assert StartWithRetry(o, body, env, from) == AttemptUpTo(Limit(o.retry), o, body, env, from);
    } else {
      assert StartWithRetry(o, body, env, from) == Raise({TYPE_ERROR}, from);
    }
  }

  lemma {:induction false} AsksFirst(k: nat, o: Options, body: Program, env: Environment, s: Scope)
    requires 1 <= k && Distinct(s.active) && o.dataSource !in s.active
    ensures s.clock < AttemptUpTo(k, o, body, env, s).scope.clock
    decreases k
  {
    hide TriesAgain, Wait, Settle, Inside;
    BeginIsAsked(o, body, env, s);
    TidyStartNew(o, body, env, s);
    var r := StartNew(o, body, env, s).result;
    if TriesAgain(k, o, r) {
      AgainIsFail(k, o, r);
      TidyAttempts(k - 1, o, body, env, r.scope);
    }
  }

  lemma {:induction false} BeginIsAsked(o: Options, body: Program, env: Environment, s: Scope)
    requires Distinct(s.active) && o.dataSource !in s.active
    ensures s.clock < StartNew(o, body, env, s).result.scope.clock
  {
    hide Settle, Inside;
    if env.signal(s.clock).Proceed? {
      var begun := s.(clock := s.clock + 1);
      TidyInside(o.dataSource, body, env, begun);
      TidySettle(o, body, begun, Inside(o.dataSource, body, env, begun), env, s.handles);
    }
  }

  // The waits of the default backoff.

  ghost predicate IsDefaultBackoff(o: Options, draws: seq<real>) {
    && o.retry.Retry?
    && |draws| + 1 >= Attempts(o.retry)
    && (forall r | r in draws :: Backoffs.IsRandom(r))
    && forall attempt, error | 1 <= attempt <= |draws| ::
         o.retry.delay(attempt, error) == Backoffs.DefaultDelay(attempt, draws[attempt - 1])
  }

  lemma {:induction false} WaitsAreDraws(k: nat, o: Options, body: Program, env: Environment, s: Scope,
                                         draws: seq<real>)
    requires 1 <= k <= Attempts(o.retry) && IsDefaultBackoff(o, draws)
    ensures var t, made := Tries(k, o, body, env, s), Attempts(o.retry) - k + 1;
            WaitedIn(k, o, t) == Backoffs.TotalWait(made + |t| - 1, draws) - Backoffs.TotalWait(made, draws)
    decreases k
  {
    hide StartNew, Backoffs.DefaultDelay;
    var a, t := StartNew(o, body, env, s), Tries(k, o, body, env, s);
    var made := Attempts(o.retry) - k + 1;
    if !TriesAgain(k, o, a.result) {
      assert t[1..] == [];
    } else {
      var t' := Tries(k - 1, o, body, env, a.result.scope);
      assert t == [a] + t' && t[1..] == t';
      WaitsAreDraws(k - 1, o, body, env, a.result.scope, draws);
      assert draws[made - 1] in draws;
      Backoffs.DelayInWindow(made, draws[made - 1]);
      assert o.retry.delay(made, a.result.outcome.error) == Backoffs.DefaultDelay(made, draws[made - 1]);
      assert Backoffs.TotalWait(made + 1, draws)
          == Backoffs.TotalWait(made, draws) + Backoffs.DefaultDelay(made, draws[made - 1]);
    }
  }

  /** With the default backoff the time a run waits between its attempts stays
      within the bound for `maxAttempts`. */
  lemma {:induction false} RunWaitsAtMost(o: Options, body: Program, env: Environment, s: Scope, draws: seq<real>)
    requires IsDefaultBackoff(o, draws)
    ensures var n := Attempts(o.retry);
            0 <= WaitedIn(n, o, Tries(n, o, body, env, s)) <= Backoffs.Bound(n)
  {
    hide Tries, WaitedIn, Backoffs.Bound;
    var n := Attempts(o.retry);
    var t := Tries(n, o, body, env, s);
    WaitsAreDraws(n, o, body, env, s, draws);
    Backoffs.TotalWaitIsBounded(|t|, draws);
    Backoffs.BoundGrows(|t|, n);
  }

  // When only the last attempt can commit.

  /** An attempt that committed yet failed raises an error that does not roll back,
      and that it did not mark itself. */
  lemma {:induction false} CommittedWithError(o: Options, body: Program, env: Environment, s: Scope)
    requires StartNew(o, body, env, s).verdict.DidCommit?
    requires StartNew(o, body, env, s).result.outcome.Fail?
    ensures var a := StartNew(o, body, env, s);
            !ShouldRollback(a.result.outcome.error, o) && a.result.scope == a.hooks.scope
  {
    hide Settle, Inside;
    var inside := Inside(o.dataSource, body, env, s.(clock := s.clock + 1));
    var c := SettleEnds(o, body, inside, env, s.handles);
  }

  ghost predicate CommitsOnlyLast(o: Options, body: Program, env: Environment, s: Scope) {
    var t := Tries(Attempts(o.retry), o, body, env, s);
    forall i | 0 <= i < |t| - 1 :: !t[i].verdict.DidCommit?
  }

  /** Every error an attempt of the run raises is one that can occur. */
  ghost predicate RaisesOnly(occurs: Error -> bool, o: Options, body: Program, env: Environment, s: Scope) {
    var t := Tries(Attempts(o.retry), o, body, env, s);
    forall i | 0 <= i < |t| :: t[i].result.outcome.Fail? ==> occurs(t[i].result.outcome.error)
  }

  /** An attempt that is followed by another committed only if its error was marked
      by then, on behalf of another transaction. */
  lemma {:induction false} OnlyForeignMarksRepeat(o: Options, body: Program, env: Environment, s: Scope, i: nat)
    requires i < |Tries(Attempts(o.retry), o, body, env, s)| - 1
    requires Tries(Attempts(o.retry), o, body, env, s)[i].verdict.DidCommit?
    ensures var a := Tries(Attempts(o.retry), o, body, env, s)[i];
            && a.result.outcome.Fail? && IsMarked(a.hooks.scope, a.result.outcome.error)
            && Retryable(a.result.outcome.error, o.retry) && !ShouldRollback(a.result.outcome.error, o)
  {
    var t := Tries(Attempts(o.retry), o, body, env, s);
    TriesAreChained(Attempts(o.retry), o, body, env, s, i);
    CommittedWithError(o, body, env, ScopeBefore(t, i, s));
  }

  /** Of the errors that can occur, no object is both retryable and exempt from
      rollback. `occurs` carries the class hierarchy: of an error it says which sets
      of classes go together. */
  ghost predicate RetrySafe(o: Options, occurs: Error -> bool) {
    || Attempts(o.retry) == 1
    || forall e: Error | e.Object? && occurs(e) && Retryable(e, o.retry) :: ShouldRollback(e, o)
  }

  function Blank(): Scope {
    Scope([], 0, 0, 0, {})
  }

  function Plain(d: DataSource): Options {
    Options(d, REQUIRES_NEW, {}, {}, NoRetry)
  }

  /** A body whose error is first marked by an inner transaction. */
  function MarkedInside(d: DataSource, e: Error): Program {
    Run(Plain(d), Throw(e))
  }

  /** The inner transaction of `MarkedInside` rolls back and marks what it throws. */
  lemma {:induction false} InnerMarks(d: DataSource, e: Error, s: Scope)
    requires e.Object? && s.active == []
    ensures var r := StartWithRetry(Plain(d), Throw(e), Obliging(), s);
            r.outcome == Fail(e) && e.id in r.scope.marked && r.effects == [] && r.scope.active == []
  {
    var env, o, body := Obliging(), Plain(d), Throw(e);
    var begun := s.(clock := s.clock + 1);
    var inside := Inside(d, body, env, begun);
    var s' := begun.(active := begun.active + [d], handles := begun.handles + 1);
    assert Eval(body, env, s') == Quiet(Fail(e), s');
    assert BodyAndHooks(d, body, s.handles, env, s') == Quiet(Fail(e), s');
    assert inside.outcome == Fail(e) && inside.effects == [] && inside.scope == s';
    assert s'.active == [d];
    assert ShouldRollback(e, o);
    var closed := Suspend(inside.scope, d);
    assert closed.active == [];
    var a := Settle(o, body, inside, env, s.handles);
    assert a == RollBack(d, body, inside, e, closed, env, s.handles);
    assert Hooks(inside.effects, d, AfterRollback) == [];
    assert AfterHooks([], AfterRollback, 0, s.handles, env, closed) == Quiet(Ok, closed);
    assert a.hooks == Quiet(Ok, closed);
    assert a.result.scope == Mark(a.hooks.scope, e);
    assert StartNew(o, body, env, s) == a;
    assert StartWithRetry(o, body, env, s) == AttemptUpTo(1, o, body, env, s);
  }

  /** An outer attempt around it commits, and its error reads as rolled back. */
  lemma {:induction false} OuterCommits(o: Options, e: Error, s: Scope)
    requires e.Object? && !ShouldRollback(e, o) && s.active == []
    ensures var a := StartNew(o, MarkedInside(o.dataSource, e), Obliging(), s);
            && a.verdict.DidCommit? && a.result.outcome == Fail(e) && IsMarked(a.result.scope, e)
            && a.result.scope.active == []
  {
    hide StartWithRetry;
    var env, d := Obliging(), o.dataSource;
    var body := MarkedInside(d, e);
    var begun := s.(clock := s.clock + 1);
    var s' := begun.(active := [d], handles := s.handles + 1);
    assert begun.active + [d] == [d];
    InnerMarks(d, e, Suspend(s', d));
    var r := StartWithRetry(Plain(d), Throw(e), env, Suspend(s', d));
    assert EvalRun(Plain(d), Throw(e), env, s') == Resume(r, d);
    assert Eval(body, env, s') == Resume(r, d);
    assert BodyAndHooks(d, body, s.handles, env, s') == Resume(r, d);
    var inside := Inside(d, body, env, begun);
    assert inside.outcome == r.outcome && inside.scope == Resume(r, d).scope && inside.effects == [];
    assert inside.scope.active == [d];
    CommitKeepsMarks(o, body, inside, env, s.handles);
    assert StartNew(o, body, env, s) == Settle(o, body, inside, env, s.handles);
  }

  lemma {:induction false} CommitKeepsMarks(o: Options, body: Program, inside: Result, env: Environment, h: nat)
    requires inside.effects == [] && inside.outcome.Fail? && env.signal(inside.scope.clock).Proceed?
    requires OtherHookSize(inside.effects, o.dataSource) < Size(body)
    requires !ShouldRollback(inside.outcome.error, o)
    ensures var a := Settle(o, body, inside, env, h);
            && a.verdict.DidCommit? && a.result.outcome == inside.outcome
            && a.result.scope.marked == inside.scope.marked
            && a.result.scope.active == Suspend(inside.scope, o.dataSource).active
  {
    var c := SettleEnds(o, body, inside, env, h);
    var closed := Suspend(inside.scope, o.dataSource);
    var asked := closed.(clock := closed.clock + 1);
    assert Settle(o, body, inside, env, h) == AskCommit(o.dataSource, body, inside, closed, env, h);
    assert AskCommit(o.dataSource, body, inside, closed, env, h) == Commit(o.dataSource, body, inside, asked, env, h);
    assert AfterHooks([], AfterCommit, 0, h, env, asked) == Quiet(Ok, asked);
  }

  /** Each attempt commits and raises the same error, as often as it may. */
  lemma {:induction false} UnsafeRepeats(k: nat, o: Options, e: Error, s: Scope)
    requires 1 <= k && e.Object? && Retryable(e, o.retry) && !ShouldRollback(e, o) && s.active == []
    ensures var t := Tries(k, o, MarkedInside(o.dataSource, e), Obliging(), s);
            && |t| == k
            && forall i | 0 <= i < |t| :: t[i].verdict.DidCommit? && t[i].result.outcome == Fail(e)
    decreases k
  {
    hide StartNew;
    var body := MarkedInside(o.dataSource, e);
    OuterCommits(o, e, s);
    if k > 1 {
      var a := StartNew(o, body, Obliging(), s);
      UnsafeRepeats(k - 1, o, e, a.result.scope);
      assert Tries(k, o, body, Obliging(), s) == [a] + Tries(k - 1, o, body, Obliging(), a.result.scope);
    }
  }

  /** The options are safe for the errors that can occur if and only if no run that
      raises only such errors, whatever its body, environment and scope, repeats
      work that an earlier attempt has committed. */
  lemma {:induction false} RetrySafety(o: Options, occurs: Error -> bool)
    ensures RetrySafe(o, occurs) <==>
            forall body, env, s :: RaisesOnly(occurs, o, body, env, s) ==> CommitsOnlyLast(o, body, env, s)
  {
    if RetrySafe(o, occurs) {
      forall body, env, s | RaisesOnly(occurs, o, body, env, s) ensures CommitsOnlyLast(o, body, env, s) {
        SafeRunCommitsOnce(o, occurs, body, env, s);
      }
    } else {
      var e: Error :| e.Object? && occurs(e) && Retryable(e, o.retry) && !ShouldRollback(e, o);
      var body := MarkedInside(o.dataSource, e);
      UnsafeRepeats(Attempts(o.retry), o, e, Blank());
      var t := Tries(Attempts(o.retry), o, body, Obliging(), Blank());
      assert t[0].verdict.DidCommit?;
      assert RaisesOnly(occurs, o, body, Obliging(), Blank()) && !CommitsOnlyLast(o, body, Obliging(), Blank());
    }
  }

  /** A class hierarchy in which each `sub` is a `super`: whoever rolls back for `super`
      and retries `sub` repeats no committed attempt. */
  lemma {:induction false} SafeBySubclass(o: Options, occurs: Error -> bool, sub: ErrorClass, super: ErrorClass)
    requires forall e: Error | e.Object? && occurs(e) :: sub in e.classes ==> super in e.classes
    requires o.noRollbackFor == {} && super in o.rollbackFor
    requires forall e | Retryable(e, o.retry) :: MatchesAny(e, {sub})
    ensures forall body, env, s :: RaisesOnly(occurs, o, body, env, s) ==> CommitsOnlyLast(o, body, env, s)
  {
    hide RaisesOnly, CommitsOnlyLast;
    RetrySafety(o, occurs);
    assert RetrySafe(o, occurs);
  }

  lemma {:induction false} SafeRunCommitsOnce(o: Options, occurs: Error -> bool, body: Program, env: Environment,
                                              s: Scope)
    requires RetrySafe(o, occurs) && RaisesOnly(occurs, o, body, env, s)
    ensures CommitsOnlyLast(o, body, env, s)
  {
    var t := Tries(Attempts(o.retry), o, body, env, s);
    forall i | 0 <= i < |t| - 1 ensures !t[i].verdict.DidCommit? {
      if t[i].verdict.DidCommit? {
        OnlyForeignMarksRepeat(o, body, env, s, i);
      }
    }
  }

  /** Under safe options every attempt but the last leaves nothing behind: its
      transaction never began or ended in a rollback. */
  lemma {:induction false} EarlierTriesRollBack(o: Options, occurs: Error -> bool, body: Program, env: Environment,
                                                s: Scope, i: nat)
    requires RetrySafe(o, occurs) && RaisesOnly(occurs, o, body, env, s)
    requires i < |Tries(Attempts(o.retry), o, body, env, s)| - 1
    ensures var t := Tries(Attempts(o.retry), o, body, env, s);
            var before := ScopeBefore(t, i, s);
            || t[i].verdict.NotBegun?
            || exists life :: Lives(t[i], before.handles, o.dataSource, life) && life.ending.RollsBack?
  {
    var t := Tries(Attempts(o.retry), o, body, env, s);
    SafeRunCommitsOnce(o, occurs, body, env, s);
    TriesAreChained(Attempts(o.retry), o, body, env, s, i);
    var before := ScopeBefore(t, i, s);
    if env.signal(before.clock).Proceed? {
      var life := AttemptIsWhole(o, body, env, before);
    }
  }
}
