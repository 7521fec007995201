/** What the log tells about each transaction: it begins, runs its before-commit
    hooks, ends exactly once, and runs the after-phase hooks of that ending. */
module Stories {
  import opened Programs
  import opened Effects
  import opened Reference

  predicate Concerns(e: Entry, h: nat) {
    match e
    case Noted(_) => false
    case Waited(_) => false
    case Autocommitted(_, _) => false
    case Began(g, _) => g == h
    case Fired(g, _, _) => g == h
    case Committed(g, _, _) => g == h
    case RolledBack(g, _) => g == h
  }

  /** The entries of `log` about transaction `h`, in order. */
  function Story(log: seq<Entry>, h: nat): seq<Entry> {
    if log == [] then []
    else (if Concerns(log[0], h) then [log[0]] else []) + Story(log[1..], h)
  }

  /** The firings `index`, `index + 1`, ... of `n` hooks of one phase. */
  function Firings(h: nat, phase: Phase, index: nat, n: nat): seq<Entry>
    decreases n
  {
    if n == 0 then [] else [Fired(h, phase, index)] + Firings(h, phase, index + 1, n - 1)
  }

  datatype Ending = Commits(rows: seq<Row>) | RollsBack

  /** A whole life: `before` before-commit hooks, one ending, `after` hooks of its phase. */
  datatype Life = Life(dataSource: DataSource, before: nat, ending: Ending, after: nat)

  function Closing(h: nat, life: Life): Entry {
    if life.ending.Commits? then Committed(h, life.dataSource, life.ending.rows) else RolledBack(h, life.dataSource)
  }

  function Opening(h: nat, d: DataSource, before: nat): seq<Entry> {
    [Began(h, d)] + Firings(h, BeforeCommit, 0, before)
  }

  function ClosingPhase(life: Life): Phase {
    if life.ending.Commits? then AfterCommit else AfterRollback
  }

  function Told(h: nat, life: Life): seq<Entry> {
    Opening(h, life.dataSource, life.before) + [Closing(h, life)] + Firings(h, ClosingPhase(life), 0, life.after)
  }

  ghost predicate IsWhole(story: seq<Entry>, h: nat) {
    exists life :: story == Told(h, life)
  }

  /** Exactly the transactions numbered from `from` up to `to` live in `log`, each
      of them wholly. */
  ghost predicate Orderly(log: seq<Entry>, from: nat, to: nat) {
    && from <= to
    && forall h: nat :: if from <= h < to then IsWhole(Story(log, h), h) else Story(log, h) == []
  }

  /** The same, but for the older transaction `own`, of which `told` is told. */
  ghost predicate Beside(log: seq<Entry>, from: nat, to: nat, own: nat, told: seq<Entry>) {
    && own < from <= to
    && Story(log, own) == told
    && forall h: nat | h != own :: if from <= h < to then IsWhole(Story(log, h), h) else Story(log, h) == []
  }

  lemma {:induction false} StoryAppend(a: seq<Entry>, b: seq<Entry>, h: nat)
    ensures Story(a + b, h) == Story(a, h) + Story(b, h)
  {
    hide Concerns;
    if a == [] {
      assert a + b == b;
    } else {
      assert (a + b)[1..] == a[1..] + b;
      StoryAppend(a[1..], b, h);
    }
  }

  lemma StoryOfOne(e: Entry, h: nat)
    ensures Story([e], h) == if Concerns(e, h) then [e] else []
  {
    assert [e][1..] == [];
  }

  lemma {:induction false} OrderlyAppend(a: seq<Entry>, b: seq<Entry>, from: nat, mid: nat, to: nat)
    requires Orderly(a, from, mid) && Orderly(b, mid, to)
    ensures from <= mid <= to && Orderly(a + b, from, to)
  {
    forall h: nat ensures if from <= h < to then IsWhole(Story(a + b, h), h) else Story(a + b, h) == [] {
      StoryAppend(a, b, h);
      assert Story(a, h) + [] == Story(a, h) && [] + Story(b, h) == Story(b, h);
    }
  }

  lemma {:induction false} BesideAppend(a: seq<Entry>, b: seq<Entry>, from: nat, mid: nat, to: nat, own: nat,
                                        told: seq<Entry>, told': seq<Entry>)
    requires Beside(a, from, mid, own, told) && Beside(b, mid, to, own, told')
    ensures Beside(a + b, from, to, own, told + told')
  {
    StoryAppend(a, b, own);
    forall h: nat | h != own ensures if from <= h < to then IsWhole(Story(a + b, h), h) else Story(a + b, h) == [] {
      StoryAppend(a, b, h);
      assert Story(a, h) + [] == Story(a, h) && [] + Story(b, h) == Story(b, h);
    }
  }

  lemma OrderlyIsBeside(log: seq<Entry>, from: nat, to: nat, own: nat)
    requires Orderly(log, from, to) && own < from
    ensures Beside(log, from, to, own, [])
  {
  }

  lemma BesideOne(e: Entry, from: nat, own: nat)
    requires own < from && Concerns(e, own)
    ensures Beside([e], from, from, own, [e])
  {
    forall h: nat ensures Story([e], h) == if h == own then [e] else [] {
      StoryOfOne(e, h);
    }
  }

  /** An entry about `own`, then what happens beside it. */
  lemma {:induction false} BesideLogged(e: Entry, log: seq<Entry>, from: nat, to: nat, own: nat, told: seq<Entry>)
    requires Concerns(e, own) && Beside(log, from, to, own, told)
    ensures Beside([e] + log, from, to, own, [e] + told)
  {
    BesideOne(e, from, own);
    BesideAppend([e], log, from, from, to, own, [e], told);
  }

  lemma OrderlyNothing(log: seq<Entry>, from: nat)
    requires log == [] || (|log| == 1 && (log[0].Noted? || log[0].Waited? || log[0].Autocommitted?))
    ensures Orderly(log, from, from)
  {
    if log != [] {
      assert log == [log[0]];
      forall h: nat ensures Story(log, h) == [] {
        StoryOfOne(log[0], h);
      }
    }
  }

  /** A life completes the transaction `h`, the first of those begun. */
  lemma {:induction false} OrderlyWhole(a: Attempt, h: nat, d: DataSource, life: Life)
    requires Lives(a, h, d, life)
    ensures Orderly(a.result.log, h, a.result.scope.handles)
  {
  }

  // Every evaluation.

  lemma {:induction false} OrderlyEval(p: Program, env: Environment, s: Scope)
    ensures Orderly(Eval(p, env, s).log, s.handles, Eval(p, env, s).scope.handles)
    ensures s.handles <= Eval(p, env, s).scope.handles
    decreases Size(p), 1
  {
    hide Orderly, Beside;
    OrderlyNothing([], s.handles);
    match p
    case Emit(note) =>
      OrderlyNothing([Noted(note)], s.handles);
    case Write(d, row) =>
      OrderlyNothing([Autocommitted(d, row)], s.handles);
    case Then(first, second) =>
      OrderlyEval(first, env, s);
      var r := Eval(first, env, s);
      if r.outcome.Ok? {
        OrderlyEval(second, env, r.scope);
        var r' := Eval(second, env, r.scope);
        OrderlyAppend(r.log, r'.log, s.handles, r.scope.handles, r'.scope.handles);
      }
    case Catch(body, handler, rethrow) =>
      OrderlyEval(body, env, s);
      var r := Eval(body, env, s);
      if r.outcome.Fail? {
        OrderlyEval(handler, env, r.scope);
        var r' := Eval(handler, env, r.scope);
        OrderlyAppend(r.log, r'.log, s.handles, r.scope.handles, r'.scope.handles);
      }
    case Choose(normally, otherwise) =>
      OrderlyEval(normally, env, s.(clock := s.clock + 1));
      OrderlyEval(otherwise, env, s.(clock := s.clock + 1));
    case Run(o, body) =>
      OrderlyRun(o, body, env, s);
    case _ =>
  }

  lemma {:induction false} OrderlyRun(o: Options, body: Program, env: Environment, s: Scope)
    ensures Orderly(EvalRun(o, body, env, s).log, s.handles, EvalRun(o, body, env, s).scope.handles)
    ensures s.handles <= EvalRun(o, body, env, s).scope.handles
    decreases Size(Run(o, body)), 0
  {
    hide Orderly, Beside, Eval, StartWithRetry;
    OrderlyNothing([], s.handles);
    if o.dataSource !in s.active {
      OrderlyEval(body, env, s);
      OrderlyStart(o, body, env, s);
    } else if o.propagation.REQUIRES_NEW? {
      OrderlyStart(o, body, env, Suspend(s, o.dataSource));
    } else if o.propagation.NOT_SUPPORTED? {
      OrderlyEval(body, env, Suspend(s, o.dataSource));
    } else {
      OrderlyEval(body, env, s);
    }
  }

  lemma {:induction false} OrderlyStart(o: Options, body: Program, env: Environment, s: Scope)
    ensures Orderly(StartWithRetry(o, body, env, s).log, s.handles, StartWithRetry(o, body, env, s).scope.handles)
    ensures s.handles <= StartWithRetry(o, body, env, s).scope.handles
    decreases Budget(Attempts(o.retry), Size(body)), 4
  {
    if ValidRetry(o.retry) {
      OrderlyAttempts(Attempts(o.retry), o, body, env, s);
    } else {
      OrderlyNothing([], s.handles);
    }
  }

  lemma {:induction false} OrderlyAttempts(k: nat, o: Options, body: Program, env: Environment, s: Scope)
    requires 1 <= k
    ensures Orderly(AttemptUpTo(k, o, body, env, s).log, s.handles, AttemptUpTo(k, o, body, env, s).scope.handles)
    decreases Budget(k, Size(body)), 3
  {
    hide Orderly, Beside;
    OrderlyStartNew(o, body, env, s);
    if k > 1 {
      var r := StartNew(o, body, env, s).result;
      OrderlyAttempts(k - 1, o, body, env, r.scope);
      var r' := AttemptUpTo(k - 1, o, body, env, r.scope);
      OrderlyAppend(r.log, r'.log, s.handles, r.scope.handles, r'.scope.handles);
      if r.outcome.Fail? && Wait(k, o, r.outcome.error) > 0 {
        var waited := [Waited(Wait(k, o, r.outcome.error))];
        OrderlyNothing(waited, r.scope.handles);
        OrderlyAppend(waited, r'.log, r.scope.handles, r.scope.handles, r'.scope.handles);
        OrderlyAppend(r.log, waited + r'.log, s.handles, r.scope.handles, r'.scope.handles);
      }
    }
  }

  lemma {:induction false} OrderlyStartNew(o: Options, body: Program, env: Environment, s: Scope)
    ensures Orderly(StartNew(o, body, env, s).result.log, s.handles, StartNew(o, body, env, s).result.scope.handles)
    decreases Size(body), 3
  {
    hide Orderly, Beside;
    if env.signal(s.clock).Proceed? {
      var life := AttemptIsWhole(o, body, env, s);
      OrderlyWhole(StartNew(o, body, env, s), s.handles, o.dataSource, life);
    } else {
      OrderlyNothing([], s.handles);
    }
  }

  /** The attempt `a` is the transaction `h` on `d`, and `life` is its life: it
      commits the rows of its buffer or rolls back, and every hook pushed on it
      for that ending fires. */
  ghost predicate Lives(a: Attempt, h: nat, d: DataSource, life: Life) {
    && Beside(a.result.log, h + 1, a.result.scope.handles, h, Told(h, life))
    && life.dataSource == d
    && life.ending == (if a.verdict.DidCommit? then Commits(Rows(a.inside.effects, d)) else RollsBack)
    && life.after == |Hooks(a.inside.effects, d, ClosingPhase(life))|
  }

  /** The before-commit hooks a callback fires: all that were pushed, when it
      completes normally; never one, when its body throws. */
  ghost predicate FiresBefore(d: DataSource, body: Program, env: Environment, s: Scope, before: nat) {
    var inside := Inside(d, body, env, s);
    && before <= |Hooks(inside.effects, d, BeforeCommit)|
    && (inside.outcome.Ok? ==> before == |Hooks(inside.effects, d, BeforeCommit)|)
    && (Eval(body, env, s.(active := s.active + [d], handles := s.handles + 1)).outcome.Fail? ==> before == 0)
  }

  lemma {:induction false} AttemptIsWhole(o: Options, body: Program, env: Environment, s: Scope) returns (life: Life)
    requires env.signal(s.clock).Proceed?
    ensures Lives(StartNew(o, body, env, s), s.handles, o.dataSource, life)
    ensures FiresBefore(o.dataSource, body, env, s.(clock := s.clock + 1), life.before)
    decreases Size(body), 2, 2
  {
    hide Beside, Lives, FiresBefore, Settle;
    var d, begun := o.dataSource, s.(clock := s.clock + 1);
    var before := BesideInside(d, body, env, begun);
    life := SettleIsWhole(o, body, Inside(d, body, env, begun), env, s.handles, before);
  }

  lemma {:induction false} SettleIsWhole(o: Options, body: Program, inside: Result, env: Environment, h: nat,
                                         before: nat)
    returns (life: Life)
    requires OtherHookSize(inside.effects, o.dataSource) < Size(body)
    requires Beside(inside.log, h + 1, inside.scope.handles, h, Opening(h, o.dataSource, before))
    ensures Lives(Settle(o, body, inside, env, h), h, o.dataSource, life) && life.before == before
    decreases Size(body), 0
  {
    hide Beside, Lives;
    var d := o.dataSource;
    var closed := Suspend(inside.scope, d);
    if inside.outcome.Fail? && ShouldRollback(inside.outcome.error, o) {
      life := BesideRollBack(d, body, inside, inside.outcome.error, closed, env, h, before);
    } else {
      var asked := closed.(clock := closed.clock + 1);
      match env.signal(closed.clock) {
        case Fault(classes) =>
          var failed := Raise(classes, asked);
          life := BesideRollBack(d, body, inside, failed.outcome.error, failed.scope, env, h, before);
        case Proceed =>
          life := BesideCommit(d, body, inside, asked, env, h, before);
      }
    }
  }

  lemma {:induction false} BesideRollBack(d: DataSource, body: Program, inside: Result, error: Error, s: Scope,
                                          env: Environment, h: nat, before: nat) returns (life: Life)
    requires OtherHookSize(inside.effects, d) < Size(body) && inside.scope.handles == s.handles
    requires Beside(inside.log, h + 1, s.handles, h, Opening(h, d, before))
    ensures Lives(RollBack(d, body, inside, error, s, env, h), h, d, life) && life.before == before
    decreases QueueSize(Hooks(inside.effects, d, AfterRollback)), 4
  {
    hide Beside;
    var queue := Hooks(inside.effects, d, AfterRollback);
    OwnBeside(inside.log, h, s.handles, Opening(h, d, before));
    BesideAfterHooks(queue, AfterRollback, 0, h, env, s);
    life := Life(d, before, RollsBack, |queue|);
    BesideEnding(inside.log, AfterHooks(queue, AfterRollback, 0, h, env, s), s.handles, h, life);
  }

  lemma {:induction false} BesideCommit(d: DataSource, body: Program, inside: Result, s: Scope, env: Environment,
                                        h: nat, before: nat) returns (life: Life)
    requires OtherHookSize(inside.effects, d) < Size(body) && inside.scope.handles == s.handles
    requires Beside(inside.log, h + 1, s.handles, h, Opening(h, d, before))
    ensures Lives(Commit(d, body, inside, s, env, h), h, d, life) && life.before == before
    decreases QueueSize(Hooks(inside.effects, d, AfterCommit)), 4
  {
    hide Beside;
    var queue := Hooks(inside.effects, d, AfterCommit);
    OwnBeside(inside.log, h, s.handles, Opening(h, d, before));
    BesideAfterHooks(queue, AfterCommit, 0, h, env, s);
    life := Life(d, before, Commits(Rows(inside.effects, d)), |queue|);
    BesideEnding(inside.log, AfterHooks(queue, AfterCommit, 0, h, env, s), s.handles, h, life);
  }

  lemma OwnBeside(log: seq<Entry>, h: nat, to: nat, told: seq<Entry>)
    requires Beside(log, h + 1, to, h, told)
    ensures h < to
  {
  }

  lemma {:induction false} BesideEnding(log: seq<Entry>, hooks: Result, mid: nat, handle: nat, life: Life)
    requires Beside(log, handle + 1, mid, handle, Opening(handle, life.dataSource, life.before))
    requires Beside(hooks.log, mid, hooks.scope.handles, handle, Firings(handle, ClosingPhase(life), 0, life.after))
    ensures Beside(log + [Closing(handle, life)] + hooks.log, handle + 1, hooks.scope.handles,
                   handle, Told(handle, life))
  {
    var e := Closing(handle, life);
    BesideOne(e, mid, handle);
    var told := Opening(handle, life.dataSource, life.before);
    BesideAppend(log, [e], handle + 1, mid, mid, handle, told, [e]);
    BesideAppend(log + [e], hooks.log, handle + 1, mid, hooks.scope.handles, handle, told + [e],
                 Firings(handle, ClosingPhase(life), 0, life.after));
  }

  lemma {:induction false} BesideInside(d: DataSource, body: Program, env: Environment, s: Scope) returns (before: nat)
    ensures var r := Inside(d, body, env, s);
            Beside(r.log, s.handles + 1, r.scope.handles, s.handles, Opening(s.handles, d, before))
    ensures FiresBefore(d, body, env, s, before)
    decreases Size(body), 2, 1
  {
    hide Beside;
    var s' := s.(active := s.active + [d], handles := s.handles + 1);
    before := BesideBodyAndHooks(d, body, s.handles, env, s');
    var whole := BodyAndHooks(d, body, s.handles, env, s');
    BesideLogged(Began(s.handles, d), whole.log, s.handles + 1, whole.scope.handles, s.handles,
                 Firings(s.handles, BeforeCommit, 0, before));
  }

  lemma {:induction false} BesideBodyAndHooks(d: DataSource, body: Program, handle: nat, env: Environment, s: Scope)
    returns (before: nat)
    requires handle < s.handles
    ensures var r := BodyAndHooks(d, body, handle, env, s);
            && Beside(r.log, s.handles, r.scope.handles, handle, Firings(handle, BeforeCommit, 0, before))
            && before <= |Hooks(r.effects, d, BeforeCommit)|
            && (r.outcome.Ok? ==> before == |Hooks(r.effects, d, BeforeCommit)|)
            && (Eval(body, env, s).outcome.Fail? ==> before == 0)
    decreases Size(body), 2, 0
  {
    hide Beside, Orderly;
    OrderlyEval(body, env, s);
    var r := Eval(body, env, s);
    OrderlyIsBeside(r.log, s.handles, r.scope.handles, handle);
    HookSizeSplit(r.effects, d);
    before := 0;
    if r.outcome.Ok? {
      var queue := Hooks(r.effects, d, BeforeCommit);
      before := BesideLoop(queue, 0, handle, d, env, r.scope);
      var r' := BeforeCommitLoop(queue, 0, handle, d, env, r.scope);
      HooksAppend(r.effects, r'.effects, d, BeforeCommit);
      var told := Firings(handle, BeforeCommit, 0, before);
      BesideAppend(r.log, r'.log, s.handles, r.scope.handles, r'.scope.handles, handle, [], told);
      assert [] + told == told;
    }
  }

  /** The live loop fires every hook ever pushed, once, in push order; a throwing
      hook is the last to fire. */
  lemma {:induction false} BesideLoop(queue: seq<Program>, index: nat, handle: nat, d: DataSource, env: Environment,
                                      s: Scope) returns (n: nat)
    requires handle < s.handles
    ensures var r := BeforeCommitLoop(queue, index, handle, d, env, s);
            && Beside(r.log, s.handles, r.scope.handles, handle, Firings(handle, BeforeCommit, index, n))
            && n <= |queue| + |Hooks(r.effects, d, BeforeCommit)|
            && (r.outcome.Ok? ==> n == |queue| + |Hooks(r.effects, d, BeforeCommit)|)
    decreases QueueSize(queue), 3
  {
    hide Beside, Orderly;
    if queue == [] {
      n := 0;
      OrderlyNothing([], s.handles);
      OrderlyIsBeside([], s.handles, s.handles, handle);
    } else {
      BesideFire(queue[0], BeforeCommit, index, handle, env, s);
      var r := FireHook(queue[0], BeforeCommit, index, handle, env, s);
      HookSizeSplit(r.effects, d);
      if r.outcome.Fail? {
        n := 1;
        assert Firings(handle, BeforeCommit, index + 1, 0) == [];
        assert Firings(handle, BeforeCommit, index, 1) == [Fired(handle, BeforeCommit, index)];
      } else {
        var queue' := queue[1..] + Hooks(r.effects, d, BeforeCommit);
        QueueSizeAppend(queue[1..], Hooks(r.effects, d, BeforeCommit));
        var n' := BesideLoop(queue', index + 1, handle, d, env, r.scope);
        n := n' + 1;
        var r' := BeforeCommitLoop(queue', index + 1, handle, d, env, r.scope);
        HooksAppend(r.effects, r'.effects, d, BeforeCommit);
        BesideAppend(r.log, r'.log, s.handles, r.scope.handles, r'.scope.handles, handle,
                     [Fired(handle, BeforeCommit, index)], Firings(handle, BeforeCommit, index + 1, n'));
      }
    }
  }

  lemma {:induction false} BesideFire(hook: Program, phase: Phase, index: nat, handle: nat, env: Environment, s: Scope)
    requires handle < s.handles
    ensures var r := FireHook(hook, phase, index, handle, env, s);
            && s.handles <= r.scope.handles
            && Beside(r.log, s.handles, r.scope.handles, handle, [Fired(handle, phase, index)])
    decreases Size(hook), 2
  {
    hide Beside, Orderly;
    OrderlyEval(hook, env, s);
    var r := Eval(hook, env, s);
    OrderlyIsBeside(r.log, s.handles, r.scope.handles, handle);
    BesideLogged(Fired(handle, phase, index), r.log, s.handles, r.scope.handles, handle, []);
    assert [Fired(handle, phase, index)] + [] == [Fired(handle, phase, index)];
  }

  /** Every after-phase hook fires once, in push order, whatever the earlier ones threw. */
  lemma {:induction false} BesideAfterHooks(hooks: seq<Program>, phase: Phase, index: nat, handle: nat,
                                            env: Environment, s: Scope)
    requires handle < s.handles
    ensures var r := AfterHooks(hooks, phase, index, handle, env, s);
            Beside(r.log, s.handles, r.scope.handles, handle, Firings(handle, phase, index, |hooks|))
    decreases QueueSize(hooks), 3
  {
    hide Beside, Orderly;
    if hooks == [] {
      OrderlyNothing([], s.handles);
      OrderlyIsBeside([], s.handles, s.handles, handle);
    } else {
      BesideFire(hooks[0], phase, index, handle, env, s);
      var r := FireHook(hooks[0], phase, index, handle, env, s);
      BesideAfterHooks(hooks[1..], phase, index + 1, handle, env, r.scope);
      var r' := AfterHooks(hooks[1..], phase, index + 1, handle, env, r.scope);
      BesideAppend(r.log, r'.log, s.handles, r.scope.handles, r'.scope.handles, handle,
                   [Fired(handle, phase, index)], Firings(handle, phase, index + 1, |hooks| - 1));
    }
  }

  // One ending each.

  predicate Ends(e: Entry, h: nat) {
    Concerns(e, h) && (e.Committed? || e.RolledBack?)
  }

  function Endings(log: seq<Entry>, h: nat): nat {
    if log == [] then 0 else (if Ends(log[0], h) then 1 else 0) + Endings(log[1..], h)
  }

  lemma {:induction false} EndingsAppend(a: seq<Entry>, b: seq<Entry>, h: nat)
    ensures Endings(a + b, h) == Endings(a, h) + Endings(b, h)
  {
    hide Ends;
    if a == [] {
      assert a + b == b;
    } else {
      assert (a + b)[1..] == a[1..] + b;
      EndingsAppend(a[1..], b, h);
    }
  }

  lemma {:induction false} EndingsOfStory(log: seq<Entry>, h: nat)
    ensures Endings(Story(log, h), h) == Endings(log, h)
  {
    if log != [] {
      EndingsOfStory(log[1..], h);
      var head := if Concerns(log[0], h) then [log[0]] else [];
      EndingsAppend(head, Story(log[1..], h), h);
    }
  }

  lemma {:induction false} EndingsOfFirings(h: nat, phase: Phase, index: nat, n: nat)
    ensures Endings(Firings(h, phase, index, n), h) == 0
    decreases n
  {
    if n > 0 {
      EndingsOfFirings(h, phase, index + 1, n - 1);
    }
  }

  lemma EndingsOfLife(h: nat, life: Life)
    ensures Endings(Told(h, life), h) == 1
  {
    var opening, closing := Opening(h, life.dataSource, life.before), [Closing(h, life)];
    EndingsOfFirings(h, BeforeCommit, 0, life.before);
    EndingsOfFirings(h, ClosingPhase(life), 0, life.after);
    EndingsAppend([Began(h, life.dataSource)], Firings(h, BeforeCommit, 0, life.before), h);
    EndingsAppend(opening, closing, h);
    EndingsAppend(opening + closing, Firings(h, ClosingPhase(life), 0, life.after), h);
  }

  /** Every transaction a program starts ends exactly once, in a commit or in a
      rollback, also when COMMIT itself fails; no other transaction ends. */
  lemma {:induction false} EachEndsOnce(p: Program, env: Environment, s: Scope, h: nat)
    ensures var r := Eval(p, env, s);
            Endings(r.log, h) == if s.handles <= h < r.scope.handles then 1 else 0
  {
    OrderlyEval(p, env, s);
    var r := Eval(p, env, s);
    EndingsOfStory(r.log, h);
    if s.handles <= h < r.scope.handles {
      var life :| Story(r.log, h) == Told(h, life);
      EndingsOfLife(h, life);
    }
  }
}
