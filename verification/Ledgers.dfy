/** Where each row goes: the journal of all writes a program executes, against what is
    autocommitted, what is committed and what is left on the transactions around it. */
module Ledgers {
  import opened Wrappers
  import opened Programs
  import opened Effects
  import opened Orders
  import opened Reference
  import opened ReferenceLaws
  import opened EngineLaws
  import opened Places

  /** A statement that was executed: `into` is the handle of the transaction visible for
      its dataSource, `undone` says that a rollback to a savepoint took the row back. */
  datatype Stroke =
    | Said(note: int)
    | Wrote(dataSource: DataSource, row: Row, into: Option<nat>, undone: bool)

  // The journal of a program, with the handles of the transactions it sees.

  ghost function Journal(p: Program, env: Environment, s: Scope, held: map<DataSource, nat>): seq<Stroke>
    decreases Size(p), 1
  {
    match p
    case Emit(note) => [Said(note)]
    case Write(d, row) => [Wrote(d, row, if d in held then Some(held[d]) else None, false)]
    case Then(first, second) =>
      var r := Eval(first, env, s);
      Journal(first, env, s, held) + if r.outcome.Ok? then Journal(second, env, r.scope, held) else []
    case Catch(body, handler, _) =>
      var r := Eval(body, env, s);
      Journal(body, env, s, held) + if r.outcome.Fail? then Journal(handler, env, r.scope, held) else []
    case Choose(normally, otherwise) =>
      Journal(if env.signal(s.clock).Proceed? then normally else otherwise, env, s.(clock := s.clock + 1), held)
    case Run(o, body) => RunJournal(o, body, env, s, held)
    case _ => []
  }

  /** Of a run, by how it treats its body. */
  ghost function RunJournal(o: Options, body: Program, env: Environment, s: Scope, held: map<DataSource, nat>)
    : seq<Stroke>
    decreases Size(Run(o, body)), 0
  {
    var d := o.dataSource;
    match TreatmentOf(o, env, s)
    case Refuses => []
    case Suspends => Journal(body, env, Suspend(s, d), held - {d})
    case Joins =>
      var r, inside := Eval(body, env, s), Journal(body, env, s, held);
      if o.propagation.NESTED? && r.outcome.Fail? && ShouldRollback(r.outcome.error, o) then Undo(inside, d, held)
      else inside
    case Starts(from) =>
      if ValidRetry(o.retry) then AttemptsJournal(Attempts(o.retry), o, body, env, from, held - {d}) else []
  }

  /** The strokes on `d` into the transaction held for it are taken back. */
  function Undo(strokes: seq<Stroke>, d: DataSource, held: map<DataSource, nat>): seq<Stroke> {
    if strokes == [] then []
    else
      var e := strokes[0];
      [if e.Wrote? && e.dataSource == d && d in held && e.into == Some(held[d]) then e.(undone := true) else e]
      + Undo(strokes[1..], d, held)
  }

  ghost function AttemptsJournal(k: nat, o: Options, body: Program, env: Environment, s: Scope,
                                 held: map<DataSource, nat>): seq<Stroke>
    requires 1 <= k
    decreases Budget(k, Size(body)), 3
  {
    var r := StartNew(o, body, env, s).result;
    AttemptJournal(o, body, env, s, held)
    + if TriesAgain(k, o, r) then AttemptsJournal(k - 1, o, body, env, r.scope, held) else []
  }

  /** The callback, in sight of the new transaction; then its after-phase hooks, without it. */
  ghost function AttemptJournal(o: Options, body: Program, env: Environment, s: Scope, held: map<DataSource, nat>)
    : seq<Stroke>
    decreases Size(body), 3
  {
    if env.signal(s.clock).Fault? then []
    else
      var d, begun := o.dataSource, Begun(s, o.dataSource);
      var a := StartNew(o, body, env, s);
      EndHooksAreSmall(o, body, env, s);
      CallbackJournal(d, body, s.handles, env, begun, held[d := s.handles])
      + AfterJournal(EndHooks(a, d), PhaseOf(a.verdict), 0, s.handles, env, EndScope(o, a.inside, env), held)
  }

  ghost function CallbackJournal(d: DataSource, body: Program, handle: nat, env: Environment, s: Scope,
                                 held: map<DataSource, nat>): seq<Stroke>
    decreases Size(body), 2
  {
    var r := Eval(body, env, s);
    HookSizeSplit(r.effects, d);
    Journal(body, env, s, held)
    + if r.outcome.Ok? then LoopJournal(Hooks(r.effects, d, BeforeCommit), 0, handle, d, env, r.scope, held) else []
  }

  ghost function LoopJournal(queue: seq<Program>, index: nat, handle: nat, d: DataSource, env: Environment, s: Scope,
                             held: map<DataSource, nat>): seq<Stroke>
    decreases QueueSize(queue), 3
  {
    if queue == [] then []
    else
      var r := FireHook(queue[0], BeforeCommit, index, handle, env, s);
      QueueShrinks(queue, index, handle, d, env, s);
      Journal(queue[0], env, s, held)
      + if r.outcome.Ok?
        then LoopJournal(queue[1..] + Hooks(r.effects, d, BeforeCommit), index + 1, handle, d, env, r.scope, held)
        else []
  }

  ghost function AfterJournal(hooks: seq<Program>, phase: Phase, index: nat, handle: nat, env: Environment, s: Scope,
                              held: map<DataSource, nat>): seq<Stroke>
    decreases QueueSize(hooks), 3
  {
    if hooks == [] then []
    else
      Journal(hooks[0], env, s, held)
      + AfterJournal(hooks[1..], phase, index + 1, handle, env,
                     FireHook(hooks[0], phase, index, handle, env, s).scope, held)
  }

  lemma EndHooksAreSmall(o: Options, body: Program, env: Environment, s: Scope)
    requires env.signal(s.clock).Proceed?
    ensures QueueSize(EndHooks(StartNew(o, body, env, s), o.dataSource)) < Size(body)
  {
    hide Settle, EndedWith, HookSize, Without, Hooks, QueueSize, Inside, AsksForCommit;
    var inside := Inside(o.dataSource, body, env, s.(clock := s.clock + 1));
    var c := SettleEnds(o, body, inside, env, s.handles);
  }

  // What is seen of it.

  /** The notes and autocommitted rows of a log, in order. */
  function Plain(log: seq<Entry>): seq<Entry> {
    if log == [] then []
    else (if log[0].Noted? || log[0].Autocommitted? then [log[0]] else []) + Plain(log[1..])
  }

  function PlainOf(strokes: seq<Stroke>): seq<Entry> {
    if strokes == [] then []
    else
      (match strokes[0]
       case Said(note) => [Noted(note)]
       case Wrote(d, row, into, _) => if into.None? then [Autocommitted(d, row)] else [])
      + PlainOf(strokes[1..])
  }

  /** The rows of `d` that were written into transaction `h` and not taken back, in order. */
  function RowsInto(strokes: seq<Stroke>, d: DataSource, h: nat): seq<Row> {
    if strokes == [] then []
    else
      var e := strokes[0];
      (if e.Wrote? && e.dataSource == d && e.into == Some(h) && !e.undone then [e.row] else [])
      + RowsInto(strokes[1..], d, h)
  }

  lemma {:induction false} PlainConcat(a: seq<Entry>, b: seq<Entry>)
    ensures Plain(a + b) == Plain(a) + Plain(b)
  {
    if a == [] {
      assert a + b == b;
    } else {
      assert (a + b)[1..] == a[1..] + b;
      PlainConcat(a[1..], b);
    }
  }

  lemma {:induction false} PlainOfConcat(a: seq<Stroke>, b: seq<Stroke>)
    ensures PlainOf(a + b) == PlainOf(a) + PlainOf(b)
  {
    if a == [] {
      assert a + b == b;
    } else {
      assert (a + b)[1..] == a[1..] + b;
      PlainOfConcat(a[1..], b);
    }
  }

  lemma {:induction false} RowsIntoConcat(a: seq<Stroke>, b: seq<Stroke>, d: DataSource, h: nat)
    ensures RowsInto(a + b, d, h) == RowsInto(a, d, h) + RowsInto(b, d, h)
  {
    if a == [] {
      assert a + b == b;
    } else {
      assert (a + b)[1..] == a[1..] + b;
      RowsIntoConcat(a[1..], b, d, h);
    }
  }

  /** `held` are the handles of the visible transactions, begun before. */
  ghost predicate Holds(held: map<DataSource, nat>, s: Scope) {
    && Distinct(s.active) && (forall d :: d in held <==> d in s.active)
    && forall d | d in held :: held[d] < s.handles
  }

  /** The stroke went into the transaction held for its dataSource, into one with a
      handle from `from` below `to`, or into none. */
  predicate Aims(e: Stroke, held: map<DataSource, nat>, from: nat, to: nat) {
    e.Wrote? && e.into.Some? ==>
      (e.dataSource in held && e.into.value == held[e.dataSource]) || from <= e.into.value < to
  }

  /** A commit in the log is of a transaction begun since `from`, with all the rows that
      were written into it. */
  ghost predicate CommitsAll(e: Entry, strokes: seq<Stroke>, from: nat, to: nat) {
    e.Committed? ==> from <= e.handle < to && e.rows == RowsInto(strokes, e.dataSource, e.handle)
  }

  /** Each executed write is, once and in order: autocommitted, where no transaction was
      visible; in the rows of the commit of the transaction visible there; or among
      the rows left on that transaction, if it goes on. */
  ghost predicate Balances(s: Scope, r: Result, strokes: seq<Stroke>, held: map<DataSource, nat>) {
    && s.handles <= r.scope.handles
    && Plain(r.log) == PlainOf(strokes)
    && (forall d | d in held :: Rows(r.effects, d) == RowsInto(strokes, d, held[d]))
    && (forall i | 0 <= i < |r.log| :: CommitsAll(r.log[i], strokes, s.handles, r.scope.handles))
    && forall i | 0 <= i < |strokes| :: Aims(strokes[i], held, s.handles, r.scope.handles)
  }

  lemma BalancesQuietly(s: Scope, r: Result, held: map<DataSource, nat>)
    requires s.handles == r.scope.handles && r.log == [] && r.effects == []
    ensures Balances(s, r, [], held)
  {
  }

  /** Nothing was written into what is neither held nor begun in between. */
  lemma {:induction false} NothingInto(strokes: seq<Stroke>, held: map<DataSource, nat>, from: nat, to: nat,
                                       d: DataSource, h: nat)
    requires forall i | 0 <= i < |strokes| :: Aims(strokes[i], held, from, to)
    requires !(from <= h < to) && (d in held ==> h != held[d])
    ensures RowsInto(strokes, d, h) == []
  {
    if strokes != [] {
      assert Aims(strokes[0], held, from, to);
      forall i | 0 <= i < |strokes| - 1 ensures Aims(strokes[1..][i], held, from, to) {
        assert strokes[1..][i] == strokes[i + 1];
      }
      NothingInto(strokes[1..], held, from, to, d, h);
    }
  }

  lemma {:induction false} BalancesTwice(s: Scope, first: Result, second: Result, a: seq<Stroke>, b: seq<Stroke>,
                                         held: map<DataSource, nat>)
    requires Balances(s, first, a, held) && Balances(first.scope, second, b, held)
    requires forall d | d in held :: held[d] < s.handles
    ensures Balances(s, Sequence(first, second), a + b, held)
  {
    hide Plain, PlainOf, RowsInto, Rows;
    PlainConcat(first.log, second.log);
    PlainOfConcat(a, b);
    forall d | d in held ensures Rows(first.effects + second.effects, d) == RowsInto(a + b, d, held[d]) {
      RowsAppend(first.effects, second.effects, d);
      RowsIntoConcat(a, b, d, held[d]);
    }
    var log := first.log + second.log;
    forall i | 0 <= i < |log| ensures CommitsAll(log[i], a + b, s.handles, second.scope.handles) {
      var e := log[i];
      if e.Committed? {
        RowsIntoConcat(a, b, e.dataSource, e.handle);
        if i < |first.log| {
          assert CommitsAll(first.log[i], a, s.handles, first.scope.handles);
          NothingInto(b, held, first.scope.handles, second.scope.handles, e.dataSource, e.handle);
        } else {
          assert CommitsAll(second.log[i - |first.log|], b, first.scope.handles, second.scope.handles);
          NothingInto(a, held, s.handles, first.scope.handles, e.dataSource, e.handle);
        }
        assert RowsInto(a, e.dataSource, e.handle) + [] == RowsInto(a, e.dataSource, e.handle);
      }
    }
    forall i | 0 <= i < |a + b| ensures Aims((a + b)[i], held, s.handles, second.scope.handles) {
      if i < |a| {
        assert Aims(a[i], held, s.handles, first.scope.handles);
      } else {
        assert Aims(b[i - |a|], held, first.scope.handles, second.scope.handles);
      }
    }
  }

  /** Only the outcome or the marks differ, or the counters that no handle depends on. */
  lemma BalancesAlso(s: Scope, r: Result, s': Scope, r': Result, strokes: seq<Stroke>, held: map<DataSource, nat>)
    requires Balances(s, r, strokes, held) && r'.effects == r.effects && r'.log == r.log
    requires s'.handles == s.handles && r'.scope.handles == r.scope.handles
    ensures Balances(s', r', strokes, held)
  {
  }

  lemma BalancesLogged(s: Scope, entry: Entry, r: Result, strokes: seq<Stroke>, held: map<DataSource, nat>)
    requires Balances(s, r, strokes, held)
    requires !entry.Noted? && !entry.Autocommitted? && !entry.Committed?
    ensures Balances(s, Logged(entry, r), strokes, held)
  {
    hide PlainOf, RowsInto, Rows;
    var log := [entry] + r.log;
    assert log[1..] == r.log;
    forall i | 0 <= i < |log| ensures CommitsAll(log[i], strokes, s.handles, r.scope.handles) {
      if i > 0 {
        assert log[i] == r.log[i - 1];
      }
    }
  }

  lemma HoldsLater(held: map<DataSource, nat>, s: Scope, r: Result)
    requires Holds(held, s) && Tidy(s, r)
    ensures Holds(held, r.scope)
  {
  }

  // The law.

  lemma {:induction false} EveryWrite(p: Program, env: Environment, s: Scope, held: map<DataSource, nat>)
    requires Holds(held, s)
    ensures Balances(s, Eval(p, env, s), Journal(p, env, s, held), held)
    decreases Size(p), 1
  {
    hide Balances, EvalRun, Holds;
    HoldsParts(held, s);
    match p
    case Emit(note) => OneStroke(p, env, s, held);
    case Write(d, row) => OneStroke(p, env, s, held);
    case Then(first, second) =>
      var r := Eval(first, env, s);
      EveryWrite(first, env, s, held);
      TidyEval(first, env, s);
      assert Journal(first, env, s, held) + [] == Journal(first, env, s, held);
      if r.outcome.Ok? {
        HoldsLater(held, s, r);
        EveryWrite(second, env, r.scope, held);
        BalancesTwice(s, r, Eval(second, env, r.scope), Journal(first, env, s, held),
                      Journal(second, env, r.scope, held), held);
      }
    case Catch(body, handler, rethrow) =>
      var r := Eval(body, env, s);
      EveryWrite(body, env, s, held);
      TidyEval(body, env, s);
      assert Journal(body, env, s, held) + [] == Journal(body, env, s, held);
      if r.outcome.Fail? {
        var r' := Eval(handler, env, r.scope);
        HoldsLater(held, s, r);
        EveryWrite(handler, env, r.scope, held);
        BalancesTwice(s, r, r', Journal(body, env, s, held), Journal(handler, env, r.scope, held), held);
        BalancesAlso(s, Sequence(r, r'), s, Eval(p, env, s), Journal(p, env, s, held), held);
      }
    case Choose(normally, otherwise) =>
      var s', q := s.(clock := s.clock + 1), if env.signal(s.clock).Proceed? then normally else otherwise;
      HoldsTicked(held, s);
      EveryWrite(q, env, s', held);
      BalancesAlso(s', Eval(q, env, s'), s, Eval(q, env, s'), Journal(q, env, s', held), held);
    case Run(o, body) => EveryWriteOfRun(o, body, env, s, held);
    case _ => NoStroke(p, env, s, held);
  }

  lemma HoldsParts(held: map<DataSource, nat>, s: Scope)
    requires Holds(held, s)
    ensures Distinct(s.active) && (forall d :: d in held <==> d in s.active)
    ensures forall d | d in held :: held[d] < s.handles
  {
  }

  lemma HoldsTicked(held: map<DataSource, nat>, s: Scope)
    requires Holds(held, s)
    ensures Holds(held, s.(clock := s.clock + 1))
  {
  }

  lemma OneStroke(p: Program, env: Environment, s: Scope, held: map<DataSource, nat>)
    requires p.Emit? || p.Write?
    requires Holds(held, s)
    ensures Balances(s, Eval(p, env, s), Journal(p, env, s, held), held)
  {
    var r, strokes := Eval(p, env, s), Journal(p, env, s, held);
    assert strokes[1..] == [];
    assert |r.log| == 1 ==> r.log[1..] == [];
    assert |r.effects| == 1 ==> r.effects[1..] == [];
  }

  lemma NoStroke(p: Program, env: Environment, s: Scope, held: map<DataSource, nat>)
    requires p.Skip? || p.Throw? || p.ThrowFresh? || p.Attach? || p.Register?
    ensures Balances(s, Eval(p, env, s), Journal(p, env, s, held), held)
  {
    var r := Eval(p, env, s);
    assert |r.effects| == 1 ==> r.effects[1..] == [];
  }

  // Runs.

  lemma {:induction false} EveryWriteOfRun(o: Options, body: Program, env: Environment, s: Scope,
                                           held: map<DataSource, nat>)
    requires Holds(held, s)
    ensures Balances(s, EvalRun(o, body, env, s), RunJournal(o, body, env, s, held), held)
    decreases Size(Run(o, body)), 0
  {
    hide Balances, Holds, Eval, Journal, AttemptsJournal, StartWithRetry, Undo, Tidy;
    var d := o.dataSource;
    HoldsParts(held, s);
    RemoveOne(s.active, d);
    match TreatmentOf(o, env, s)
    case Refuses =>
      RefusedRun(o, body, env, s);
      BalancesQuietly(s, EvalRun(o, body, env, s), held);
    case Joins =>
      EveryWrite(body, env, s, held);
      TidyEval(body, env, s);
      var r, inside := Eval(body, env, s), Journal(body, env, s, held);
      if o.propagation.NESTED? && r.outcome.Fail? && ShouldRollback(r.outcome.error, o) {
        UndoneBalances(s, r, inside, d, held);
      }
    case Suspends =>
      HoldsApart(held, s, d);
      EveryWrite(body, env, Suspend(s, d), held - {d});
      TidyEval(body, env, Suspend(s, d));
      ResumedBalances(s, d, Eval(body, env, Suspend(s, d)), Journal(body, env, Suspend(s, d), held - {d}), held);
    case Starts(from) =>
      var r := StartWithRetry(o, body, env, from);
      StartsApart(o, body, env, s);
      HoldsApart(held, s, d);
      EveryWriteOfStart(o, body, env, from, held - {d});
      TidyStartWithRetry(o, body, env, from);
      var strokes := RunJournal(o, body, env, s, held);
      if d in s.active {
        ResumedBalances(s, d, r, strokes, held);
      } else {
        assert held - {d} == held;
      }
  }

  /** A new transaction starts where the visible one of its dataSource is suspended. */
  lemma StartsApart(o: Options, body: Program, env: Environment, s: Scope)
    requires TreatmentOf(o, env, s).Starts? && Distinct(s.active)
    ensures var d, from := o.dataSource, TreatmentOf(o, env, s).from;
            && from == Suspend(s, d)
            && EvalRun(o, body, env, s) == if d in s.active then Resume(StartWithRetry(o, body, env, from), d)
                                           else StartWithRetry(o, body, env, from)
  {
    hide Eval, StartWithRetry;
    RemoveOne(s.active, o.dataSource);
  }

  lemma RefusedRun(o: Options, body: Program, env: Environment, s: Scope)
    requires TreatmentOf(o, env, s).Refuses?
    ensures var r := EvalRun(o, body, env, s); r.scope.handles == s.handles && r.log == [] && r.effects == []
  {
    hide Eval, StartWithRetry;
  }

  lemma {:induction false} HoldsApart(held: map<DataSource, nat>, s: Scope, d: DataSource)
    requires Holds(held, s)
    ensures Holds(held - {d}, Suspend(s, d)) && d !in Suspend(s, d).active
  {
    RemoveOne(s.active, d);
  }

  /** What happened while the transaction on `d` was suspended wrote nothing into it. */
  lemma {:induction false} ResumedBalances(s: Scope, d: DataSource, r: Result, strokes: seq<Stroke>,
                                           held: map<DataSource, nat>)
    requires d in held && held[d] < s.handles && Balances(Suspend(s, d), r, strokes, held - {d})
    requires Tidy(Suspend(s, d), r) && Distinct(s.active)
    ensures Balances(s, Resume(r, d), strokes, held)
  {
    hide Plain, PlainOf, RowsInto, Rows;
    RemoveOne(s.active, d);
    NothingInto(strokes, held - {d}, s.handles, r.scope.handles, d, held[d]);
    NoEffects(r.effects, d, BeforeCommit);
    forall i | 0 <= i < |strokes| ensures Aims(strokes[i], held, s.handles, r.scope.handles) {
      assert Aims(strokes[i], held - {d}, s.handles, r.scope.handles);
    }
    forall i | 0 <= i < |r.log| ensures CommitsAll(r.log[i], strokes, s.handles, r.scope.handles) {
      assert CommitsAll(r.log[i], strokes, Suspend(s, d).handles, r.scope.handles);
    }
  }

  lemma {:induction false} UndoIsSeen(strokes: seq<Stroke>, d: DataSource, held: map<DataSource, nat>)
    requires d in held
    ensures var undone := Undo(strokes, d, held);
            && |undone| == |strokes| && PlainOf(undone) == PlainOf(strokes)
            && (forall i | 0 <= i < |strokes| && strokes[i].Wrote? ::
                  && undone[i].Wrote? && undone[i].dataSource == strokes[i].dataSource
                  && undone[i].into == strokes[i].into)
            && (forall i | 0 <= i < |strokes| && strokes[i].Said? :: undone[i] == strokes[i])
            && forall c, h :: RowsInto(undone, c, h) == if c == d && h == held[d] then [] else RowsInto(strokes, c, h)
  {
    if strokes != [] {
      UndoIsSeen(strokes[1..], d, held);
      var undone, rest := Undo(strokes, d, held), Undo(strokes[1..], d, held);
      assert undone[1..] == rest;
      forall i | 1 <= i < |strokes| ensures undone[i] == rest[i - 1] && strokes[i] == strokes[1..][i - 1] {
      }
    }
  }

  lemma {:induction false} UndoneBalances(s: Scope, r: Result, strokes: seq<Stroke>, d: DataSource,
                                          held: map<DataSource, nat>)
    requires Balances(s, r, strokes, held) && d in held && held[d] < s.handles
    ensures Balances(s, r.(effects := WithoutRows(r.effects, d)), Undo(strokes, d, held), held)
  {
    hide Plain, PlainOf, RowsInto, Rows, Undo, WithoutRows;
    var undone := Undo(strokes, d, held);
    UndoIsSeen(strokes, d, held);
    forall c | c in held ensures Rows(WithoutRows(r.effects, d), c) == RowsInto(undone, c, held[c]) {
      WithoutRowsKeepsOthers(r.effects, d, c, BeforeCommit);
    }
    forall i | 0 <= i < |r.log| ensures CommitsAll(r.log[i], undone, s.handles, r.scope.handles) {
      assert CommitsAll(r.log[i], strokes, s.handles, r.scope.handles);
    }
    forall i | 0 <= i < |undone| ensures Aims(undone[i], held, s.handles, r.scope.handles) {
      assert Aims(strokes[i], held, s.handles, r.scope.handles);
    }
  }

  lemma {:induction false} EveryWriteOfStart(o: Options, body: Program, env: Environment, s: Scope,
                                             held: map<DataSource, nat>)
    requires Holds(held, s) && o.dataSource !in s.active
    ensures Balances(s, StartWithRetry(o, body, env, s),
                     if ValidRetry(o.retry) then AttemptsJournal(Attempts(o.retry), o, body, env, s, held) else [],
                     held)
    decreases Budget(Attempts(o.retry), Size(body)), 4
  {
    hide Balances, Holds, AttemptUpTo, AttemptsJournal;
    if ValidRetry(o.retry) {
      EveryWriteOfAttempts(Attempts(o.retry), o, body, env, s, held);
    } else {
      BalancesQuietly(s, StartWithRetry(o, body, env, s), held);
    }
  }

  lemma {:induction false} EveryWriteOfAttempts(k: nat, o: Options, body: Program, env: Environment, s: Scope,
                                                held: map<DataSource, nat>)
    requires 1 <= k && Holds(held, s) && o.dataSource !in s.active
    ensures Balances(s, AttemptUpTo(k, o, body, env, s), AttemptsJournal(k, o, body, env, s, held), held)
    decreases Budget(k, Size(body)), 3
  {
    hide Balances, Holds, StartNew, AttemptJournal, TriesAgain, Wait;
    var r := StartNew(o, body, env, s).result;
    var first := AttemptJournal(o, body, env, s, held);
    EveryWriteOfAttempt(o, body, env, s, held);
    assert first + [] == first;
    if TriesAgain(k, o, r) {
      AgainIsFail(k, o, r);
      HoldsParts(held, s);
      TidyStartNew(o, body, env, s);
      HoldsLater(held, s, r);
      StillAbsent(s, r, o.dataSource);
      EveryWriteOfAttempts(k - 1, o, body, env, r.scope, held);
      var r', wait := AttemptUpTo(k - 1, o, body, env, r.scope), Wait(k, o, r.outcome.error);
      var rest := AttemptsJournal(k - 1, o, body, env, r.scope, held);
      BalancesLogged(r.scope, Waited(wait), r', rest, held);
      BalancesTwice(s, r, Delayed(wait, r'), first, rest, held);
    }
  }

  lemma StillAbsent(s: Scope, r: Result, d: DataSource)
    requires Tidy(s, r) && d !in s.active
    ensures d !in r.scope.active
  {
  }

  // One transaction.

  lemma {:induction false} EveryWriteOfAttempt(o: Options, body: Program, env: Environment, s: Scope,
                                               held: map<DataSource, nat>)
    requires Holds(held, s) && o.dataSource !in s.active
    ensures Balances(s, StartNew(o, body, env, s).result, AttemptJournal(o, body, env, s, held), held)
    decreases Size(body), 3
  {
    hide Balances, Holds, Settle, BodyAndHooks, CallbackJournal, AfterJournal, EndHooks, EndScope;
    match env.signal(s.clock)
    case Fault(_) => BalancesQuietly(s, StartNew(o, body, env, s).result, held);
    case Proceed =>
      var d, begun, h := o.dataSource, Begun(s, o.dataSource), s.handles;
      var inner := held[d := h];
      HoldsBegun(held, s, d);
      EveryWriteOfCallback(d, body, h, env, begun, inner);
      var r := BodyAndHooks(d, body, h, env, begun);
      BalancesLogged(begun, Began(h, d), r, CallbackJournal(d, body, h, env, begun, inner), inner);
      EveryWriteOfEnding(o, body, env, s, held, CallbackJournal(d, body, h, env, begun, inner));
  }

  lemma HoldsBegun(held: map<DataSource, nat>, s: Scope, d: DataSource)
    requires Holds(held, s) && d !in s.active
    ensures Holds(held[d := s.handles], Begun(s, d))
  {
    DistinctAppend(s.active, d);
  }

  lemma {:induction false} EveryWriteOfCallback(d: DataSource, body: Program, handle: nat, env: Environment, s: Scope,
                                                held: map<DataSource, nat>)
    requires Holds(held, s)
    ensures Balances(s, BodyAndHooks(d, body, handle, env, s), CallbackJournal(d, body, handle, env, s, held), held)
    decreases Size(body), 2
  {
    hide Balances, Holds, Eval, Journal, LoopJournal, BeforeCommitLoop;
    var r, first := Eval(body, env, s), Journal(body, env, s, held);
    HookSizeSplit(r.effects, d);
    EveryWrite(body, env, s, held);
    assert first + [] == first;
    if r.outcome.Ok? {
      var queue := Hooks(r.effects, d, BeforeCommit);
      HoldsParts(held, s);
      TidyEval(body, env, s);
      HoldsLater(held, s, r);
      EveryWriteOfLoop(queue, 0, handle, d, env, r.scope, held);
      BalancesTwice(s, r, BeforeCommitLoop(queue, 0, handle, d, env, r.scope), first,
                    LoopJournal(queue, 0, handle, d, env, r.scope, held), held);
    }
  }

  lemma {:induction false} EveryWriteOfLoop(queue: seq<Program>, index: nat, handle: nat, d: DataSource,
                                            env: Environment, s: Scope, held: map<DataSource, nat>)
    requires Holds(held, s)
    ensures Balances(s, BeforeCommitLoop(queue, index, handle, d, env, s),
                     LoopJournal(queue, index, handle, d, env, s, held), held)
    decreases QueueSize(queue), 3
  {
    hide Balances, Holds, Eval, Journal;
    if queue == [] {
      BalancesQuietly(s, Quiet(Ok, s), held);
    } else {
      var r, first := FireHook(queue[0], BeforeCommit, index, handle, env, s), Journal(queue[0], env, s, held);
      EveryWrite(queue[0], env, s, held);
      BalancesLogged(s, Fired(handle, BeforeCommit, index), Eval(queue[0], env, s), first, held);
      assert first + [] == first;
      QueueShrinks(queue, index, handle, d, env, s);
      if r.outcome.Ok? {
        var queue' := queue[1..] + Hooks(r.effects, d, BeforeCommit);
        HoldsParts(held, s);
        TidyEval(queue[0], env, s);
        HoldsLater(held, s, Eval(queue[0], env, s));
        EveryWriteOfLoop(queue', index + 1, handle, d, env, r.scope, held);
        BalancesTwice(s, r, BeforeCommitLoop(queue', index + 1, handle, d, env, r.scope), first,
                      LoopJournal(queue', index + 1, handle, d, env, r.scope, held), held);
      }
    }
  }

  lemma {:induction false} EveryWriteOfAfter(hooks: seq<Program>, phase: Phase, index: nat, handle: nat,
                                             env: Environment, s: Scope, held: map<DataSource, nat>)
    requires Holds(held, s)
    ensures Balances(s, AfterHooks(hooks, phase, index, handle, env, s),
                     AfterJournal(hooks, phase, index, handle, env, s, held), held)
    decreases QueueSize(hooks), 3
  {
    hide Balances, Holds, Eval, Journal;
    if hooks == [] {
      BalancesQuietly(s, Quiet(Ok, s), held);
    } else {
      var r, first := FireHook(hooks[0], phase, index, handle, env, s), Journal(hooks[0], env, s, held);
      EveryWrite(hooks[0], env, s, held);
      BalancesLogged(s, Fired(handle, phase, index), Eval(hooks[0], env, s), first, held);
      HoldsParts(held, s);
      TidyEval(hooks[0], env, s);
      HoldsLater(held, s, Eval(hooks[0], env, s));
      EveryWriteOfAfter(hooks[1..], phase, index + 1, handle, env, r.scope, held);
      BalancesTwice(s, r, AfterHooks(hooks[1..], phase, index + 1, handle, env, r.scope), first,
                    AfterJournal(hooks[1..], phase, index + 1, handle, env, r.scope, held), held);
    }
  }

  /** How a transaction that was begun ends in the log. */
  function EndEntry(a: Attempt, h: nat, d: DataSource): Entry {
    if a.verdict.DidCommit? then Committed(h, d, Rows(a.inside.effects, d)) else RolledBack(h, d)
  }

  lemma {:induction false} SettleLogs(o: Options, body: Program, inside: Result, env: Environment, h: nat)
    requires OtherHookSize(inside.effects, o.dataSource) < Size(body)
    ensures var a := Settle(o, body, inside, env, h);
            && a.inside == inside && a.result.log == inside.log + [EndEntry(a, h, o.dataSource)] + a.hooks.log
            && a.result.scope.handles == a.hooks.scope.handles
  {
    hide AfterHooks, Without, Hooks, OtherHookSize, Rows, ShouldRollback;
    var d, closed := o.dataSource, Suspend(inside.scope, o.dataSource);
    if inside.outcome.Fail? && ShouldRollback(inside.outcome.error, o) {
      assert Settle(o, body, inside, env, h) == RollBack(d, body, inside, inside.outcome.error, closed, env, h);
    } else {
      assert Settle(o, body, inside, env, h) == AskCommit(d, body, inside, closed, env, h);
      var asked := closed.(clock := closed.clock + 1);
      match env.signal(closed.clock)
      case Proceed =>
        assert AskCommit(d, body, inside, closed, env, h) == Commit(d, body, inside, asked, env, h);
      case Fault(classes) =>
        var failed := Raise(classes, asked);
        assert AskCommit(d, body, inside, closed, env, h)
            == RollBack(d, body, inside, failed.outcome.error, failed.scope, env, h);
    }
  }

  /** The transaction on `d` has ended: what was written into it is in its COMMIT. */
  lemma {:induction false} ClosedBalances(s: Scope, d: DataSource, inside: Result, strokes: seq<Stroke>,
                                          held: map<DataSource, nat>, entry: Entry, scope: Scope)
    requires Balances(Begun(s, d), inside, strokes, held[d := s.handles]) && d !in held
    requires entry == Committed(s.handles, d, Rows(inside.effects, d)) || entry == RolledBack(s.handles, d)
    requires scope.handles == inside.scope.handles
    ensures Balances(s, Result(Ok, scope, Without(inside.effects, d), inside.log + [entry]), strokes, held)
  {
    hide Plain, PlainOf, RowsInto, Rows, Without;
    var inner, log := held[d := s.handles], inside.log + [entry];
    PlainConcat(inside.log, [entry]);
    OnePlain(entry);
    forall b | b in held ensures Rows(Without(inside.effects, d), b) == RowsInto(strokes, b, held[b]) {
      assert inner[b] == held[b];
      WithoutKeepsOthers(inside.effects, d, b, BeforeCommit);
    }
    forall i | 0 <= i < |log| ensures CommitsAll(log[i], strokes, s.handles, scope.handles) {
      if i < |inside.log| {
        assert CommitsAll(inside.log[i], strokes, s.handles + 1, scope.handles);
      } else {
        assert inner[d] == s.handles;
      }
    }
    forall i | 0 <= i < |strokes| ensures Aims(strokes[i], held, s.handles, scope.handles) {
      assert Aims(strokes[i], inner, s.handles + 1, scope.handles);
    }
  }

  lemma OnePlain(entry: Entry)
    requires entry.Committed? || entry.RolledBack?
    ensures Plain([entry]) == []
  {
    assert [entry][1..] == [];
  }

  lemma {:induction false} EveryWriteOfEnding(o: Options, body: Program, env: Environment, s: Scope,
                                              held: map<DataSource, nat>, strokes: seq<Stroke>)
    requires Holds(held, s) && o.dataSource !in s.active && env.signal(s.clock).Proceed?
    requires var d := o.dataSource;
             Balances(Begun(s, d), Inside(d, body, env, s.(clock := s.clock + 1)), strokes, held[d := s.handles])
    ensures var a := StartNew(o, body, env, s);
            var rest := AfterJournal(EndHooks(a, o.dataSource), PhaseOf(a.verdict), 0, s.handles, env,
                                     EndScope(o, a.inside, env), held);
            Balances(s, a.result, strokes + rest, held)
    decreases Size(body), 2
  {
    hide Balances, Holds, Settle, AfterHooks, AfterJournal, Inside, Without, Rows, OtherHookSize;
    var d, h, begun := o.dataSource, s.handles, s.(clock := s.clock + 1);
    var inside := Inside(d, body, env, begun);
    var a := StartNew(o, body, env, s);
    var scope, hooks, phase := EndScope(o, inside, env), EndHooks(a, d), PhaseOf(a.verdict);
    SettleEffects(o, body, inside, env, h);
    SettleLogs(o, body, inside, env, h);
    EndHooksAreSmall(o, body, env, s);
    HoldsParts(held, s);
    TidyInside(d, body, env, begun);
    HoldsAtEnd(held, s, d, inside, scope);
    ClosedBalances(s, d, inside, strokes, held, EndEntry(a, h, d), scope);
    EveryWriteOfAfter(hooks, phase, 0, h, env, scope, held);
    var closed := Result(Ok, scope, Without(inside.effects, d), inside.log + [EndEntry(a, h, d)]);
    BalancesTwice(s, closed, a.hooks, strokes, AfterJournal(hooks, phase, 0, h, env, scope, held), held);
    BalancesAlso(s, Sequence(closed, a.hooks), s, a.result,
                 strokes + AfterJournal(hooks, phase, 0, h, env, scope, held), held);
  }

  lemma {:induction false} HoldsAtEnd(held: map<DataSource, nat>, s: Scope, d: DataSource, inside: Result, scope: Scope)
    requires Holds(held, s) && d !in s.active
    requires Tidy(s.(clock := s.clock + 1, active := s.active + [d]), inside)
    requires scope.active == Remove(inside.scope.active, d) && scope.handles == inside.scope.handles
    ensures Holds(held, scope) && d !in held
  {
    RemoveOne(inside.scope.active, d);
  }

  // Consequences.

  /** Of a whole program: its notes and the rows it writes with no transaction visible are
      in the log, in the order of their execution, and every COMMIT has exactly the
      rows that were written into its transaction and not taken back. */
  lemma {:induction false} EveryWriteOfProgram(p: Program, env: Environment)
    ensures var s := Scope([], 0, 0, 0, {});
            var r, strokes := Eval(p, env, s), Journal(p, env, s, map[]);
            && Plain(r.log) == PlainOf(strokes)
            && forall i | 0 <= i < |r.log| && r.log[i].Committed? ::
                 r.log[i].rows == RowsInto(strokes, r.log[i].dataSource, r.log[i].handle)
  {
    hide Eval, Journal, Plain, PlainOf, RowsInto;
    var s := Scope([], 0, 0, 0, {});
    EveryWrite(p, env, s, map[]);
    forall i | 0 <= i < |Eval(p, env, s).log| && Eval(p, env, s).log[i].Committed?
      ensures var e := Eval(p, env, s).log[i]; e.rows == RowsInto(Journal(p, env, s, map[]), e.dataSource, e.handle)
    {
      assert CommitsAll(Eval(p, env, s).log[i], Journal(p, env, s, map[]), 0, Eval(p, env, s).scope.handles);
    }
  }

  /** In NOT_SUPPORTED each write on the suspended dataSource is autocommitted, in order,
      or in a transaction that the body begins. */
  lemma {:induction false} NotSupportedAutocommits(o: Options, body: Program, env: Environment, s: Scope,
                                                   held: map<DataSource, nat>)
    requires Holds(held, s) && o.propagation.NOT_SUPPORTED? && env.misses(o.dataSource).None?
    ensures var d := o.dataSource;
            var r, strokes := EvalRun(o, body, env, s), Journal(body, env, Suspend(s, d), held - {d});
            && Plain(r.log) == PlainOf(strokes)
            && forall i | 0 <= i < |strokes| && strokes[i].Wrote? && strokes[i].dataSource == d ::
                 strokes[i].into.None? || s.handles <= strokes[i].into.value
  {
    hide Eval, Journal, Plain, PlainOf, RowsInto;
    var d := o.dataSource;
    HoldsParts(held, s);
    RemoveOne(s.active, d);
    HoldsApart(held, s, d);
    EveryWrite(body, env, Suspend(s, d), held - {d});
    var r, strokes := Eval(body, env, Suspend(s, d)), Journal(body, env, Suspend(s, d), held - {d});
    forall i | 0 <= i < |strokes| && strokes[i].Wrote? && strokes[i].dataSource == d
      ensures strokes[i].into.None? || s.handles <= strokes[i].into.value
    {
      assert Aims(strokes[i], held - {d}, s.handles, r.scope.handles);
    }
  }
}
