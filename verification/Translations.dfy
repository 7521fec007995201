/** The outbox in terms of the engine: while no `outbox.add` fails, a program does to its
    transactions what the engine does with its translation, a `publish` being a write
    that insists on a transaction. */
module Translations {
  import opened Wrappers
  import opened Programs
  import opened Orders
  import opened Outboxes
  import OutboxBooks
  import OutboxLaws
  import E = Effects
  import R = Reference
  import ReferenceLaws

  /** What `publish` does for the engine: the insert of a row in the transaction of the
      outbox's dataSource, of which there must be one. */
  function Insert(home: DataSource, row: Row): Program {
    Run(Options(home, MANDATORY, {}, {}, NoRetry), Write(home, row))
  }

  function Meaning(home: DataSource, rowOf: Event -> Row, script: Script): Program {
    if script.Done? then Skip
    else Then(ActMeaning(home, rowOf, script.act), Meaning(home, rowOf, script.rest))
  }

  /** The engine knows nothing of scheduled events. */
  function ActMeaning(home: DataSource, rowOf: Event -> Row, act: Act): Program {
    match act
    case Schedule(_) => Skip
    case Publish(e) => Insert(home, rowOf(e))
    case Hook(d, phase, hook) => Attach(d, phase, Meaning(home, rowOf, hook))
    case Within(o, body) => Run(o, Meaning(home, rowOf, body))
    case Try(body, handler) => Catch(Meaning(home, rowOf, body), Meaning(home, rowOf, handler), false)
    case Raise(error) => Throw(error)
    case RaiseFresh(classes) => ThrowFresh(classes)
  }

  // What the engine sees of a transaction.

  function DirectRows(rowOf: Event -> Row, rows: seq<Message>): seq<Row> {
    if rows == [] then []
    else (if rows[0].origin.Direct? then [rowOf(rows[0].event)] else []) + DirectRows(rowOf, rows[1..])
  }

  function Before(home: DataSource, rowOf: Event -> Row, queue: seq<BeforeHook>): seq<Program> {
    if queue == [] then []
    else (if queue[0].Other? then [Meaning(home, rowOf, queue[0].script)] else []) + Before(home, rowOf, queue[1..])
  }

  function After(home: DataSource, rowOf: Event -> Row, hooks: seq<AfterHook>): seq<Program> {
    if hooks == [] then []
    else (if hooks[0].After? then [Meaning(home, rowOf, hooks[0].script)] else []) + After(home, rowOf, hooks[1..])
  }

  lemma {:induction false} DirectRowsConcat(rowOf: Event -> Row, a: seq<Message>, b: seq<Message>)
    ensures DirectRows(rowOf, a + b) == DirectRows(rowOf, a) + DirectRows(rowOf, b)
  {
    if a == [] {
      assert a + b == b;
    } else {
      assert (a + b)[1..] == a[1..] + b;
      DirectRowsConcat(rowOf, a[1..], b);
    }
  }

  lemma {:induction false} BeforeConcat(home: DataSource, rowOf: Event -> Row, a: seq<BeforeHook>, b: seq<BeforeHook>)
    ensures Before(home, rowOf, a + b) == Before(home, rowOf, a) + Before(home, rowOf, b)
  {
    if a == [] {
      assert a + b == b;
    } else {
      assert (a + b)[1..] == a[1..] + b;
      BeforeConcat(home, rowOf, a[1..], b);
    }
  }

  lemma {:induction false} AfterConcat(home: DataSource, rowOf: Event -> Row, a: seq<AfterHook>, b: seq<AfterHook>)
    ensures After(home, rowOf, a + b) == After(home, rowOf, a) + After(home, rowOf, b)
  {
    if a == [] {
      assert a + b == b;
    } else {
      assert (a + b)[1..] == a[1..] + b;
      AfterConcat(home, rowOf, a[1..], b);
    }
  }

  /** Rows and hooks of one transaction, or those some effects add to it. */
  datatype Image = Image(rows: seq<Row>, before: seq<Program>, committed: seq<Program>, rolledBack: seq<Program>)

  function ImageOf(home: DataSource, rowOf: Event -> Row, t: Tx): Image {
    Image(DirectRows(rowOf, t.rows), Before(home, rowOf, t.beforeCommit),
          After(home, rowOf, t.afterCommit), After(home, rowOf, t.afterRollback))
  }

  function Added(effects: seq<E.Effect>, d: DataSource): Image {
    Image(E.Rows(effects, d), E.Hooks(effects, d, BeforeCommit), E.Hooks(effects, d, AfterCommit),
          E.Hooks(effects, d, AfterRollback))
  }

  function Plus(a: Image, b: Image): Image {
    Image(a.rows + b.rows, a.before + b.before, a.committed + b.committed, a.rolledBack + b.rolledBack)
  }

  /** How a transaction ended, and with which rows. */
  datatype Ending = Ending(dataSource: DataSource, committed: bool, rows: seq<Row>)

  function EndingOf(rowOf: Event -> Row, f: Finished): Ending {
    Ending(f.options.dataSource, f.committed, if f.committed then DirectRows(rowOf, f.tx.rows) else [])
  }

  function EndingsOf(rowOf: Event -> Row, finished: seq<Finished>): seq<Ending> {
    if finished == [] then []
    else EndingsOf(rowOf, finished[..|finished| - 1]) + [EndingOf(rowOf, finished[|finished| - 1])]
  }

  function Endings(log: seq<R.Entry>): seq<Ending> {
    if log == [] then []
    else
      (match log[0]
       case Committed(_, d, rows) => [Ending(d, true, rows)]
       case RolledBack(_, d) => [Ending(d, false, [])]
       case _ => []) + Endings(log[1..])
  }

  lemma {:induction false} EndingsConcat(a: seq<R.Entry>, b: seq<R.Entry>)
    ensures Endings(a + b) == Endings(a) + Endings(b)
  {
    if a == [] {
      assert a + b == b;
    } else {
      assert (a + b)[1..] == a[1..] + b;
      EndingsConcat(a[1..], b);
    }
  }

  // State against scope.

  /** The counters agree, the same dataSources have a transaction, and events are
      buffered only for the outbox's. */
  ghost predicate Alike(w: Outside, s: State, c: R.Scope) {
    && c.clock == s.bus.clock && c.errors == s.bus.errors && c.handles == s.bus.begun && c.marked == s.bus.marked
    && Distinct(c.active) && (forall d :: d in c.active <==> d in s.txs)
    && forall d | d in s.txs && d != w.home :: s.txs[d].pending.None?
  }

  /** From `s` to `s'` every transaction gained what the effects of `q` say, the outbox's
      own messages and hooks aside, and the same transactions ended. */
  ghost predicate Agree(w: Outside, rowOf: Event -> Row, s: State, s': State, q: R.Result) {
    && Alike(w, s', q.scope) && s'.txs.Keys == s.txs.Keys
    && (forall d | d in s.txs :: Gained(w, rowOf, s.txs[d], s'.txs[d], Added(q.effects, d)))
    && (forall e | e in q.effects :: e.dataSource in s.txs)
    && EndingsOf(rowOf, s'.bus.finished) == EndingsOf(rowOf, s.bus.finished) + Endings(q.log)
  }

  ghost predicate Gained(w: Outside, rowOf: Event -> Row, t: Tx, t': Tx, gain: Image) {
    t.rows <= t'.rows && ImageOf(w.home, rowOf, t') == Plus(ImageOf(w.home, rowOf, t), gain)
  }

  ghost predicate NeverRefuses(w: Outside) {
    (forall k :: w.refuses(k).None?) && w.env.misses(w.home).None?
  }

  lemma AddedConcat(a: seq<E.Effect>, b: seq<E.Effect>, d: DataSource)
    ensures Added(a + b, d) == Plus(Added(a, d), Added(b, d))
  {
    E.RowsAppend(a, b, d);
    forall phase ensures E.Hooks(a + b, d, phase) == E.Hooks(a, d, phase) + E.Hooks(b, d, phase) {
      E.HooksAppend(a, b, d, phase);
    }
  }

  lemma PlusNone(a: Image)
    ensures Plus(a, Image([], [], [], [])) == a
  {
  }

  lemma PlusPlus(a: Image, b: Image, c: Image)
    ensures Plus(Plus(a, b), c) == Plus(a, Plus(b, c))
  {
  }

  lemma GainedTwice(w: Outside, rowOf: Event -> Row, t: Tx, t': Tx, t'': Tx, a: seq<E.Effect>, b: seq<E.Effect>,
                    d: DataSource)
    requires Gained(w, rowOf, t, t', Added(a, d)) && Gained(w, rowOf, t', t'', Added(b, d))
    ensures Gained(w, rowOf, t, t'', Added(a + b, d))
  {
    hide ImageOf, Plus;
    AddedConcat(a, b, d);
    PlusPlus(ImageOf(w.home, rowOf, t), Added(a, d), Added(b, d));
  }

  lemma Associates<T>(a: seq<T>, b: seq<T>, c: seq<T>)
    ensures (a + b) + c == a + (b + c)
  {
  }

  lemma {:induction false} AgreeTwice(w: Outside, rowOf: Event -> Row, s: State, s': State, s'': State,
                                      q: R.Result, q': R.Result)
    requires Agree(w, rowOf, s, s', q) && Agree(w, rowOf, s', s'', q')
    ensures Agree(w, rowOf, s, s'', R.Sequence(q, q'))
  {
    hide Alike, Gained, Added, EndingsOf, Endings;
    forall d | d in s.txs ensures Gained(w, rowOf, s.txs[d], s''.txs[d], Added(q.effects + q'.effects, d)) {
      GainedTwice(w, rowOf, s.txs[d], s'.txs[d], s''.txs[d], q.effects, q'.effects, d);
    }
    EndingsConcat(q.log, q'.log);
    Associates(EndingsOf(rowOf, s.bus.finished), Endings(q.log), Endings(q'.log));
  }

  lemma GainedNothing(w: Outside, rowOf: Event -> Row, t: Tx, t': Tx, d: DataSource)
    requires t.rows <= t'.rows && ImageOf(w.home, rowOf, t') == ImageOf(w.home, rowOf, t)
    ensures Gained(w, rowOf, t, t', Added([], d))
  {
    hide ImageOf;
  }

  /** The engine sees nothing happen. */
  lemma AgreeIdle(w: Outside, rowOf: Event -> Row, s: State, s': State, c: R.Scope, outcome: Outcome)
    requires Alike(w, s', c) && s'.txs.Keys == s.txs.Keys && s'.bus.finished == s.bus.finished
    requires forall d | d in s.txs ::
               s.txs[d].rows <= s'.txs[d].rows && ImageOf(w.home, rowOf, s'.txs[d]) == ImageOf(w.home, rowOf, s.txs[d])
    ensures Agree(w, rowOf, s, s', R.Quiet(outcome, c))
  {
    hide Alike, ImageOf, Gained, Added;
    forall d | d in s.txs ensures Gained(w, rowOf, s.txs[d], s'.txs[d], Added([], d)) {
      GainedNothing(w, rowOf, s.txs[d], s'.txs[d], d);
    }
  }

  /** The log may note other things before. */
  lemma AgreeLogged(w: Outside, rowOf: Event -> Row, s: State, s': State, entry: R.Entry, q: R.Result)
    requires Agree(w, rowOf, s, s', q) && !entry.Committed? && !entry.RolledBack?
    ensures Agree(w, rowOf, s, s', R.Logged(entry, q))
  {
    hide Alike, Gained, Added;
    assert ([entry] + q.log)[1..] == q.log;
  }

  // The steps.

  lemma RaisedAgrees(w: Outside, rowOf: Event -> Row, s: State, c: R.Scope, classes: set<ErrorClass>)
    requires Alike(w, s, c)
    ensures Agree(w, rowOf, s, Raised(s, classes).state, R.Raise(classes, c))
    ensures Raised(s, classes).outcome == R.Raise(classes, c).outcome
  {
    hide ImageOf;
    AgreeIdle(w, rowOf, s, Raised(s, classes).state, R.Raise(classes, c).scope, R.Raise(classes, c).outcome);
  }

  lemma {:induction false} BufferIsUnseen(w: Outside, rowOf: Event -> Row, t: Tx, e: Event)
    ensures ImageOf(w.home, rowOf, BufferIn(t, e)) == ImageOf(w.home, rowOf, t)
  {
    BeforeConcat(w.home, rowOf, t.beforeCommit, [Flush]);
    assert [Flush][1..] == [];
    assert Before(w.home, rowOf, [Flush]) == [];
  }

  lemma {:induction false} ScheduleAgrees(w: Outside, rowOf: Event -> Row, s: State, c: R.Scope, e: Event)
    requires Alike(w, s, c)
    ensures Agree(w, rowOf, s, ScheduleIn(w, s, e), R.Quiet(Ok, c))
  {
    hide ImageOf;
    if w.home in s.txs {
      BufferIsUnseen(w, rowOf, s.txs[w.home], e);
    }
    AgreeIdle(w, rowOf, s, ScheduleIn(w, s, e), c, Ok);
  }

  lemma AddedOne(e: E.Effect, d: DataSource)
    ensures Added([e], d) == Image(E.RowsOf(e, d), E.HookOf(e, d, BeforeCommit), E.HookOf(e, d, AfterCommit),
                                   E.HookOf(e, d, AfterRollback))
  {
    assert [e][1..] == [];
    assert E.Rows([e], d) == E.RowsOf(e, d) + [];
    forall phase ensures E.Hooks([e], d, phase) == E.HookOf(e, d, phase) {
      assert E.Hooks([e], d, phase) == E.HookOf(e, d, phase) + [];
    }
  }

  /** A message added is one row, or none when it is flushed; the notification is not seen. */
  lemma {:induction false} AddIsRow(w: Outside, rowOf: Event -> Row, t: Tx, e: Event, origin: Origin, d: DataSource)
    ensures Gained(w, rowOf, t, AddIn(t, e, origin),
                   Added(if origin.Direct? then [E.Buffered(d, rowOf(e))] else [], d))
  {
    var m := Message(e, origin);
    DirectRowsConcat(rowOf, t.rows, [m]);
    assert [m][1..] == [];
    AfterConcat(w.home, rowOf, t.afterCommit, [Notify]);
    assert [Notify][1..] == [];
    assert After(w.home, rowOf, [Notify]) == [];
    assert DirectRows(rowOf, [m]) == if origin.Direct? then [rowOf(e)] else [];
    AddedOne(E.Buffered(d, rowOf(e)), d);
    AddsNothing([], d);
    PlusNone(ImageOf(w.home, rowOf, t));
  }

  /** One transaction gained something; the counters are as in `c`. */
  lemma {:induction false} AgreeOne(w: Outside, rowOf: Event -> Row, s: State, s': State, c: R.Scope, d: DataSource,
                                    effects: seq<E.Effect>)
    requires Alike(w, s', c) && d in s.txs && d in s'.txs && s'.txs == s.txs[d := s'.txs[d]]
    requires s'.bus.finished == s.bus.finished
    requires Gained(w, rowOf, s.txs[d], s'.txs[d], Added(effects, d)) && forall e | e in effects :: e.dataSource == d
    ensures Agree(w, rowOf, s, s', R.Result(Ok, c, effects, []))
  {
    hide Alike, Gained, ImageOf;
    forall b | b in s.txs ensures Gained(w, rowOf, s.txs[b], s'.txs[b], Added(effects, b)) {
      if b != d {
        GainedElsewhere(w, rowOf, s.txs[b], effects, b);
      }
    }
  }

  lemma GainedElsewhere(w: Outside, rowOf: Event -> Row, t: Tx, effects: seq<E.Effect>, d: DataSource)
    requires forall e | e in effects :: e.dataSource != d
    ensures Gained(w, rowOf, t, t, Added(effects, d))
  {
    AddsNothing(effects, d);
    assert Added([], d) == Added(effects, d);
    GainedNothing(w, rowOf, t, t, d);
  }

  lemma AddsNothing(effects: seq<E.Effect>, d: DataSource)
    requires forall e | e in effects :: e.dataSource != d
    ensures Added(effects, d) == Image([], [], [], [])
  {
    forall phase ensures E.Rows(effects, d) == [] && E.Hooks(effects, d, phase) == [] {
      ReferenceLaws.NoEffects(effects, d, phase);
    }
  }

  lemma {:induction false} AddAgrees(w: Outside, rowOf: Event -> Row, s: State, c: R.Scope, e: Event, origin: Origin)
    requires NeverRefuses(w) && Alike(w, s, c) && w.home in s.txs
    ensures PublishIn(w, s, e, origin).outcome == Ok
    ensures Agree(w, rowOf, s, PublishIn(w, s, e, origin).state,
                  R.Result(Ok, c, if origin.Direct? then [E.Buffered(w.home, rowOf(e))] else [], []))
  {
    hide ImageOf, Added, Gained;
    assert w.refuses(s.bus.calls).None?;
    AddIsRow(w, rowOf, s.txs[w.home], e, origin, w.home);
    AgreeOne(w, rowOf, s, PublishIn(w, s, e, origin).state, c, w.home,
             if origin.Direct? then [E.Buffered(w.home, rowOf(e))] else []);
  }

  lemma InsertIs(home: DataSource, row: Row, env: Environment, c: R.Scope)
    requires env.misses(home).None?
    ensures R.Eval(Insert(home, row), env, c)
            == if home in c.active then R.Result(Ok, c, [E.Buffered(home, row)], []) else R.Raise({ILLEGAL_STATE}, c)
  {
    var o := Options(home, MANDATORY, {}, {}, NoRetry);
    assert R.Eval(Insert(home, row), env, c) == R.EvalRun(o, Write(home, row), env, c);
    if home in c.active {
      assert R.EvalRun(o, Write(home, row), env, c) == R.Eval(Write(home, row), env, c);
    }
  }

  lemma {:induction false} PublishAgrees(w: Outside, rowOf: Event -> Row, s: State, c: R.Scope, e: Event)
    requires NeverRefuses(w) && Alike(w, s, c)
    ensures var r, q := PublishIn(w, s, e, Direct), R.Eval(Insert(w.home, rowOf(e)), w.env, c);
            r.outcome == q.outcome && Agree(w, rowOf, s, r.state, q)
  {
    hide Agree, R.Eval;
    InsertIs(w.home, rowOf(e), w.env, c);
    if w.home in s.txs {
      AddAgrees(w, rowOf, s, c, e, Direct);
    } else {
      RaisedAgrees(w, rowOf, s, c, {ILLEGAL_STATE});
    }
  }

  lemma {:induction false} PushIsHook(w: Outside, rowOf: Event -> Row, t: Tx, d: DataSource, phase: Phase, hook: Script)
    ensures Gained(w, rowOf, t, Pushed(t, phase, hook), Added([E.Hooked(d, phase, Meaning(w.home, rowOf, hook))], d))
  {
    BeforeConcat(w.home, rowOf, t.beforeCommit, [Other(hook)]);
    AfterConcat(w.home, rowOf, t.afterCommit, [AfterHook.After(hook)]);
    AfterConcat(w.home, rowOf, t.afterRollback, [AfterHook.After(hook)]);
    assert [Other(hook)][1..] == [] && [AfterHook.After(hook)][1..] == [];
    assert Before(w.home, rowOf, [Other(hook)]) == [Meaning(w.home, rowOf, hook)];
    assert After(w.home, rowOf, [AfterHook.After(hook)]) == [Meaning(w.home, rowOf, hook)];
    AddedOne(E.Hooked(d, phase, Meaning(w.home, rowOf, hook)), d);
    PlusNone(ImageOf(w.home, rowOf, t));
  }

  lemma {:induction false} HookAgrees(w: Outside, rowOf: Event -> Row, s: State, c: R.Scope, d: DataSource,
                                      phase: Phase, hook: Script)
    requires Alike(w, s, c)
    ensures var q := R.Eval(Attach(d, phase, Meaning(w.home, rowOf, hook)), w.env, c);
            q.outcome == Ok && Agree(w, rowOf, s, HookIn(s, d, phase, hook), q)
  {
    hide ImageOf, Added, Gained;
    if d in s.txs {
      PushIsHook(w, rowOf, s.txs[d], d, phase, hook);
      AgreeOne(w, rowOf, s, HookIn(s, d, phase, hook), c, d, [E.Hooked(d, phase, Meaning(w.home, rowOf, hook))]);
    } else {
      AgreeIdle(w, rowOf, s, s, c, Ok);
    }
  }

  /** Whatever a body or a hook does, the engine does with its translation. */
  lemma {:induction false} PerformAgrees(w: Outside, rowOf: Event -> Row, s: State, c: R.Scope, script: Script)
    requires NeverRefuses(w) && Alike(w, s, c)
    ensures var r, q := Perform(w, s, script), R.Eval(Meaning(w.home, rowOf, script), w.env, c);
            r.outcome == q.outcome && Agree(w, rowOf, s, r.state, q)
    decreases ScriptSize(script), 1
  {
    hide Agree, NeverRefuses, ActIn, ActMeaning, Alike, Grew;
    if script.Done? {
      SkipAgrees(w, rowOf, s, c);
    } else {
      var act := ActMeaning(w.home, rowOf, script.act);
      var r, q := ActIn(w, s, script.act), R.Eval(act, w.env, c);
      ActAgrees(w, rowOf, s, c, script.act);
      ThenIs(act, Meaning(w.home, rowOf, script.rest), w.env, c);
      if r.outcome.Ok? {
        AgreeIsAlike(w, rowOf, s, r.state, q);
        PerformAgrees(w, rowOf, r.state, q.scope, script.rest);
        AgreeTwice(w, rowOf, s, r.state, Perform(w, r.state, script.rest).state, q,
                   R.Eval(Meaning(w.home, rowOf, script.rest), w.env, q.scope));
      }
    }
  }

  lemma SkipAgrees(w: Outside, rowOf: Event -> Row, s: State, c: R.Scope)
    requires Alike(w, s, c)
    ensures Agree(w, rowOf, s, s, R.Quiet(Ok, c))
  {
    hide ImageOf;
    AgreeIdle(w, rowOf, s, s, c, Ok);
  }

  lemma AgreeIsAlike(w: Outside, rowOf: Event -> Row, s: State, s': State, q: R.Result)
    requires Agree(w, rowOf, s, s', q)
    ensures Alike(w, s', q.scope) && s'.txs.Keys == s.txs.Keys
  {
  }

  lemma ThenIs(first: Program, second: Program, env: Environment, c: R.Scope)
    ensures var q := R.Eval(first, env, c);
            R.Eval(Then(first, second), env, c)
            == if q.outcome.Fail? then q else R.Sequence(q, R.Eval(second, env, q.scope))
  {
  }

  lemma CatchIs(body: Program, handler: Program, env: Environment, c: R.Scope)
    ensures var q := R.Eval(body, env, c);
            R.Eval(Catch(body, handler, false), env, c)
            == if q.outcome.Ok? then q else R.Sequence(q, R.Eval(handler, env, q.scope))
  {
  }

  lemma {:induction false} ActAgrees(w: Outside, rowOf: Event -> Row, s: State, c: R.Scope, act: Act)
    requires NeverRefuses(w) && Alike(w, s, c)
    ensures var r, q := ActIn(w, s, act), R.Eval(ActMeaning(w.home, rowOf, act), w.env, c);
            r.outcome == q.outcome && Agree(w, rowOf, s, r.state, q)
    decreases ActSize(act), 0
  {
    hide Agree, NeverRefuses, Perform, WithinIn, PublishIn, Meaning, Alike, Grew, R.EvalRun, Insert;
    match act
    case Schedule(e) => ScheduleAgrees(w, rowOf, s, c, e);
    case Publish(e) => PublishAgrees(w, rowOf, s, c, e);
    case Hook(d, phase, hook) => HookAgrees(w, rowOf, s, c, d, phase, hook);
    case Within(o, body) => WithinAgrees(w, rowOf, s, c, o, body);
    case Try(body, handler) =>
      var r, q := Perform(w, s, body), R.Eval(Meaning(w.home, rowOf, body), w.env, c);
      PerformAgrees(w, rowOf, s, c, body);
      CatchIs(Meaning(w.home, rowOf, body), Meaning(w.home, rowOf, handler), w.env, c);
      if r.outcome.Fail? {
        AgreeIsAlike(w, rowOf, s, r.state, q);
        PerformAgrees(w, rowOf, r.state, q.scope, handler);
        AgreeTwice(w, rowOf, s, r.state, Perform(w, r.state, handler).state, q,
                   R.Eval(Meaning(w.home, rowOf, handler), w.env, q.scope));
      }
    case Raise(error) => FailAgrees(w, rowOf, s, c, error);
    case RaiseFresh(classes) => RaisedAgrees(w, rowOf, s, c, classes);
  }

  lemma FailAgrees(w: Outside, rowOf: Event -> Row, s: State, c: R.Scope, error: Error)
    requires Alike(w, s, c)
    ensures Agree(w, rowOf, s, s, R.Quiet(Fail(error), c))
  {
    hide ImageOf;
    AgreeIdle(w, rowOf, s, s, c, Fail(error));
  }

  lemma VisibleIsActive(w: Outside, s: State, c: R.Scope, d: DataSource)
    requires Alike(w, s, c)
    ensures d in c.active <==> d in s.txs
  {
  }

  lemma {:induction false} WithinAgrees(w: Outside, rowOf: Event -> Row, s: State, c: R.Scope, o: Options, body: Script)
    requires NeverRefuses(w) && Alike(w, s, c)
    ensures var r, q := WithinIn(w, s, o, body), R.EvalRun(o, Meaning(w.home, rowOf, body), w.env, c);
            r.outcome == q.outcome && Agree(w, rowOf, s, r.state, q)
    decreases Budget(Attempts(o.retry), ScriptSize(body)), 6
  {
    hide Agree, NeverRefuses, Perform, StartIn, CutBack, Apart, Resumed, Meaning, Alike, Grew;
    hide R.StartWithRetry, R.Eval, R.Resume, R.Suspend;
    var d := o.dataSource;
    VisibleIsActive(w, s, c, d);
    RaisedAgrees(w, rowOf, s, c, {ILLEGAL_STATE});
    if w.env.misses(d).Some? {
      RaisedAgrees(w, rowOf, s, c, {w.env.misses(d).value});
    } else if d in s.txs && o.propagation.REQUIRES_NEW? {
      ApartIsAlike(w, s, c, d);
      StartAgrees(w, rowOf, Apart(s, d), R.Suspend(c, d), o, body);
      ResumedAgrees(w, rowOf, s, c, d, StartIn(w, Apart(s, d), o, body).state,
                    R.StartWithRetry(o, Meaning(w.home, rowOf, body), w.env, R.Suspend(c, d)));
    } else if d in s.txs && o.propagation.NOT_SUPPORTED? {
      ApartIsAlike(w, s, c, d);
      PerformAgrees(w, rowOf, Apart(s, d), R.Suspend(c, d), body);
      ResumedAgrees(w, rowOf, s, c, d, Perform(w, Apart(s, d), body).state,
                    R.Eval(Meaning(w.home, rowOf, body), w.env, R.Suspend(c, d)));
    } else if d in s.txs {
      PerformAgrees(w, rowOf, s, c, body);
      AgreeIsAlike(w, rowOf, s, Perform(w, s, body).state, R.Eval(Meaning(w.home, rowOf, body), w.env, c));
      CutBackAgrees(w, rowOf, s, c, Perform(w, s, body), o, R.Eval(Meaning(w.home, rowOf, body), w.env, c));
    } else {
      PerformAgrees(w, rowOf, s, c, body);
      if o.propagation.REQUIRED? || o.propagation.REQUIRES_NEW? || o.propagation.NESTED? {
        StartAgrees(w, rowOf, s, c, o, body);
      }
    }
  }

  lemma ApartIsAlike(w: Outside, s: State, c: R.Scope, d: DataSource)
    requires Alike(w, s, c)
    ensures Alike(w, Apart(s, d), R.Suspend(c, d)) && d !in Apart(s, d).txs
  {
    RemoveOne(c.active, d);
  }

  lemma ResumedIsAlike(w: Outside, s: State, c: R.Scope, d: DataSource, s': State, c': R.Scope)
    requires Alike(w, s, c) && d in s.txs && Alike(w, s', c') && d !in s'.txs
    ensures Alike(w, Resumed(s', d, s.txs[d]), c'.(active := c'.active + [d]))
  {
    DistinctAppend(c'.active, d);
  }

  /** What happened while the transaction on `d` was suspended added nothing to it. */
  lemma {:induction false} ResumedAgrees(w: Outside, rowOf: Event -> Row, s: State, c: R.Scope, d: DataSource,
                                         s': State, q: R.Result)
    requires Alike(w, s, c) && d in s.txs && Agree(w, rowOf, Apart(s, d), s', q)
    ensures Agree(w, rowOf, s, Resumed(s', d, s.txs[d]), R.Resume(q, d))
    ensures R.Resume(q, d).outcome == q.outcome
  {
    hide Gained, Added, Alike, EndingsOf, Endings;
    assert forall e | e in q.effects :: e.dataSource != d;
    ResumedIsAlike(w, s, c, d, s', q.scope);
    GainedElsewhere(w, rowOf, s.txs[d], q.effects, d);
  }

  lemma {:induction false} CutBackAgrees(w: Outside, rowOf: Event -> Row, s: State, c: R.Scope, r: Ran, o: Options,
                                         q: R.Result)
    requires o.dataSource in s.txs && o.dataSource in r.state.txs
    requires r.outcome == q.outcome && Agree(w, rowOf, s, r.state, q)
    ensures var back := q.outcome.Fail? && ShouldRollback(q.outcome.error, o);
            Agree(w, rowOf, s, CutBack(s, r, o).state,
                  if back then q.(effects := E.WithoutRows(q.effects, o.dataSource)) else q)
    ensures CutBack(s, r, o).outcome == r.outcome
  {
    hide ShouldRollback, Gained;
    var d := o.dataSource;
    assert Gained(w, rowOf, s.txs[d], r.state.txs[d], Added(q.effects, d));
    GainedMore(w, rowOf, s.txs[d], r.state.txs[d], Added(q.effects, d));
    ReferenceLaws.WithoutIsSubset(q.effects, d);
    var s' := CutBack(s, r, o).state;
    if q.outcome.Fail? && ShouldRollback(q.outcome.error, o) {
      forall b | b in s.txs ensures Gained(w, rowOf, s.txs[b], s'.txs[b], Added(E.WithoutRows(q.effects, d), b)) {
        AddedWithoutRows(q.effects, d, b);
        if b == d {
          CutGains(w, rowOf, s.txs[d], r.state.txs[d], q.effects, d);
        }
      }
    }
  }

  lemma GainedMore(w: Outside, rowOf: Event -> Row, t: Tx, t': Tx, gain: Image)
    requires Gained(w, rowOf, t, t', gain)
    ensures |t.rows| <= |t'.rows| && t'.rows[..|t.rows|] == t.rows
  {
  }

  lemma AddedWithoutRows(effects: seq<E.Effect>, d: DataSource, b: DataSource)
    ensures Added(E.WithoutRows(effects, d), b)
            == if b == d then Added(effects, b).(rows := []) else Added(effects, b)
  {
    forall phase ensures E.Rows(E.WithoutRows(effects, d), b) == (if b == d then [] else E.Rows(effects, b))
                      && E.Hooks(E.WithoutRows(effects, d), b, phase) == E.Hooks(effects, b, phase)
    {
      E.WithoutRowsKeepsOthers(effects, d, b, phase);
    }
  }

  lemma CutGains(w: Outside, rowOf: Event -> Row, t: Tx, t': Tx, effects: seq<E.Effect>, d: DataSource)
    requires Gained(w, rowOf, t, t', Added(effects, d)) && |t.rows| <= |t'.rows|
    ensures Gained(w, rowOf, t, t'.(rows := t'.rows[..|t.rows|]), Added(effects, d).(rows := []))
  {
    assert t'.rows[..|t.rows|] == t.rows;
  }

  lemma {:induction false} StartAgrees(w: Outside, rowOf: Event -> Row, s: State, c: R.Scope, o: Options, body: Script)
    requires NeverRefuses(w) && Alike(w, s, c) && o.dataSource !in s.txs
    ensures var r, q := StartIn(w, s, o, body), R.StartWithRetry(o, Meaning(w.home, rowOf, body), w.env, c);
            r.outcome == q.outcome && Agree(w, rowOf, s, r.state, q)
    decreases Budget(Attempts(o.retry), ScriptSize(body)), 5
  {
    hide Agree, NeverRefuses, AttemptIn, Meaning, Alike, Grew, R.AttemptUpTo;
    if ValidRetry(o.retry) {
      AttemptAgrees(w, rowOf, s, c, Attempts(o.retry), o, body);
    } else {
      RaisedAgrees(w, rowOf, s, c, {TYPE_ERROR});
    }
  }

  lemma {:induction false} AttemptAgrees(w: Outside, rowOf: Event -> Row, s: State, c: R.Scope, k: nat, o: Options,
                                         body: Script)
    requires NeverRefuses(w) && Alike(w, s, c) && o.dataSource !in s.txs && 1 <= k
    ensures var r, q := AttemptIn(w, s, k, o, body), R.AttemptUpTo(k, o, Meaning(w.home, rowOf, body), w.env, c);
            r.outcome == q.outcome && Agree(w, rowOf, s, r.state, q)
    decreases Budget(k, ScriptSize(body)), 4
  {
    hide Agree, NeverRefuses, TransactIn, Meaning, Alike, Grew, R.StartNew, R.Delayed, R.Wait, Repeats, R.TriesAgain;
    var p := Meaning(w.home, rowOf, body);
    var r, q := TransactIn(w, s, o, body), R.StartNew(o, p, w.env, c).result;
    TransactAgrees(w, rowOf, s, c, o, body);
    AgreeIsAlike(w, rowOf, s, r.state, q);
    RepeatsAlike(w, r, q, k, o);
    if Repeats(k, o, r) {
      ReferenceLaws.AgainIsFail(k, o, q);
      AttemptAgrees(w, rowOf, r.state, q.scope, k - 1, o, body);
      var s' := AttemptIn(w, r.state, k - 1, o, body).state;
      var q' := R.AttemptUpTo(k - 1, o, p, w.env, q.scope);
      var wait := R.Wait(k, o, q.outcome.error);
      DelayedAgrees(w, rowOf, r.state, s', wait, q');
      AgreeTwice(w, rowOf, s, r.state, s', q, R.Delayed(wait, q'));
    }
  }

  lemma RepeatsAlike(w: Outside, r: Ran, q: R.Result, k: nat, o: Options)
    requires Alike(w, r.state, q.scope) && r.outcome == q.outcome
    ensures Repeats(k, o, r) <==> R.TriesAgain(k, o, q)
    ensures Repeats(k, o, r) ==> k > 1
  {
  }

  lemma DelayedAgrees(w: Outside, rowOf: Event -> Row, s: State, s': State, wait: int, q: R.Result)
    requires Agree(w, rowOf, s, s', q)
    ensures Agree(w, rowOf, s, s', R.Delayed(wait, q)) && R.Delayed(wait, q).outcome == q.outcome
  {
    hide Agree;
    if wait > 0 {
      AgreeLogged(w, rowOf, s, s', R.Waited(wait), q);
    }
  }

  lemma SameClock(w: Outside, s: State, c: R.Scope)
    requires Alike(w, s, c)
    ensures c.clock == s.bus.clock && c.handles == s.bus.begun
  {
  }

  /** A failed BEGIN. */
  lemma NotBegunAgrees(w: Outside, rowOf: Event -> Row, s: State, c: R.Scope, classes: set<ErrorClass>)
    requires Alike(w, s, c)
    ensures var r := Raised(s.(bus := s.bus.(clock := s.bus.clock + 1)), classes);
            var q := R.Raise(classes, c.(clock := c.clock + 1));
            && r.outcome == q.outcome
            && Agree(w, rowOf, s, Marked(r.state, r.outcome.error), q.(scope := R.Mark(q.scope, q.outcome.error)))
  {
    hide ImageOf;
    var r := Raised(s.(bus := s.bus.(clock := s.bus.clock + 1)), classes);
    var q := R.Raise(classes, c.(clock := c.clock + 1));
    AgreeIdle(w, rowOf, s, Marked(r.state, r.outcome.error), R.Mark(q.scope, q.outcome.error), r.outcome);
  }

  lemma {:induction false} TransactAgrees(w: Outside, rowOf: Event -> Row, s: State, c: R.Scope, o: Options,
                                          body: Script)
    requires NeverRefuses(w) && Alike(w, s, c) && o.dataSource !in s.txs
    ensures var r, q := TransactIn(w, s, o, body), R.StartNew(o, Meaning(w.home, rowOf, body), w.env, c).result;
            r.outcome == q.outcome && Agree(w, rowOf, s, r.state, q)
    decreases ScriptSize(body), 3
  {
    hide Agree, Alike, NeverRefuses, CallbackIn, SettleIn, Meaning, Grew, R.Settle, R.Inside, Marked, R.Mark;
    var p, begun := Meaning(w.home, rowOf, body), c.(clock := c.clock + 1);
    SameClock(w, s, c);
    match w.env.signal(s.bus.clock)
    case Fault(classes) =>
      NotBegunAgrees(w, rowOf, s, c, classes);
    case Proceed =>
      CallbackAgrees(w, rowOf, s, c, o.dataSource, body);
      SettleAgrees(w, rowOf, s, c, o, body, CallbackIn(w, s, o.dataSource, body),
                   R.Inside(o.dataSource, p, w.env, begun));
  }

  lemma {:induction false} CallbackAgrees(w: Outside, rowOf: Event -> Row, s: State, c: R.Scope, d: DataSource,
                                          body: Script)
    requires NeverRefuses(w) && Alike(w, s, c) && d !in s.txs
    ensures var r := CallbackIn(w, s, d, body).ran;
            var q := R.Inside(d, Meaning(w.home, rowOf, body), w.env, c.(clock := c.clock + 1));
            r.outcome == q.outcome && Agree(w, rowOf, BeginIn(s, d), r.state, q)
    decreases ScriptSize(body), 2, 2
  {
    hide Agree, NeverRefuses, Perform, LoopIn, Meaning, Alike, Grew, Looped, Before, BeginIn;
    hide R.Eval, R.BeforeCommitLoop;
    var p, b := Meaning(w.home, rowOf, body), BeginIn(s, d);
    var scope := R.Scope(c.active + [d], c.clock + 1, c.errors, c.handles + 1, c.marked);
    BeginIsAlike(w, s, c, d);
    PerformAgrees(w, rowOf, b, scope, body);
    var r, q := Perform(w, b, body), R.Eval(p, w.env, scope);
    CallbackBudget(s, d, r.state, ScriptSize(body));
    if r.outcome.Ok? {
      AgreeIsAlike(w, rowOf, b, r.state, q);
      FirstHooks(w, rowOf, s, d, r.state, q);
      LoopAgrees(w, rowOf, r.state, q.scope, d, 0, 0, c.handles);
      var q' := R.BeforeCommitLoop(E.Hooks(q.effects, d, BeforeCommit), 0, c.handles, d, w.env, q.scope);
      AgreeTwice(w, rowOf, b, r.state, LoopIn(w, r.state, d, 0).state, q, q');
      AgreeLogged(w, rowOf, b, LoopIn(w, r.state, d, 0).state, R.Began(c.handles, d), R.Sequence(q, q'));
    } else {
      AgreeLogged(w, rowOf, b, r.state, R.Began(c.handles, d), q);
    }
  }

  lemma BeginIsAlike(w: Outside, s: State, c: R.Scope, d: DataSource)
    requires Alike(w, s, c) && d !in s.txs
    ensures d in BeginIn(s, d).txs && BeginIn(s, d).txs[d] == NewTx()
    ensures Alike(w, BeginIn(s, d), R.Scope(c.active + [d], c.clock + 1, c.errors, c.handles + 1, c.marked))
  {
    DistinctAppend(c.active, d);
  }

  /** The new transaction has what its body added. */
  lemma NewGained(w: Outside, rowOf: Event -> Row, s: State, d: DataSource, s': State, q: R.Result)
    requires Agree(w, rowOf, BeginIn(s, d), s', q)
    ensures d in s'.txs && ImageOf(w.home, rowOf, s'.txs[d]) == Added(q.effects, d)
  {
    hide Alike;
    assert Gained(w, rowOf, BeginIn(s, d).txs[d], s'.txs[d], Added(q.effects, d));
    assert ImageOf(w.home, rowOf, NewTx()) == Image([], [], [], []);
  }

  lemma FirstHooks(w: Outside, rowOf: Event -> Row, s: State, d: DataSource, s': State, q: R.Result)
    requires Agree(w, rowOf, BeginIn(s, d), s', q)
    ensures d in s'.txs
            && Before(w.home, rowOf, s'.txs[d].beforeCommit[0..]) == E.Hooks(q.effects, d, BeforeCommit)
  {
    hide Agree, BeginIn;
    NewGained(w, rowOf, s, d, s', q);
    assert s'.txs[d].beforeCommit[0..] == s'.txs[d].beforeCommit;
  }

  lemma {:induction false} LoopAgrees(w: Outside, rowOf: Event -> Row, s: State, c: R.Scope, d: DataSource, next: nat,
                                      index: nat, handle: nat)
    requires NeverRefuses(w) && Alike(w, s, c) && d in s.txs && next <= |s.txs[d].beforeCommit|
    ensures var r := LoopIn(w, s, d, next);
            var queue := Before(w.home, rowOf, s.txs[d].beforeCommit[next..]);
            var q := R.BeforeCommitLoop(queue, index, handle, d, w.env, c);
            r.outcome == q.outcome && Agree(w, rowOf, s, r.state, q)
    decreases BeforeSize(s.txs[d].beforeCommit[next..]), 2, 1
  {
    hide Agree, NeverRefuses, TurnIn, Looped, Alike, BeforeSize, Left, Meaning, R.BeforeCommitLoop;
    var queue := s.txs[d].beforeCommit;
    if next == |queue| {
      EmptyLoop(index, handle, d, w.env, c);
      SkipAgrees(w, rowOf, s, c);
    } else {
      BeforeStep(w.home, rowOf, queue, next);
      var r := TurnIn(w, s, d, next);
      if queue[next].Flush? {
        FlushTurn(w, rowOf, s, c, d, next);
        LoopAgrees(w, rowOf, r.state, c, d, next + 1, index, handle);
        var q := R.BeforeCommitLoop(Before(w.home, rowOf, queue[next + 1..]), index, handle, d, w.env, c);
        AgreeTwice(w, rowOf, s, r.state, LoopIn(w, r.state, d, next + 1).state, R.Quiet(Ok, c), q);
        SequenceQuiet(c, q);
      } else {
        OtherAgrees(w, rowOf, s, c, d, next, index, handle);
      }
    }
  }

  lemma EmptyLoop(index: nat, handle: nat, d: DataSource, env: Environment, c: R.Scope)
    ensures R.BeforeCommitLoop([], index, handle, d, env, c) == R.Quiet(Ok, c)
  {
  }

  lemma SequenceQuiet(c: R.Scope, q: R.Result)
    ensures R.Sequence(R.Quiet(Ok, c), q) == q
  {
  }

  lemma BeforeStep(home: DataSource, rowOf: Event -> Row, queue: seq<BeforeHook>, next: nat)
    requires next < |queue|
    ensures var rest := Before(home, rowOf, queue[next + 1..]);
            Before(home, rowOf, queue[next..])
            == if queue[next].Other? then [Meaning(home, rowOf, queue[next].script)] + rest else rest
  {
    hide Meaning;
    assert queue[next..][1..] == queue[next + 1..];
  }

  /** The engine sees nothing of a flush. */
  lemma {:induction false} FlushTurn(w: Outside, rowOf: Event -> Row, s: State, c: R.Scope, d: DataSource, next: nat)
    requires NeverRefuses(w) && Alike(w, s, c) && d in s.txs && next < |s.txs[d].beforeCommit|
    requires s.txs[d].beforeCommit[next].Flush?
    ensures var r := TurnIn(w, s, d, next);
            && r.outcome == Ok && Agree(w, rowOf, s, r.state, R.Quiet(Ok, c)) && Alike(w, r.state, c)
            && d in r.state.txs && r.state.txs[d].beforeCommit == s.txs[d].beforeCommit
  {
    hide Agree, NeverRefuses, AddAll, ImageOf, BeforeSize, Left, Grew, Looped;
    var s1 := Unbuffered(s, d);
    UnbufferedIsUnseen(w, rowOf, s.txs[d]);
    AgreeIdle(w, rowOf, s, s1, c, Ok);
    AddAllAgrees(w, rowOf, s1, c, Buffer(s.txs[d]));
    AgreeTwice(w, rowOf, s, s1, AddAll(w, s1, Buffer(s.txs[d])).state, R.Quiet(Ok, c), R.Quiet(Ok, c));
    SequenceQuiet(c, R.Quiet(Ok, c));
    AgreeIsAlike(w, rowOf, s1, AddAll(w, s1, Buffer(s.txs[d])).state, R.Quiet(Ok, c));
  }

  lemma UnbufferedIsUnseen(w: Outside, rowOf: Event -> Row, t: Tx)
    ensures ImageOf(w.home, rowOf, t.(pending := None)) == ImageOf(w.home, rowOf, t)
  {
  }

  lemma {:induction false} AddAllAgrees(w: Outside, rowOf: Event -> Row, s: State, c: R.Scope, events: seq<Event>)
    requires NeverRefuses(w) && Alike(w, s, c) && (events == [] || w.home in s.txs)
    ensures AddAll(w, s, events).outcome == Ok
    ensures Agree(w, rowOf, s, AddAll(w, s, events).state, R.Quiet(Ok, c))
    decreases |events|
  {
    hide Agree, NeverRefuses, PublishIn, Alike, Grew;
    if events == [] {
      SkipAgrees(w, rowOf, s, c);
    } else {
      var s1 := PublishIn(w, s, events[0], Flushed).state;
      AddAgrees(w, rowOf, s, c, events[0], Flushed);
      AgreeIsAlike(w, rowOf, s, s1, R.Quiet(Ok, c));
      AddAllAgrees(w, rowOf, s1, c, events[1..]);
      AgreeTwice(w, rowOf, s, s1, AddAll(w, s1, events[1..]).state, R.Quiet(Ok, c), R.Quiet(Ok, c));
      SequenceQuiet(c, R.Quiet(Ok, c));
    }
  }

  /** A turn of the program's own, and the rest of the loop. */
  lemma {:induction false} OtherAgrees(w: Outside, rowOf: Event -> Row, s: State, c: R.Scope, d: DataSource, next: nat,
                                       index: nat, handle: nat)
    requires NeverRefuses(w) && Alike(w, s, c) && d in s.txs && next < |s.txs[d].beforeCommit|
    requires s.txs[d].beforeCommit[next].Other?
    ensures var r := LoopIn(w, s, d, next);
            var queue := Before(w.home, rowOf, s.txs[d].beforeCommit[next..]);
            var q := R.BeforeCommitLoop(queue, index, handle, d, w.env, c);
            r.outcome == q.outcome && Agree(w, rowOf, s, r.state, q)
    decreases BeforeSize(s.txs[d].beforeCommit[next..]), 2, 0
  {
    hide Agree, NeverRefuses, Looped, Alike, BeforeSize, Left, Meaning, Perform, Grew, TurnIn;
    hide R.BeforeCommitLoop, R.Eval;
    var queue := s.txs[d].beforeCommit;
    var script := queue[next].script;
    var p := Meaning(w.home, rowOf, script);
    OutboxBooks.TurnIsSmall(queue, next);
    PerformAgrees(w, rowOf, s, c, script);
    var r, q := TurnIn(w, s, d, next), R.FireHook(p, BeforeCommit, index, handle, w.env, c);
    OtherTurn(w, s, d, next);
    AgreeLogged(w, rowOf, s, r.state, R.Fired(handle, BeforeCommit, index), R.Eval(p, w.env, c));
    BeforeStep(w.home, rowOf, queue, next);
    LoopStep(p, Before(w.home, rowOf, queue[next + 1..]), index, handle, d, w.env, c);
    if r.outcome.Ok? {
      AgreeIsAlike(w, rowOf, s, r.state, q);
      RestOfQueue(w, rowOf, s, r.state, q, d, next);
      LoopAgrees(w, rowOf, r.state, q.scope, d, next + 1, index + 1, handle);
      AgreeTwice(w, rowOf, s, r.state, LoopIn(w, r.state, d, next + 1).state, q,
                 R.BeforeCommitLoop(Before(w.home, rowOf, r.state.txs[d].beforeCommit[next + 1..]), index + 1, handle,
                                    d, w.env, q.scope));
    }
  }

  lemma OtherTurn(w: Outside, s: State, d: DataSource, next: nat)
    requires d in s.txs && next < |s.txs[d].beforeCommit| && s.txs[d].beforeCommit[next].Other?
    ensures TurnIn(w, s, d, next) == Perform(w, s, s.txs[d].beforeCommit[next].script)
  {
    hide Perform;
  }

  lemma LoopStep(p: Program, rest: seq<Program>, index: nat, handle: nat, d: DataSource, env: Environment, c: R.Scope)
    ensures var q := R.FireHook(p, BeforeCommit, index, handle, env, c);
            R.BeforeCommitLoop([p] + rest, index, handle, d, env, c)
            == if q.outcome.Fail? then q
               else R.Sequence(q, R.BeforeCommitLoop(rest + E.Hooks(q.effects, d, BeforeCommit), index + 1, handle, d,
                                                     env, q.scope))
  {
    hide R.FireHook;
    assert ([p] + rest)[1..] == rest;
  }

  /** What is left of the queue, with what the hook pushed. */
  lemma {:induction false} RestOfQueue(w: Outside, rowOf: Event -> Row, s: State, s': State, q: R.Result, d: DataSource,
                                       next: nat)
    requires Agree(w, rowOf, s, s', q) && d in s.txs && d in s'.txs && next < |s.txs[d].beforeCommit|
    requires s.txs[d].beforeCommit <= s'.txs[d].beforeCommit
    ensures Before(w.home, rowOf, s'.txs[d].beforeCommit[next + 1..])
            == Before(w.home, rowOf, s.txs[d].beforeCommit[next + 1..]) + E.Hooks(q.effects, d, BeforeCommit)
  {
    hide Before, Alike, DirectRows, After;
    var a, b := s.txs[d].beforeCommit, s'.txs[d].beforeCommit;
    var start, pushed := a[..next + 1], b[|a|..];
    assert a == start + a[next + 1..] && b == a + pushed && b[next + 1..] == a[next + 1..] + pushed;
    BeforeConcat(w.home, rowOf, a, pushed);
    BeforeConcat(w.home, rowOf, a[next + 1..], pushed);
    assert Gained(w, rowOf, s.txs[d], s'.txs[d], Added(q.effects, d));
    SameTail(Before(w.home, rowOf, a), Before(w.home, rowOf, pushed), E.Hooks(q.effects, d, BeforeCommit));
  }

  lemma SameTail<T>(a: seq<T>, b: seq<T>, c: seq<T>)
    requires a + b == a + c
    ensures b == c
  {
    assert b == (a + b)[|a|..] && c == (a + c)[|a|..];
  }

  // The end of a transaction.

  /** The transaction on `d` has ended as `entry` says. */
  lemma {:induction false} ClosedAgrees(w: Outside, rowOf: Event -> Row, s: State, d: DataSource, c: State, q: R.Result,
                                        s': State, scope: R.Scope, f: Finished, entry: R.Entry)
    requires Agree(w, rowOf, BeginIn(s, d), c, q) && d !in s.txs
    requires s'.txs == c.txs - {d} && s'.bus.finished == c.bus.finished + [f] && Alike(w, s', scope)
    requires Endings([entry]) == [EndingOf(rowOf, f)]
    ensures Agree(w, rowOf, s, s', R.Result(q.outcome, scope, E.Without(q.effects, d), q.log + [entry]))
  {
    hide Gained, Alike, Added;
    forall b | b in s.txs ensures Gained(w, rowOf, s.txs[b], s'.txs[b], Added(E.Without(q.effects, d), b)) {
      assert BeginIn(s, d).txs[b] == s.txs[b];
      AddedWithout(q.effects, d, b);
    }
    ReferenceLaws.WithoutIsSubset(q.effects, d);
    EndingsConcat(q.log, [entry]);
    assert s'.bus.finished[..|s'.bus.finished| - 1] == c.bus.finished;
  }

  lemma AddedWithout(effects: seq<E.Effect>, d: DataSource, b: DataSource)
    requires b != d
    ensures Added(E.Without(effects, d), b) == Added(effects, b)
  {
    forall phase ensures E.Rows(E.Without(effects, d), b) == E.Rows(effects, b)
                      && E.Hooks(E.Without(effects, d), b, phase) == E.Hooks(effects, b, phase)
    {
      E.WithoutKeepsOthers(effects, d, b, phase);
    }
  }

  lemma AskedIsAlike(w: Outside, s: State, c: R.Scope)
    requires Alike(w, s, c)
    ensures c.clock == s.bus.clock
    ensures Alike(w, s.(bus := s.bus.(clock := s.bus.clock + 1)), c.(clock := c.clock + 1))
  {
  }

  lemma {:induction false} SettleAgrees(w: Outside, rowOf: Event -> Row, s: State, c: R.Scope, o: Options, body: Script,
                                        called: Called, q: R.Result)
    requires NeverRefuses(w) && Alike(w, s, c) && o.dataSource !in s.txs
    requires Affordable(s, called.ran.state, o.dataSource, ScriptSize(body))
    requires E.OtherHookSize(q.effects, o.dataSource) < Size(Meaning(w.home, rowOf, body))
    requires called.ran.outcome == q.outcome && Agree(w, rowOf, BeginIn(s, o.dataSource), called.ran.state, q)
    ensures var r := SettleIn(w, s, o, ScriptSize(body), called);
            var a := R.Settle(o, Meaning(w.home, rowOf, body), q, w.env, c.handles);
            r.outcome == a.result.outcome && Agree(w, rowOf, s, r.state, a.result)
    decreases ScriptSize(body), 2
  {
    hide Agree, NeverRefuses, Affordable, AfterIn, Meaning, Grew, ImageOf, ShouldRollback;
    hide E.OtherHookSize, R.AfterHooks, RollBackIn, CommitIn, R.RollBack, R.Commit, Alike;
    var d, size, p := o.dataSource, ScriptSize(body), Meaning(w.home, rowOf, body);
    OutboxBooks.AffordableParts(s, called.ran.state, d, size);
    ClosedBudget(s, called.ran.state, d, size);
    AgreeIsAlike(w, rowOf, BeginIn(s, d), called.ran.state, q);
    ApartIsAlike(w, called.ran.state, q.scope, d);
    var r, a := SettleIn(w, s, o, size, called), R.Settle(o, p, q, w.env, c.handles);
    var t, apart, closed := called.ran.state.txs[d], Apart(called.ran.state, d), R.Suspend(q.scope, d);
    if q.outcome.Fail? && ShouldRollback(q.outcome.error, o) {
      RollBackAgrees(w, rowOf, s, d, p, called.ran.state, q, apart, closed,
                     Finished(o, t, called.bodyEnded, q.outcome, false), q.outcome.error, size, c.handles, r, a);
    } else {
      var asked := apart.(bus := apart.bus.(clock := apart.bus.clock + 1));
      var asked' := closed.(clock := closed.clock + 1);
      AskedIsAlike(w, apart, closed);
      assert a == R.AskCommit(d, p, q, closed, w.env, c.handles);
      match w.env.signal(apart.bus.clock) {
        case Fault(classes) =>
          var failed, failed' := Raised(asked, classes), R.Raise(classes, asked');
          RaisedAgrees(w, rowOf, asked, asked', classes);
          AgreeIsAlike(w, rowOf, asked, failed.state, failed');
          RollBackAgrees(w, rowOf, s, d, p, called.ran.state, q, failed.state, failed'.scope,
                         Finished(o, t, called.bodyEnded, q.outcome, false), failed.outcome.error, size, c.handles,
                         r, a);
        case Proceed =>
          CommitAgrees(w, rowOf, s, d, p, called.ran.state, q, asked, asked',
                       Finished(o, t, called.bodyEnded, q.outcome, true), size, c.handles, r, a);
      }
    }
  }

  lemma {:induction false} RollBackAgrees(w: Outside, rowOf: Event -> Row, s: State, d: DataSource, p: Program,
                                          c: State, q: R.Result, closed: State, scope: R.Scope, f: Finished,
                                          error: Error, size: nat, handle: nat, r: Ran, a: R.Attempt)
    requires AfterSize(f.tx.afterRollback) <= size && Grew(s.txs, closed.txs, size - AfterSize(f.tx.afterRollback))
    requires r == RollBackIn(w, s, closed, f, error, size)
    requires E.OtherHookSize(q.effects, d) < Size(p) && a == R.RollBack(d, p, q, error, scope, w.env, handle)
    requires NeverRefuses(w) && d !in s.txs && d in c.txs && Agree(w, rowOf, BeginIn(s, d), c, q)
    requires closed.txs == c.txs - {d} && closed.bus.finished == c.bus.finished && Alike(w, closed, scope)
    requires f.tx == c.txs[d] && f.options.dataSource == d && !f.committed
    ensures r.outcome == a.result.outcome && Agree(w, rowOf, s, r.state, a.result)
    decreases size, 1
  {
    hide NeverRefuses, AfterIn, Grew, ImageOf, Gained, Added, E.OtherHookSize, R.AfterHooks, AfterSize, After, BeginIn;
    hide Agree, Alike;
    var s1 := closed.(bus := closed.bus.(finished := closed.bus.finished + [f]));
    var entry := R.RolledBack(handle, d);
    AlikeByBus(w, closed, s1, scope);
    EndingIsRolledBack(rowOf, f, entry);
    ClosedAgrees(w, rowOf, s, d, c, q, s1, scope, f, entry);
    HooksAfter(w, rowOf, s, d, c, q);
    AfterAgrees(w, rowOf, s1, scope, f.tx.afterRollback, AfterRollback, 0, handle);
    var s2 := AfterIn(w, s1, f.tx.afterRollback);
    var hooks := R.AfterHooks(E.Hooks(q.effects, d, AfterRollback), AfterRollback, 0, handle, w.env, scope);
    AgreeTwice(w, rowOf, s, s1, s2, R.Result(q.outcome, scope, E.Without(q.effects, d), q.log + [entry]), hooks);
    OutcomeFree(w, rowOf, s, s2,
                R.Sequence(R.Result(q.outcome, scope, E.Without(q.effects, d), q.log + [entry]), hooks), Fail(error));
    MarkAgrees(w, rowOf, s, s2, error, R.Result(Fail(error), hooks.scope, E.Without(q.effects, d) + hooks.effects,
                                                q.log + [entry] + hooks.log));
  }

  lemma AlikeByBus(w: Outside, s: State, s': State, c: R.Scope)
    requires Alike(w, s, c) && s'.txs == s.txs && s'.bus.clock == s.bus.clock && s'.bus.errors == s.bus.errors
    requires s'.bus.begun == s.bus.begun && s'.bus.marked == s.bus.marked
    ensures Alike(w, s', c)
  {
  }

  lemma EndingIsRolledBack(rowOf: Event -> Row, f: Finished, entry: R.Entry)
    requires !f.committed && entry.RolledBack? && entry.dataSource == f.options.dataSource
    ensures Endings([entry]) == [EndingOf(rowOf, f)]
  {
    assert [entry][1..] == [];
  }

  lemma EndingIsCommitted(rowOf: Event -> Row, f: Finished, entry: R.Entry)
    requires f.committed && entry.Committed? && entry.dataSource == f.options.dataSource
    requires entry.rows == DirectRows(rowOf, f.tx.rows)
    ensures Endings([entry]) == [EndingOf(rowOf, f)]
  {
    assert [entry][1..] == [];
  }

  lemma HooksAfter(w: Outside, rowOf: Event -> Row, s: State, d: DataSource, c: State, q: R.Result)
    requires Agree(w, rowOf, BeginIn(s, d), c, q) && d in c.txs
    ensures After(w.home, rowOf, c.txs[d].afterRollback) == E.Hooks(q.effects, d, AfterRollback)
    ensures After(w.home, rowOf, c.txs[d].afterCommit) == E.Hooks(q.effects, d, AfterCommit)
    ensures DirectRows(rowOf, c.txs[d].rows) == E.Rows(q.effects, d)
  {
    hide Agree;
    NewGained(w, rowOf, s, d, c, q);
  }

  lemma MarkAgrees(w: Outside, rowOf: Event -> Row, s: State, s': State, error: Error, q: R.Result)
    requires Agree(w, rowOf, s, s', q)
    ensures Agree(w, rowOf, s, Marked(s', error), q.(scope := R.Mark(q.scope, error)))
  {
    hide Gained, Added;
  }

  lemma {:induction false} CommitAgrees(w: Outside, rowOf: Event -> Row, s: State, d: DataSource, p: Program, c: State,
                                        q: R.Result, closed: State, scope: R.Scope, f: Finished, size: nat, handle: nat,
                                        r: Ran, a: R.Attempt)
    requires AfterSize(f.tx.afterCommit) <= size && Grew(s.txs, closed.txs, size - AfterSize(f.tx.afterCommit))
    requires r == CommitIn(w, s, closed, f, size)
    requires E.OtherHookSize(q.effects, d) < Size(p) && a == R.Commit(d, p, q, scope, w.env, handle)
    requires NeverRefuses(w) && d !in s.txs && d in c.txs && Agree(w, rowOf, BeginIn(s, d), c, q)
    requires closed.txs == c.txs - {d} && closed.bus.finished == c.bus.finished && Alike(w, closed, scope)
    requires f.tx == c.txs[d] && f.options.dataSource == d && f.committed && f.ended == q.outcome
    ensures r.outcome == a.result.outcome && Agree(w, rowOf, s, r.state, a.result)
    decreases size, 1
  {
    hide NeverRefuses, AfterIn, Grew, ImageOf, Gained, Added, E.OtherHookSize, R.AfterHooks, AfterSize, After, BeginIn;
    hide Agree, Alike;
    var bus := closed.bus.(finished := closed.bus.finished + [f], durable := closed.bus.durable + f.tx.rows);
    var s1 := closed.(bus := bus);
    var entry := R.Committed(handle, d, E.Rows(q.effects, d));
    AlikeByBus(w, closed, s1, scope);
    HooksAfter(w, rowOf, s, d, c, q);
    EndingIsCommitted(rowOf, f, entry);
    ClosedAgrees(w, rowOf, s, d, c, q, s1, scope, f, entry);
    AfterAgrees(w, rowOf, s1, scope, f.tx.afterCommit, AfterCommit, 0, handle);
    var hooks := R.AfterHooks(E.Hooks(q.effects, d, AfterCommit), AfterCommit, 0, handle, w.env, scope);
    AgreeTwice(w, rowOf, s, s1, AfterIn(w, s1, f.tx.afterCommit),
               R.Result(q.outcome, scope, E.Without(q.effects, d), q.log + [entry]), hooks);
    OutcomeFree(w, rowOf, s, AfterIn(w, s1, f.tx.afterCommit),
                R.Sequence(R.Result(q.outcome, scope, E.Without(q.effects, d), q.log + [entry]), hooks), q.outcome);
  }

  lemma OutcomeFree(w: Outside, rowOf: Event -> Row, s: State, s': State, q: R.Result, outcome: Outcome)
    requires Agree(w, rowOf, s, s', q)
    ensures Agree(w, rowOf, s, s', q.(outcome := outcome))
  {
  }

  /** The engine sees nothing of the notification. */
  lemma {:induction false} AfterAgrees(w: Outside, rowOf: Event -> Row, s: State, c: R.Scope, hooks: seq<AfterHook>,
                                       phase: Phase, index: nat, handle: nat)
    requires NeverRefuses(w) && Alike(w, s, c)
    ensures Agree(w, rowOf, s, AfterIn(w, s, hooks),
                  R.AfterHooks(After(w.home, rowOf, hooks), phase, index, handle, w.env, c))
    decreases AfterSize(hooks), 0, |hooks|
  {
    hide NeverRefuses, Grew, Agree, Alike, Perform, Meaning, R.Eval;
    if hooks == [] {
      SkipAgrees(w, rowOf, s, c);
    } else if hooks[0].Notify? {
      var s1 := s.(bus := s.bus.(notifications := s.bus.notifications + 1));
      NotifyIsUnseen(w, rowOf, s, c);
      assert After(w.home, rowOf, hooks) == After(w.home, rowOf, hooks[1..]);
      AfterAgrees(w, rowOf, s1, c, hooks[1..], phase, index, handle);
      var q := R.AfterHooks(After(w.home, rowOf, hooks[1..]), phase, index, handle, w.env, c);
      AgreeTwice(w, rowOf, s, s1, AfterIn(w, s1, hooks[1..]), R.Quiet(Ok, c), q);
      SequenceQuiet(c, q);
    } else {
      var p := Meaning(w.home, rowOf, hooks[0].script);
      var r, q := Perform(w, s, hooks[0].script), R.FireHook(p, phase, index, handle, w.env, c);
      PerformAgrees(w, rowOf, s, c, hooks[0].script);
      AgreeLogged(w, rowOf, s, r.state, R.Fired(handle, phase, index), R.Eval(p, w.env, c));
      AgreeIsAlike(w, rowOf, s, r.state, q);
      AfterAgrees(w, rowOf, r.state, q.scope, hooks[1..], phase, index + 1, handle);
      AfterStep(p, After(w.home, rowOf, hooks[1..]), phase, index, handle, w.env, c);
      AgreeTwice(w, rowOf, s, r.state, AfterIn(w, r.state, hooks[1..]), q,
                 R.AfterHooks(After(w.home, rowOf, hooks[1..]), phase, index + 1, handle, w.env, q.scope));
    }
  }

  lemma NotifyIsUnseen(w: Outside, rowOf: Event -> Row, s: State, c: R.Scope)
    requires Alike(w, s, c)
    ensures var s1 := s.(bus := s.bus.(notifications := s.bus.notifications + 1));
            Alike(w, s1, c) && Agree(w, rowOf, s, s1, R.Quiet(Ok, c))
  {
    hide ImageOf;
    AgreeIdle(w, rowOf, s, s.(bus := s.bus.(notifications := s.bus.notifications + 1)), c, Ok);
  }

  lemma AfterStep(p: Program, rest: seq<Program>, phase: Phase, index: nat, handle: nat, env: Environment, c: R.Scope)
    ensures var q := R.FireHook(p, phase, index, handle, env, c);
            R.AfterHooks([p] + rest, phase, index, handle, env, c)
            == R.Sequence(q, R.AfterHooks(rest, phase, index + 1, handle, env, q.scope))
  {
    hide R.FireHook;
    assert ([p] + rest)[1..] == rest;
  }

  // Whole programs.

  function CommittedRows(endings: seq<Ending>): seq<Row> {
    if endings == [] then [] else CommittedRows(endings[..|endings| - 1]) + endings[|endings| - 1].rows
  }

  lemma {:induction false} DurableRows(rowOf: Event -> Row, finished: seq<Finished>)
    ensures DirectRows(rowOf, OutboxBooks.Durable(finished)) == CommittedRows(EndingsOf(rowOf, finished))
  {
    if finished != [] {
      var last, before := finished[|finished| - 1], finished[..|finished| - 1];
      DurableRows(rowOf, before);
      DirectRowsConcat(rowOf, OutboxBooks.Durable(before), if last.committed then last.tx.rows else []);
      assert EndingsOf(rowOf, finished)[..|EndingsOf(rowOf, finished)| - 1] == EndingsOf(rowOf, before);
    }
  }

  /** While no `outbox.add` fails, a program ends as the engine ends its translation, with
      the same answers asked of the world, errors made and errors marked; the same
      transactions end in the same order, the same way and with the same rows; and the
      messages published directly and durable are the rows the engine commits. */
  lemma {:induction false} EngineMeaning(w: Outside, rowOf: Event -> Row, known: set<Event>, program: Script)
    requires NeverRefuses(w)
    ensures var r := Perform(w, OutboxLaws.Start(known), program);
            var q := R.Eval(Meaning(w.home, rowOf, program), w.env, R.Scope([], 0, 0, 0, {}));
            && r.outcome == q.outcome && r.state.bus.clock == q.scope.clock && r.state.bus.errors == q.scope.errors
            && r.state.bus.begun == q.scope.handles && r.state.bus.marked == q.scope.marked
            && EndingsOf(rowOf, r.state.bus.finished) == Endings(q.log)
            && DirectRows(rowOf, r.state.bus.durable) == CommittedRows(Endings(q.log))
  {
    hide Perform, R.Eval, Meaning, NeverRefuses, OutboxBooks.Sound;
    PerformAgrees(w, rowOf, OutboxLaws.Start(known), R.Scope([], 0, 0, 0, {}), program);
    OutboxLaws.EveryTransaction(w, known, program);
    DurableRows(rowOf, OutboxLaws.BusAfter(w, known, program).finished);
  }
}
