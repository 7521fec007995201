/** The outbox publisher in programs of nested transactions: events published directly,
    events scheduled by a synchronous caller, the before-commit hook that flushes those,
    and the one notification after each commit. Propagation, rollback rules, retries
    and the hook phases are those of the engine. */
module Outboxes {
  import opened Wrappers
  import opened Programs
  import opened Sums

  /** An event object; only an `@Externalized` one concerns the outbox when scheduled. */
  datatype Event = Event(id: nat, externalized: bool)

  /** How a message came into the outbox: through `publish`, or through the flush hook. */
  datatype Origin = Direct | Flushed

  datatype Message = Message(event: Event, origin: Origin)

  /** What a body or a hook does. `Hook` pushes on the transaction of its dataSource,
      if there is one. */
  datatype Act =
    | Schedule(event: Event)
    | Publish(event: Event)
    | Hook(dataSource: DataSource, phase: Phase, hook: Script)
    | Within(options: Options, body: Script)
    | Try(body: Script, handler: Script)
    | Raise(error: Error)
    | RaiseFresh(classes: set<ErrorClass>)

  datatype Script = Done | Do(act: Act, rest: Script)

  datatype BeforeHook = Flush | Other(script: Script)

  datatype AfterHook = Notify | After(script: Script)

  /** `home` is the outbox's dataSource; `refuses(k)` is the error of the k-th
      `outbox.add`, if it fails. */
  datatype Outside = Outside(env: Environment, home: DataSource, refuses: nat -> Option<Error>)

  /** A transaction: its outbox rows and hook lists, and the publisher's entries for it. The
      last two are history: the events it accepted, in scheduling order, and how many
      messages were ever added. */
  datatype Tx = Tx(
    rows: seq<Message>,
    beforeCommit: seq<BeforeHook>,
    afterCommit: seq<AfterHook>,
    afterRollback: seq<AfterHook>,
    pending: Option<seq<Event>>,
    notifying: bool,
    accepted: seq<Event>,
    added: nat)

  /** A transaction that has ended: how its body and its whole callback did. */
  datatype Finished = Finished(options: Options, tx: Tx, bodyEnded: Outcome, ended: Outcome, committed: bool)

  /** What all transactions share; `scheduled` holds the events the bus ever scheduled,
      `dropped` the externalized ones scheduled outside a transaction. */
  datatype Bus = Bus(
    calls: nat,
    clock: nat,
    errors: nat,
    begun: nat,
    marked: set<Identity>,
    scheduled: set<Event>,
    dropped: seq<Event>,
    durable: seq<Message>,
    notifications: nat,
    finished: seq<Finished>)

  /** `txs` are the visible transactions. */
  datatype State = State(bus: Bus, txs: map<DataSource, Tx>)

  datatype Ran = Ran(state: State, outcome: Outcome)

  // Sizes.

  function ActSize(a: Act): nat
    ensures 1 <= ActSize(a)
  {
    match a
    case Schedule(_) => 2
    case Publish(_) => 1
    case Hook(_, _, hook) => 2 + ScriptSize(hook)
    case Within(o, body) => 1 + Budget(Attempts(o.retry), ScriptSize(body))
    case Try(body, handler) => 1 + ScriptSize(body) + ScriptSize(handler)
    case Raise(_) => 1
    case RaiseFresh(_) => 1
  }

  function ScriptSize(s: Script): nat {
    if s.Done? then 0 else ActSize(s.act) + ScriptSize(s.rest)
  }

  function HookSize(h: BeforeHook): nat {
    if h.Flush? then 1 else 1 + ScriptSize(h.script)
  }

  function BeforeSize(queue: seq<BeforeHook>): nat {
    if queue == [] then 0 else HookSize(queue[0]) + BeforeSize(queue[1..])
  }

  function AfterSize(hooks: seq<AfterHook>): nat {
    if hooks == [] then 0
    else (if hooks[0].Notify? then 0 else 1 + ScriptSize(hooks[0].script)) + AfterSize(hooks[1..])
  }

  function Flushes(queue: seq<BeforeHook>): nat {
    if queue == [] then 0 else (if queue[0].Flush? then 1 else 0) + Flushes(queue[1..])
  }

  function Notifies(hooks: seq<AfterHook>): nat {
    if hooks == [] then 0 else (if hooks[0].Notify? then 1 else 0) + Notifies(hooks[1..])
  }

  lemma {:induction false} BeforeConcat(a: seq<BeforeHook>, b: seq<BeforeHook>)
    ensures BeforeSize(a + b) == BeforeSize(a) + BeforeSize(b)
    ensures Flushes(a + b) == Flushes(a) + Flushes(b)
    decreases |a|
  {
    if a == [] {
      assert a + b == b;
    } else {
      assert (a + b)[1..] == a[1..] + b;
      BeforeConcat(a[1..], b);
    }
  }

  lemma {:induction false} AfterConcat(a: seq<AfterHook>, b: seq<AfterHook>)
    ensures AfterSize(a + b) == AfterSize(a) + AfterSize(b)
    ensures Notifies(a + b) == Notifies(a) + Notifies(b)
    decreases |a|
  {
    if a == [] {
      assert a + b == b;
    } else {
      assert (a + b)[1..] == a[1..] + b;
      AfterConcat(a[1..], b);
    }
  }

  lemma BeforeAppend(a: seq<BeforeHook>, h: BeforeHook)
    ensures BeforeSize(a + [h]) == BeforeSize(a) + HookSize(h)
    ensures Flushes(a + [h]) == Flushes(a) + (if h.Flush? then 1 else 0)
  {
    BeforeConcat(a, [h]);
    assert [h][1..] == [];
  }

  lemma AfterAppend(a: seq<AfterHook>, h: AfterHook)
    ensures AfterSize(a + [h]) == AfterSize(a) + (if h.Notify? then 0 else 1 + ScriptSize(h.script))
    ensures Notifies(a + [h]) == Notifies(a) + (if h.Notify? then 1 else 0)
  {
    AfterConcat(a, [h]);
    assert [h][1..] == [];
  }

  function TxSize(t: Tx): nat {
    BeforeSize(t.beforeCommit) + AfterSize(t.afterCommit) + AfterSize(t.afterRollback)
  }

  function Weighs(): Tx -> int {
    t => TxSize(t)
  }

  ghost function Total(txs: map<DataSource, Tx>): int {
    Sum(txs, Weighs())
  }

  /** No hook list has lost anything. */
  ghost predicate Extends(t: Tx, t': Tx) {
    t.beforeCommit <= t'.beforeCommit && t.afterCommit <= t'.afterCommit && t.afterRollback <= t'.afterRollback
  }

  /** The same transactions are visible, with more hooks, of at most `size` together. */
  ghost predicate Grew(txs: map<DataSource, Tx>, txs': map<DataSource, Tx>, size: nat) {
    && txs'.Keys == txs.Keys
    && (forall d | d in txs :: Extends(txs[d], txs'[d]))
    && Total(txs') <= Total(txs) + size
  }

  lemma GrewNot(txs: map<DataSource, Tx>, size: nat)
    ensures Grew(txs, txs, size)
  {
  }

  lemma GrewTwice(a: map<DataSource, Tx>, b: map<DataSource, Tx>, c: map<DataSource, Tx>, m: nat, n: nat)
    requires Grew(a, b, m) && Grew(b, c, n)
    ensures Grew(a, c, m + n)
  {
    hide Total;
  }

  lemma GrewLess(a: map<DataSource, Tx>, b: map<DataSource, Tx>, m: nat, n: nat)
    requires Grew(a, b, m) && m <= n
    ensures Grew(a, b, n)
  {
  }

  lemma GrewOne(txs: map<DataSource, Tx>, d: DataSource, t: Tx, size: nat)
    requires d in txs && Extends(txs[d], t) && TxSize(t) <= TxSize(txs[d]) + size
    ensures Grew(txs, txs[d := t], size)
  {
    hide BeforeSize, AfterSize;
    SumSet(txs, d, t, Weighs());
  }

  lemma ExtendsSizes(t: Tx, t': Tx)
    requires Extends(t, t')
    ensures TxSize(t) <= TxSize(t')
  {
    assert t'.beforeCommit == t.beforeCommit + t'.beforeCommit[|t.beforeCommit|..];
    assert t'.afterCommit == t.afterCommit + t'.afterCommit[|t.afterCommit|..];
    assert t'.afterRollback == t.afterRollback + t'.afterRollback[|t.afterRollback|..];
    BeforeConcat(t.beforeCommit, t'.beforeCommit[|t.beforeCommit|..]);
    AfterConcat(t.afterCommit, t'.afterCommit[|t.afterCommit|..]);
    AfterConcat(t.afterRollback, t'.afterRollback[|t.afterRollback|..]);
  }

  /** Whatever grew as a whole: one transaction and the rest. */
  lemma {:induction false} GrewApart(txs: map<DataSource, Tx>, txs': map<DataSource, Tx>, d: DataSource, size: nat)
    requires Grew(txs, txs', size) && d in txs
    ensures TxSize(txs'[d]) + Total(txs' - {d}) <= TxSize(txs[d]) + Total(txs - {d}) + size
    ensures TxSize(txs'[d]) <= TxSize(txs[d]) + size
    ensures Total(txs - {d}) <= Total(txs' - {d})
  {
    hide BeforeSize, AfterSize;
    SumRemove(txs, d, Weighs());
    SumRemove(txs', d, Weighs());
    forall c | c in txs - {d} ensures TxSize((txs - {d})[c]) <= TxSize((txs' - {d})[c]) {
      ExtendsSizes(txs[c], txs'[c]);
    }
    SumMonotone(txs - {d}, txs' - {d}, Weighs());
  }

  // The steps.

  function Buffer(t: Tx): seq<Event> {
    if t.pending.Some? then t.pending.value else []
  }

  function BufferIn(t: Tx, e: Event): Tx {
    t.(pending := Some(Buffer(t) + [e]),
       beforeCommit := if t.pending.None? then t.beforeCommit + [Flush] else t.beforeCommit,
       accepted := t.accepted + [e])
  }

  function Put(s: State, d: DataSource, t: Tx): State {
    s.(txs := s.txs[d := t])
  }

  /** `schedule`, then `scheduleForPublication`: once per event object, and in vain
      where no transaction of the outbox's dataSource is visible. */
  function ScheduleIn(w: Outside, s: State, e: Event): State {
    if e in s.bus.scheduled then s
    else
      var s' := s.(bus := s.bus.(scheduled := s.bus.scheduled + {e}));
      if !e.externalized then s'
      else if w.home !in s.txs then s'.(bus := s'.bus.(dropped := s'.bus.dropped + [e]))
      else Put(s', w.home, BufferIn(s.txs[w.home], e))
  }

  function AddIn(t: Tx, e: Event, origin: Origin): Tx {
    t.(rows := t.rows + [Message(e, origin)],
       added := t.added + 1,
       notifying := true,
       afterCommit := if t.notifying then t.afterCommit else t.afterCommit + [Notify])
  }

  function Raised(s: State, classes: set<ErrorClass>): Ran {
    Ran(s.(bus := s.bus.(errors := s.bus.errors + 1)), Fail(Object(Fresh(s.bus.errors), classes)))
  }

  /** `publish`. */
  function PublishIn(w: Outside, s: State, e: Event, origin: Origin): Ran {
    if w.home !in s.txs then Raised(s, {ILLEGAL_STATE})
    else
      var s' := s.(bus := s.bus.(calls := s.bus.calls + 1));
      match w.refuses(s.bus.calls)
      case Some(error) => Ran(s', Fail(error))
      case None => Ran(Put(s', w.home, AddIn(s.txs[w.home], e, origin)), Ok)
  }

  function Pushed(t: Tx, phase: Phase, hook: Script): Tx {
    match phase
    case BeforeCommit => t.(beforeCommit := t.beforeCommit + [Other(hook)])
    case AfterCommit => t.(afterCommit := t.afterCommit + [After(hook)])
    case AfterRollback => t.(afterRollback := t.afterRollback + [After(hook)])
  }

  function HookIn(s: State, d: DataSource, phase: Phase, hook: Script): State {
    if d in s.txs then Put(s, d, Pushed(s.txs[d], phase, hook)) else s
  }

  lemma ScheduleGrows(w: Outside, s: State, e: Event)
    ensures Grew(s.txs, ScheduleIn(w, s, e).txs, 2)
  {
    GrewNot(s.txs, 2);
    if w.home in s.txs {
      var t := s.txs[w.home];
      BeforeAppend(t.beforeCommit, Flush);
      GrewOne(s.txs, w.home, BufferIn(t, e), 2);
    }
  }

  lemma PublishGrows(w: Outside, s: State, e: Event, origin: Origin)
    ensures Grew(s.txs, PublishIn(w, s, e, origin).state.txs, 0)
    ensures forall d | d in s.txs :: PublishIn(w, s, e, origin).state.txs[d].beforeCommit == s.txs[d].beforeCommit
  {
    GrewNot(s.txs, 0);
    if w.home in s.txs {
      var t := s.txs[w.home];
      AfterAppend(t.afterCommit, Notify);
      GrewOne(s.txs, w.home, AddIn(t, e, origin), 0);
    }
  }

  lemma HookGrows(s: State, d: DataSource, phase: Phase, hook: Script)
    ensures Grew(s.txs, HookIn(s, d, phase, hook).txs, 1 + ScriptSize(hook))
  {
    GrewNot(s.txs, 1 + ScriptSize(hook));
    if d in s.txs {
      var t := s.txs[d];
      BeforeAppend(t.beforeCommit, Other(hook));
      AfterAppend(t.afterCommit, After(hook));
      AfterAppend(t.afterRollback, After(hook));
      GrewOne(s.txs, d, Pushed(t, phase, hook), 1 + ScriptSize(hook));
    }
  }

  function Perform(w: Outside, s: State, script: Script): (r: Ran)
    ensures Grew(s.txs, r.state.txs, ScriptSize(script))
    decreases ScriptSize(script), 1
  {
    GrewNot(s.txs, 0);
    if script.Done? then Ran(s, Ok)
    else
      var r := ActIn(w, s, script.act);
      GrewLess(s.txs, r.state.txs, ActSize(script.act), ScriptSize(script));
      if r.outcome.Fail? then r
      else
        var r' := Perform(w, r.state, script.rest);
        GrewTwice(s.txs, r.state.txs, r'.state.txs, ActSize(script.act), ScriptSize(script.rest));
        r'
  }

  function ActIn(w: Outside, s: State, act: Act): (r: Ran)
    ensures Grew(s.txs, r.state.txs, ActSize(act))
    decreases ActSize(act), 0
  {
    GrewNot(s.txs, ActSize(act));
    match act
    case Schedule(e) =>
      ScheduleGrows(w, s, e);
      Ran(ScheduleIn(w, s, e), Ok)
    case Publish(e) =>
      PublishGrows(w, s, e, Direct);
      PublishIn(w, s, e, Direct)
    case Hook(d, phase, hook) =>
      HookGrows(s, d, phase, hook);
      Ran(HookIn(s, d, phase, hook), Ok)
    case Within(o, body) =>
      WithinIn(w, s, o, body)
    case Try(body, handler) =>
      var r := Perform(w, s, body);
      if r.outcome.Ok? then r
      else
        var r' := Perform(w, r.state, handler);
        GrewTwice(s.txs, r.state.txs, r'.state.txs, ScriptSize(body), ScriptSize(handler));
        r'
    case Raise(error) => Ran(s, Fail(error))
    case RaiseFresh(classes) => Raised(s, classes)
  }

  /** `run`, mode by mode. */
  function WithinIn(w: Outside, s: State, o: Options, body: Script): (r: Ran)
    ensures Grew(s.txs, r.state.txs, Budget(Attempts(o.retry), ScriptSize(body)))
    decreases Budget(Attempts(o.retry), ScriptSize(body)), 6
  {
    var d := o.dataSource;
    GrewNot(s.txs, Budget(Attempts(o.retry), ScriptSize(body)));
    if w.env.misses(d).Some? then Raised(s, {w.env.misses(d).value})
    else
      match o.propagation
      case REQUIRED => if d in s.txs then Perform(w, s, body) else StartIn(w, s, o, body)
      case REQUIRES_NEW =>
        if d in s.txs then
          var r := StartIn(w, Apart(s, d), o, body);
          ApartGrows(s, d, r.state, Budget(Attempts(o.retry), ScriptSize(body)));
          Ran(Resumed(r.state, d, s.txs[d]), r.outcome)
        else StartIn(w, s, o, body)
      case NESTED =>
        if d !in s.txs then StartIn(w, s, o, body)
        else if d !in w.env.savepoints then Raised(s, {ILLEGAL_STATE})
        else
          var r := Perform(w, s, body);
          CutBackGrows(s, r, o, ScriptSize(body));
          CutBack(s, r, o)
      case SUPPORTS => Perform(w, s, body)
      case NOT_SUPPORTED =>
        if d in s.txs then
          var r := Perform(w, Apart(s, d), body);
          ApartGrows(s, d, r.state, ScriptSize(body));
          Ran(Resumed(r.state, d, s.txs[d]), r.outcome)
        else Perform(w, s, body)
      case NEVER => if d in s.txs then Raised(s, {ILLEGAL_STATE}) else Perform(w, s, body)
      case MANDATORY => if d in s.txs then Perform(w, s, body) else Raised(s, {ILLEGAL_STATE})
  }

  /** The transaction on `d` is suspended, and resumed. */
  function Apart(s: State, d: DataSource): State {
    s.(txs := s.txs - {d})
  }

  function Resumed(s: State, d: DataSource, t: Tx): State {
    Put(s, d, t)
  }

  lemma {:induction false} ApartGrows(s: State, d: DataSource, s': State, size: nat)
    requires d in s.txs && Grew(Apart(s, d).txs, s'.txs, size)
    ensures Grew(s.txs, Resumed(s', d, s.txs[d]).txs, size)
  {
    hide BeforeSize, AfterSize;
    SumRemove(s.txs, d, Weighs());
    SumSet(s'.txs, d, s.txs[d], Weighs());
  }

  /** A NESTED part rolled back: its rows go; hooks and buffer stay. */
  function CutBack(s: State, r: Ran, o: Options): Ran
    requires o.dataSource in s.txs && o.dataSource in r.state.txs
  {
    var t, t' := s.txs[o.dataSource], r.state.txs[o.dataSource];
    if r.outcome.Fail? && ShouldRollback(r.outcome.error, o) && |t.rows| <= |t'.rows|
    then Ran(Put(r.state, o.dataSource, t'.(rows := t'.rows[..|t.rows|])), r.outcome)
    else r
  }

  lemma {:induction false} CutBackGrows(s: State, r: Ran, o: Options, size: nat)
    requires o.dataSource in s.txs && Grew(s.txs, r.state.txs, size)
    ensures Grew(s.txs, CutBack(s, r, o).state.txs, size)
  {
    var d := o.dataSource;
    var t, t' := s.txs[d], r.state.txs[d];
    if |t.rows| <= |t'.rows| {
      GrewOne(r.state.txs, d, t'.(rows := t'.rows[..|t.rows|]), 0);
      GrewTwice(s.txs, r.state.txs, r.state.txs[d := t'.(rows := t'.rows[..|t.rows|])], size, 0);
    }
  }

  function StartIn(w: Outside, s: State, o: Options, body: Script): (r: Ran)
    requires o.dataSource !in s.txs
    ensures Grew(s.txs, r.state.txs, Budget(Attempts(o.retry), ScriptSize(body)))
    decreases Budget(Attempts(o.retry), ScriptSize(body)), 5
  {
    GrewNot(s.txs, Budget(Attempts(o.retry), ScriptSize(body)));
    if ValidRetry(o.retry) then AttemptIn(w, s, Attempts(o.retry), o, body) else Raised(s, {TYPE_ERROR})
  }

  /** The transaction rolled back, the error is retryable, and attempts remain. */
  predicate Repeats(k: nat, o: Options, r: Ran) {
    && r.outcome.Fail? && k > 1 && r.outcome.error.Object? && r.outcome.error.id in r.state.bus.marked
    && Retryable(r.outcome.error, o.retry)
  }

  function AttemptIn(w: Outside, s: State, k: nat, o: Options, body: Script): (r: Ran)
    requires o.dataSource !in s.txs && 1 <= k
    ensures Grew(s.txs, r.state.txs, Budget(k, ScriptSize(body)))
    decreases Budget(k, ScriptSize(body)), 4
  {
    var r := TransactIn(w, s, o, body);
    GrewLess(s.txs, r.state.txs, ScriptSize(body), Budget(k, ScriptSize(body)));
    if !Repeats(k, o, r) then r
    else
      var r' := AttemptIn(w, r.state, k - 1, o, body);
      GrewTwice(s.txs, r.state.txs, r'.state.txs, ScriptSize(body), Budget(k - 1, ScriptSize(body)));
      GrewLess(s.txs, r'.state.txs, ScriptSize(body) + Budget(k - 1, ScriptSize(body)), Budget(k, ScriptSize(body)));
      r'
  }

  function AddAll(w: Outside, s: State, events: seq<Event>): (r: Ran)
    ensures Grew(s.txs, r.state.txs, 0)
    ensures forall d | d in s.txs :: r.state.txs[d].beforeCommit == s.txs[d].beforeCommit
    decreases |events|
  {
    GrewNot(s.txs, 0);
    if events == [] then Ran(s, Ok)
    else
      var r := PublishIn(w, s, events[0], Flushed);
      PublishGrows(w, s, events[0], Flushed);
      if r.outcome.Fail? then r
      else
        var r' := AddAll(w, r.state, events[1..]);
        GrewTwice(s.txs, r.state.txs, r'.state.txs, 0, 0);
        r'
  }

  function Unbuffered(s: State, d: DataSource): State
    requires d in s.txs
  {
    Put(s, d, s.txs[d].(pending := None))
  }

  lemma UnbufferedGrows(s: State, d: DataSource)
    requires d in s.txs
    ensures Grew(s.txs, Unbuffered(s, d).txs, 0)
  {
    GrewOne(s.txs, d, s.txs[d].(pending := None), 0);
  }

  /** The hook `scheduleForPublication` pushes on the transaction of `d`: it empties the
      buffer first, so that a later event arms a new one. */
  function FlushIn(w: Outside, s: State, d: DataSource): (r: Ran)
    requires d in s.txs
    ensures Grew(s.txs, r.state.txs, 0)
    ensures forall c | c in s.txs :: r.state.txs[c].beforeCommit == s.txs[c].beforeCommit
  {
    UnbufferedGrows(s, d);
    var r := AddAll(w, Unbuffered(s, d), Buffer(s.txs[d]));
    GrewTwice(s.txs, Unbuffered(s, d).txs, r.state.txs, 0, 0);
    r
  }

  /** What a loop from hook `next` of the transaction on `d` can still push on others. */
  ghost function Left(txs: map<DataSource, Tx>, d: DataSource, next: nat): int
    requires d in txs && next <= |txs[d].beforeCommit|
  {
    Total(txs - {d}) + AfterSize(txs[d].afterCommit) + AfterSize(txs[d].afterRollback)
      + BeforeSize(txs[d].beforeCommit[next..])
  }

  /** A hook leaves less work than it was. */
  lemma {:induction false} HookShrinks(txs: map<DataSource, Tx>, txs': map<DataSource, Tx>, d: DataSource, next: nat)
    requires d in txs && next < |txs[d].beforeCommit|
    requires Grew(txs, txs', HookSize(txs[d].beforeCommit[next]) - 1)
    ensures next + 1 <= |txs'[d].beforeCommit|
    ensures BeforeSize(txs'[d].beforeCommit[next + 1..]) < BeforeSize(txs[d].beforeCommit[next..])
    ensures Left(txs', d, next + 1) <= Left(txs, d, next)
  {
    hide Total;
    var t, t' := txs[d], txs'[d];
    var q, q' := t.beforeCommit, t'.beforeCommit;
    GrewApart(txs, txs', d, HookSize(q[next]) - 1);
    assert q == q[..next + 1] + q[next + 1..] && q' == q'[..next + 1] + q'[next + 1..];
    assert q'[..next + 1] == q[..next + 1];
    BeforeConcat(q[..next + 1], q[next + 1..]);
    BeforeConcat(q'[..next + 1], q'[next + 1..]);
    assert q[next..][1..] == q[next + 1..];
    assert t'.afterCommit == t.afterCommit + t'.afterCommit[|t.afterCommit|..];
    assert t'.afterRollback == t.afterRollback + t'.afterRollback[|t.afterRollback|..];
    AfterConcat(t.afterCommit, t'.afterCommit[|t.afterCommit|..]);
    AfterConcat(t.afterRollback, t'.afterRollback[|t.afterRollback|..]);
  }

  /** The same transactions are visible, with no hook lost. */
  ghost predicate Retains(txs: map<DataSource, Tx>, txs': map<DataSource, Tx>) {
    txs'.Keys == txs.Keys && forall d | d in txs :: Extends(txs[d], txs'[d])
  }

  /** Hook `next` of the transaction on `d`. */
  function TurnIn(w: Outside, s: State, d: DataSource, next: nat): (r: Ran)
    requires d in s.txs && next < |s.txs[d].beforeCommit|
    ensures Retains(s.txs, r.state.txs) && next + 1 <= |r.state.txs[d].beforeCommit|
    ensures BeforeSize(r.state.txs[d].beforeCommit[next + 1..]) < BeforeSize(s.txs[d].beforeCommit[next..])
    ensures Left(r.state.txs, d, next + 1) <= Left(s.txs, d, next)
    decreases BeforeSize(s.txs[d].beforeCommit[next..]), 2, 0
  {
    var h := s.txs[d].beforeCommit[next];
    var r := match h
      case Flush => FlushIn(w, s, d)
      case Other(script) =>
        assert s.txs[d].beforeCommit[next..][0] == h;
        Perform(w, s, script);
    HookShrinks(s.txs, r.state.txs, d, next);
    r
  }

  /** No more is left than there was, and it is all in the after-phase hooks. */
  ghost predicate Spent(txs: map<DataSource, Tx>, txs': map<DataSource, Tx>, d: DataSource, next: nat)
    requires d in txs && next <= |txs[d].beforeCommit| && d in txs'
  {
    Total(txs' - {d}) + AfterSize(txs'[d].afterCommit) + AfterSize(txs'[d].afterRollback) <= Left(txs, d, next)
  }

  ghost predicate Looped(txs: map<DataSource, Tx>, txs': map<DataSource, Tx>, d: DataSource, next: nat)
    requires d in txs && next <= |txs[d].beforeCommit|
  {
    Retains(txs, txs') && Spent(txs, txs', d, next)
  }

  lemma LoopedNot(txs: map<DataSource, Tx>, d: DataSource, next: nat)
    requires d in txs && next <= |txs[d].beforeCommit|
    ensures Looped(txs, txs, d, next)
  {
  }

  lemma LoopedTurn(a: map<DataSource, Tx>, b: map<DataSource, Tx>, d: DataSource, next: nat)
    requires Retains(a, b) && d in a && next < |a[d].beforeCommit|
    requires next + 1 <= |b[d].beforeCommit| && Left(b, d, next + 1) <= Left(a, d, next)
    ensures Looped(a, b, d, next)
    ensures forall c: map<DataSource, Tx> :: Looped(b, c, d, next + 1) ==> Looped(a, c, d, next)
  {
  }

  /** The live loop over the before-commit hooks, from index `next`. */
  function LoopIn(w: Outside, s: State, d: DataSource, next: nat): (r: Ran)
    requires d in s.txs && next <= |s.txs[d].beforeCommit|
    ensures Looped(s.txs, r.state.txs, d, next)
    decreases BeforeSize(s.txs[d].beforeCommit[next..]), 2, 1
  {
    if next == |s.txs[d].beforeCommit| then
      LoopedNot(s.txs, d, next);
      Ran(s, Ok)
    else
      var r := TurnIn(w, s, d, next);
      LoopedTurn(s.txs, r.state.txs, d, next);
      if r.outcome.Fail? then r else LoopIn(w, r.state, d, next + 1)
  }

  function NewTx(): Tx {
    Tx([], [], [], [], None, false, [], 0)
  }

  /** BEGIN has worked. */
  function BeginIn(s: State, d: DataSource): State {
    State(s.bus.(clock := s.bus.clock + 1, begun := s.bus.begun + 1), s.txs[d := NewTx()])
  }

  datatype Called = Called(bodyEnded: Outcome, ran: Ran)

  /** A callback whose transaction can be closed within the budget of its body. */
  ghost predicate Affordable(before: State, s: State, d: DataSource, size: nat) {
    && d !in before.txs && s.txs.Keys == before.txs.Keys + {d}
    && (forall c | c in before.txs :: Extends(before.txs[c], s.txs[c]))
    && Total(s.txs - {d}) + AfterSize(s.txs[d].afterCommit) + AfterSize(s.txs[d].afterRollback)
       <= Total(before.txs) + size
  }

  /** The callback of BEGIN: body, then, if it completes, the live loop. */
  function CallbackIn(w: Outside, s: State, d: DataSource, body: Script): (c: Called)
    requires d !in s.txs
    ensures Affordable(s, c.ran.state, d, ScriptSize(body))
    decreases ScriptSize(body), 2, 2
  {
    var b := Perform(w, BeginIn(s, d), body);
    CallbackBudget(s, d, b.state, ScriptSize(body));
    if b.outcome.Fail? then
      CallbackAffords(s, d, b.state, b.state, ScriptSize(body));
      Called(b.outcome, b)
    else
      assert b.state.txs[d].beforeCommit[0..] == b.state.txs[d].beforeCommit;
      var c := LoopIn(w, b.state, d, 0);
      CallbackAffords(s, d, b.state, c.state, ScriptSize(body));
      Called(b.outcome, c)
  }

  lemma {:induction false} CallbackAffords(before: State, d: DataSource, s: State, s': State, size: nat)
    requires d !in before.txs && Grew(BeginIn(before, d).txs, s.txs, size)
    requires Left(s.txs, d, 0) <= Total(before.txs) + size
    requires s' == s || Looped(s.txs, s'.txs, d, 0)
    ensures Affordable(before, s', d, size)
  {
    hide Total;
    LoopedNot(s.txs, d, 0);
    forall c | c in before.txs ensures Extends(before.txs[c], s'.txs[c]) {
      assert BeginIn(before, d).txs[c] == before.txs[c];
      assert Extends(before.txs[c], s.txs[c]);
    }
  }

  /** One transaction: BEGIN, callback, COMMIT or ROLLBACK, after-phase hooks. */
  function TransactIn(w: Outside, s: State, o: Options, body: Script): (r: Ran)
    requires o.dataSource !in s.txs
    ensures Grew(s.txs, r.state.txs, ScriptSize(body))
    decreases ScriptSize(body), 3
  {
    match w.env.signal(s.bus.clock)
    case Fault(classes) =>
      GrewNot(s.txs, ScriptSize(body));
      var r := Raised(s.(bus := s.bus.(clock := s.bus.clock + 1)), classes);
      Ran(Marked(r.state, r.outcome.error), r.outcome)
    case Proceed =>
      var c := CallbackIn(w, s, o.dataSource, body);
      SettleIn(w, s, o, ScriptSize(body), c)
  }

  lemma {:induction false} CallbackBudget(s: State, d: DataSource, s': State, size: nat)
    requires d !in s.txs && Grew(BeginIn(s, d).txs, s'.txs, size)
    ensures Left(s'.txs, d, 0) <= Total(s.txs) + size
    ensures BeforeSize(s'.txs[d].beforeCommit) <= size
  {
    SumSet(s.txs, d, NewTx(), Weighs());
    SumRemove(s'.txs, d, Weighs());
    GrewApart(BeginIn(s, d).txs, s'.txs, d, size);
    assert s'.txs[d].beforeCommit[0..] == s'.txs[d].beforeCommit;
    SizesOf(NewTx());
    SizesOf(s'.txs[d]);
  }

  lemma SizesOf(t: Tx)
    ensures TxSize(t) == BeforeSize(t.beforeCommit) + AfterSize(t.afterCommit) + AfterSize(t.afterRollback)
  {
  }

  function Marked(s: State, error: Error): State {
    if error.Object? then s.(bus := s.bus.(marked := s.bus.marked + {error.id})) else s
  }

  /** COMMIT or ROLLBACK of the callback `c`, with the transaction gone; an error that
      does not roll back commits, as far as COMMIT works. */
  function SettleIn(w: Outside, ghost before: State, o: Options, ghost size: nat, c: Called): (r: Ran)
    requires Affordable(before, c.ran.state, o.dataSource, size)
    ensures Grew(before.txs, r.state.txs, size)
    decreases size, 2
  {
    var d, outcome := o.dataSource, c.ran.outcome;
    var t, s := c.ran.state.txs[d], Apart(c.ran.state, d);
    ClosedBudget(before, c.ran.state, d, size);
    if outcome.Fail? && ShouldRollback(outcome.error, o)
    then RollBackIn(w, before, s, Finished(o, t, c.bodyEnded, outcome, false), outcome.error, size)
    else
      var asked := s.(bus := s.bus.(clock := s.bus.clock + 1));
      match w.env.signal(s.bus.clock)
      case Fault(classes) =>
        var failed := Raised(asked, classes);
        RollBackIn(w, before, failed.state, Finished(o, t, c.bodyEnded, outcome, false), failed.outcome.error, size)
      case Proceed =>
        CommitIn(w, before, asked, Finished(o, t, c.bodyEnded, outcome, true), size)
  }

  lemma {:induction false} ClosedBudget(before: State, s: State, d: DataSource, size: nat)
    requires Affordable(before, s, d, size)
    ensures var t := s.txs[d];
            && AfterSize(t.afterCommit) <= size && AfterSize(t.afterRollback) <= size
            && Grew(before.txs, Apart(s, d).txs, size - AfterSize(t.afterCommit))
            && Grew(before.txs, Apart(s, d).txs, size - AfterSize(t.afterRollback))
  {
    hide BeforeSize, AfterSize;
    forall c | c in before.txs ensures TxSize(before.txs[c]) <= TxSize(Apart(s, d).txs[c]) {
      ExtendsSizes(before.txs[c], s.txs[c]);
    }
    SumMonotone(before.txs, Apart(s, d).txs, Weighs());
  }

  function RollBackIn(w: Outside, ghost before: State, s: State, f: Finished, error: Error, ghost size: nat): (r: Ran)
    requires AfterSize(f.tx.afterRollback) <= size && Grew(before.txs, s.txs, size - AfterSize(f.tx.afterRollback))
    ensures Grew(before.txs, r.state.txs, size)
    decreases AfterSize(f.tx.afterRollback), 1
  {
    var s' := AfterIn(w, s.(bus := s.bus.(finished := s.bus.finished + [f])), f.tx.afterRollback);
    GrewTwice(before.txs, s.txs, s'.txs, size - AfterSize(f.tx.afterRollback), AfterSize(f.tx.afterRollback));
    Ran(Marked(s', error), Fail(error))
  }

  function CommitIn(w: Outside, ghost before: State, s: State, f: Finished, ghost size: nat): (r: Ran)
    requires AfterSize(f.tx.afterCommit) <= size && Grew(before.txs, s.txs, size - AfterSize(f.tx.afterCommit))
    ensures Grew(before.txs, r.state.txs, size)
    decreases AfterSize(f.tx.afterCommit), 1
  {
    var bus := s.bus.(finished := s.bus.finished + [f], durable := s.bus.durable + f.tx.rows);
    var s' := AfterIn(w, s.(bus := bus), f.tx.afterCommit);
    GrewTwice(before.txs, s.txs, s'.txs, size - AfterSize(f.tx.afterCommit), AfterSize(f.tx.afterCommit));
    Ran(s', f.ended)
  }

  /** After-phase hooks all run, whatever the earlier ones threw. */
  function AfterIn(w: Outside, s: State, hooks: seq<AfterHook>): (s': State)
    ensures Grew(s.txs, s'.txs, AfterSize(hooks))
    decreases AfterSize(hooks), 0, |hooks|
  {
    GrewNot(s.txs, 0);
    if hooks == [] then s
    else
      match hooks[0]
      case Notify => AfterIn(w, s.(bus := s.bus.(notifications := s.bus.notifications + 1)), hooks[1..])
      case After(script) =>
        var r := Perform(w, s, script);
        var s' := AfterIn(w, r.state, hooks[1..]);
        GrewTwice(s.txs, r.state.txs, s'.txs, ScriptSize(script), AfterSize(hooks[1..]));
        GrewLess(s.txs, s'.txs, ScriptSize(script) + AfterSize(hooks[1..]), AfterSize(hooks));
        s'
  }
}
