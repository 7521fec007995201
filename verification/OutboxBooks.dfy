/** The books of the outbox: what every step keeps of the events scheduled and published. */
module OutboxBooks {
  import opened Wrappers
  import opened Programs
  import opened Outboxes

  /** The events the flush hook added, in the order of their messages. */
  function FlushedOf(rows: seq<Message>): seq<Event> {
    if rows == [] then []
    else (if rows[0].origin.Flushed? then [rows[0].event] else []) + FlushedOf(rows[1..])
  }

  lemma {:induction false} FlushedConcat(a: seq<Message>, b: seq<Message>)
    ensures FlushedOf(a + b) == FlushedOf(a) + FlushedOf(b)
  {
    if a == [] {
      assert a + b == b;
    } else {
      var head := if a[0].origin.Flushed? then [a[0].event] else [];
      assert (a + b)[1..] == a[1..] + b && (a + b)[0] == a[0];
      FlushedConcat(a[1..], b);
      assert head + (FlushedOf(a[1..]) + FlushedOf(b)) == head + FlushedOf(a[1..]) + FlushedOf(b);
    }
  }

  lemma {:induction false} FlushedAppend(rows: seq<Message>, m: Message)
    ensures FlushedOf(rows + [m]) == FlushedOf(rows) + (if m.origin.Flushed? then [m.event] else [])
  {
    FlushedConcat(rows, [m]);
    assert [m][1..] == [];
  }

  // The books of one transaction.

  /** What the flush hook added, what it holds and the buffer make up `accepted`. */
  ghost predicate Balanced(rows: seq<Message>, inFlight: seq<Event>, buffer: seq<Event>, accepted: seq<Event>) {
    FlushedOf(rows) + inFlight + buffer == accepted
  }

  lemma BalancedBuffer(rows: seq<Message>, buffer: seq<Event>, accepted: seq<Event>, e: Event)
    requires Balanced(rows, [], buffer, accepted)
    ensures Balanced(rows, [], buffer + [e], accepted + [e])
  {
    assert FlushedOf(rows) + [] + (buffer + [e]) == FlushedOf(rows) + [] + buffer + [e];
  }

  lemma BalancedTake(rows: seq<Message>, buffer: seq<Event>, accepted: seq<Event>)
    requires Balanced(rows, [], buffer, accepted)
    ensures Balanced(rows, buffer, [], accepted)
  {
    assert FlushedOf(rows) + [] + buffer == FlushedOf(rows) + buffer + [];
  }

  lemma BalancedAdd(rows: seq<Message>, inFlight: seq<Event>, buffer: seq<Event>, accepted: seq<Event>, e: Event)
    requires Balanced(rows, inFlight, buffer, accepted)
    ensures FlushedOf(rows + [Message(e, Direct)]) == FlushedOf(rows)
    ensures Balanced(rows + [Message(e, Direct)], inFlight, buffer, accepted)
    ensures inFlight != [] && inFlight[0] == e ==>
              Balanced(rows + [Message(e, Flushed)], inFlight[1..], buffer, accepted)
  {
    FlushedAppend(rows, Message(e, Direct));
    FlushedAppend(rows, Message(e, Flushed));
    assert FlushedOf(rows) + [] == FlushedOf(rows);
    if inFlight != [] && inFlight[0] == e {
      assert FlushedOf(rows) + inFlight == FlushedOf(rows) + [e] + inFlight[1..];
    }
  }

  lemma BalancedMeans(rows: seq<Message>, inFlight: seq<Event>, buffer: seq<Event>, accepted: seq<Event>)
    requires Balanced(rows, inFlight, buffer, accepted)
    ensures FlushedOf(rows) <= accepted
    ensures FlushedOf(rows) == accepted <==> inFlight == [] && buffer == []
  {
    assert |FlushedOf(rows) + inFlight + buffer| == |FlushedOf(rows)| + |inFlight| + |buffer|;
    assert FlushedOf(rows) + [] + [] == FlushedOf(rows);
  }

  /** Nothing is lost and nothing is doubled: the flushed rows, what the flush hook
      holds and the buffer make up what was accepted; the buffer is armed by exactly
      one flush hook still to run; the first message ever added armed the one
      notification. */
  ghost predicate Books(t: Tx, next: nat, inFlight: seq<Event>) {
    && next <= |t.beforeCommit|
    && Flushes(t.beforeCommit[next..]) == (if t.pending.Some? then 1 else 0)
    && Balanced(t.rows, inFlight, Buffer(t), t.accepted)
    && t.notifying == (t.added > 0)
    && Notifies(t.afterCommit) == (if t.notifying then 1 else 0) && Notifies(t.afterRollback) == 0
    && (t.rows != [] ==> t.added > 0)
  }

  /** The outbox has nothing on a transaction of another dataSource. */
  predicate Untouched(t: Tx) {
    t.rows == [] && t.pending.None? && t.accepted == [] && t.added == 0
  }

  /** A run with these options can begin a transaction. */
  predicate CanBegin(o: Options) {
    (o.propagation.REQUIRED? || o.propagation.REQUIRES_NEW? || o.propagation.NESTED?) && ValidRetry(o.retry)
  }

  /** Of a transaction that has ended: the flushed messages are the first of what it
      accepted, all of it when its hooks completed, none when its body threw; one
      notification was armed if and only if a message was ever added; and it
      committed only without an error that rolls back. */
  ghost predicate Sound(w: Outside, f: Finished) {
    && (exists left :: FlushedOf(f.tx.rows) + left + Buffer(f.tx) == f.tx.accepted)
    && (f.ended.Ok? ==> FlushedOf(f.tx.rows) == f.tx.accepted)
    && (f.bodyEnded.Fail? ==> f.ended == f.bodyEnded && FlushedOf(f.tx.rows) == [])
    && Notifies(f.tx.afterCommit) == (if f.tx.added > 0 then 1 else 0) && Notifies(f.tx.afterRollback) == 0
    && (f.tx.rows != [] ==> f.tx.added > 0)
    && (f.committed && f.ended.Fail? ==> !ShouldRollback(f.ended.error, f.options))
    && (f.options.dataSource != w.home ==> Untouched(f.tx))
    && CanBegin(f.options)
  }

  /** The rows of the committed transactions, in the order of their commits. */
  function Durable(finished: seq<Finished>): seq<Message> {
    if finished == [] then []
    else
      var last := finished[|finished| - 1];
      Durable(finished[..|finished| - 1]) + if last.committed then last.tx.rows else []
  }

  /** The committed transactions that added a message. */
  function Notified(finished: seq<Finished>): int {
    if finished == [] then 0
    else
      var last := finished[|finished| - 1];
      Notified(finished[..|finished| - 1]) + Owes(last)
  }

  function Owes(f: Finished): int {
    if f.committed && f.tx.added > 0 then 1 else 0
  }

  function AcceptedBy(finished: seq<Finished>): multiset<Event> {
    if finished == [] then multiset{}
    else AcceptedBy(finished[..|finished| - 1]) + multiset(finished[|finished| - 1].tx.accepted)
  }

  ghost predicate SoundBus(w: Outside, bus: Bus) {
    && (forall i | 0 <= i < |bus.finished| :: Sound(w, bus.finished[i]))
    && bus.durable == Durable(bus.finished)
  }

  function At(next: map<DataSource, nat>, d: DataSource): nat {
    if d in next then next[d] else 0
  }

  /** The books of the visible transactions, whose loops have come to `next`, and of
      those that have ended. */
  ghost predicate Kept(w: Outside, s: State, next: map<DataSource, nat>, except: set<DataSource>) {
    && SoundBus(w, s.bus)
    && forall d | d in s.txs ::
         && (d !in except ==> Books(s.txs[d], At(next, d), []))
         && (d != w.home ==> Untouched(s.txs[d]))
  }

  // Every externalized event once.

  function AcceptedAt(w: Outside, txs: map<DataSource, Tx>): seq<Event> {
    if w.home in txs then txs[w.home].accepted else []
  }

  /** Where the externalized events are that the bus has scheduled. */
  function Placed(w: Outside, s: State): multiset<Event> {
    AcceptedBy(s.bus.finished) + multiset(s.bus.dropped) + multiset(AcceptedAt(w, s.txs))
  }

  function News(scheduled: set<Event>, scheduled': set<Event>): set<Event> {
    set e | e in scheduled' && e !in scheduled && e.externalized
  }

  /** Of the events scheduled between `s` and `s'`, each externalized one was accepted
      by one transaction or dropped, once, and nothing else was. */
  ghost predicate Accounted(w: Outside, s: State, s': State) {
    && s.bus.scheduled <= s'.bus.scheduled
    && Placed(w, s') == Placed(w, s) + multiset(News(s.bus.scheduled, s'.bus.scheduled))
  }

  lemma NewsTwice(a: set<Event>, b: set<Event>, c: set<Event>)
    requires a <= b <= c
    ensures multiset(News(a, c)) == multiset(News(a, b)) + multiset(News(b, c))
  {
    assert News(a, c) == News(a, b) + News(b, c);
  }

  lemma AccountedTwice(w: Outside, s: State, s': State, s'': State)
    requires Accounted(w, s, s') && Accounted(w, s', s'')
    ensures Accounted(w, s, s'')
  {
    hide Placed, News;
    NewsTwice(s.bus.scheduled, s'.bus.scheduled, s''.bus.scheduled);
  }

  lemma AccountedIdle(w: Outside, s: State, s': State)
    requires s'.bus.scheduled == s.bus.scheduled && Placed(w, s') == Placed(w, s)
    ensures Accounted(w, s, s')
  {
    assert News(s.bus.scheduled, s'.bus.scheduled) == {};
  }

  lemma ScheduleIsAccounted(w: Outside, s: State, e: Event)
    ensures Accounted(w, s, ScheduleIn(w, s, e))
  {
    var s' := ScheduleIn(w, s, e);
    if e in s.bus.scheduled {
      AccountedIdle(w, s, s);
    } else {
      assert News(s.bus.scheduled, s'.bus.scheduled) == if e.externalized then {e} else {};
    }
  }

  // The steps keep the books.

  /** What a piece of a body or of a hook does to a transaction around it: what it adds
      itself is direct, and rows added before it stay. */
  ghost predicate AddsDirectly(t: Tx, t': Tx) {
    t.rows <= t'.rows && FlushedOf(t'.rows) == FlushedOf(t.rows)
  }

  /** What was accepted stays so, and what is durable. */
  ghost predicate Lasting(s: State, s': State) {
    && s.bus.durable <= s'.bus.durable
    && forall d | d in s.txs && d in s'.txs :: s.txs[d].accepted <= s'.txs[d].accepted
  }

  lemma LastingTwice(s: State, s': State, s'': State)
    requires Lasting(s, s') && Lasting(s', s'') && s'.txs.Keys == s.txs.Keys
    ensures Lasting(s, s'')
  {
  }

  /** From `s` to `s'` the books were kept, and `told` more notifications were sent than
      transactions ended that owe one. */
  ghost predicate Did(w: Outside, s: State, s': State, next: map<DataSource, nat>, except: set<DataSource>, told: int) {
    && s'.txs.Keys == s.txs.Keys
    && Kept(w, s', next, except) && Accounted(w, s, s') && Lasting(s, s')
    && (forall d | d in s.txs && d !in except :: AddsDirectly(s.txs[d], s'.txs[d]))
    && s'.bus.notifications + Notified(s.bus.finished) == s.bus.notifications + Notified(s'.bus.finished) + told
  }

  lemma DidTwice(w: Outside, s: State, s': State, s'': State, next: map<DataSource, nat>, except: set<DataSource>,
                 told: int, told': int)
    requires Did(w, s, s', next, except, told) && Did(w, s', s'', next, except, told')
    ensures Did(w, s, s'', next, except, told + told')
  {
    hide Kept, Accounted, FlushedOf, Notified, Lasting;
    AccountedTwice(w, s, s', s'');
    LastingTwice(s, s', s'');
  }

  lemma DidNothing(w: Outside, s: State, next: map<DataSource, nat>)
    requires Kept(w, s, next, {})
    ensures Did(w, s, s, next, {}, 0)
  {
    hide Kept, Placed;
    AccountedIdle(w, s, s);
  }

  lemma DidKept(w: Outside, s: State, s': State, next: map<DataSource, nat>, except: set<DataSource>, told: int)
    requires Did(w, s, s', next, except, told)
    ensures s'.txs.Keys == s.txs.Keys && Kept(w, s', next, except) && Accounted(w, s, s')
  {
  }

  lemma DidLasts(w: Outside, s: State, s': State, next: map<DataSource, nat>, except: set<DataSource>, told: int)
    requires Did(w, s, s', next, except, told)
    ensures s.bus.durable <= s'.bus.durable && s'.txs.Keys == s.txs.Keys
    ensures forall d | d in s.txs :: s.txs[d].accepted <= s'.txs[d].accepted
  {
  }

  /** Only counters of the bus have changed. */
  lemma Counted(w: Outside, s: State, s': State, next: map<DataSource, nat>)
    requires Kept(w, s, next, {}) && s'.txs == s.txs
    requires s'.bus == s.bus.(calls := s'.bus.calls, clock := s'.bus.clock, errors := s'.bus.errors,
                              begun := s'.bus.begun, marked := s'.bus.marked)
    ensures Did(w, s, s', next, {}, 0)
  {
    hide Sound, Books, Durable, FlushedOf, Notified, AcceptedBy;
    AccountedIdle(w, s, s');
  }

  /** One visible transaction changed; its books were kept, unless it is excepted. */
  lemma OneDoes(w: Outside, s: State, s': State, d: DataSource, next: map<DataSource, nat>, except: set<DataSource>)
    requires Kept(w, s, next, except) && d in s.txs && d in s'.txs && s'.txs == s.txs[d := s'.txs[d]]
    requires d !in except ==> Books(s'.txs[d], At(next, d), []) && AddsDirectly(s.txs[d], s'.txs[d])
    requires d != w.home ==> Untouched(s'.txs[d])
    requires s'.bus.finished == s.bus.finished && s'.bus.durable == s.bus.durable
    requires s'.bus.notifications == s.bus.notifications && Accounted(w, s, s')
    requires s.txs[d].accepted <= s'.txs[d].accepted
    ensures Did(w, s, s', next, except, 0)
  {
    hide Sound, Books, Durable, FlushedOf, Notified, Accounted;
  }

  lemma {:induction false} ScheduleDoes(w: Outside, s: State, e: Event, next: map<DataSource, nat>)
    requires Kept(w, s, next, {})
    ensures Did(w, s, ScheduleIn(w, s, e), next, {}, 0)
  {
    hide Balanced, Accounted, Sound, Notifies, FlushedOf, Durable, Notified;
    ScheduleIsAccounted(w, s, e);
    if w.home in s.txs && e !in s.bus.scheduled && e.externalized {
      var t := s.txs[w.home];
      BufferKeepsBooks(t, e, At(next, w.home));
      OneDoes(w, s, ScheduleIn(w, s, e), w.home, next, {});
    }
  }

  lemma {:induction false} BufferKeepsBooks(t: Tx, e: Event, next: nat)
    requires Books(t, next, [])
    ensures Books(BufferIn(t, e), next, [])
  {
    hide Balanced, Notifies;
    BalancedBuffer(t.rows, Buffer(t), t.accepted, e);
    BeforeAppend(t.beforeCommit[next..], Flush);
    assert (t.beforeCommit + [Flush])[next..] == t.beforeCommit[next..] + [Flush];
  }

  lemma {:induction false} AddKeepsBooks(t: Tx, e: Event, origin: Origin, inFlight: seq<Event>, next: nat)
    requires Books(t, next, inFlight)
    requires origin.Flushed? ==> inFlight != [] && inFlight[0] == e
    ensures Books(AddIn(t, e, origin), next, if origin.Flushed? then inFlight[1..] else inFlight)
    ensures origin.Direct? ==> AddsDirectly(t, AddIn(t, e, origin))
    ensures AddIn(t, e, origin).accepted == t.accepted
  {
    hide Balanced, FlushedOf, Flushes;
    BalancedAdd(t.rows, inFlight, Buffer(t), t.accepted, e);
    AfterAppend(t.afterCommit, Notify);
  }

  lemma {:induction false} PublishDoes(w: Outside, s: State, e: Event, next: map<DataSource, nat>)
    requires Kept(w, s, next, {})
    ensures Did(w, s, PublishIn(w, s, e, Direct).state, next, {}, 0)
  {
    hide Books, FlushedOf, Sound, Did, AddsDirectly, AddIn;
    var s' := PublishIn(w, s, e, Direct).state;
    if w.home in s.txs && w.refuses(s.bus.calls).None? {
      AddKeepsBooks(s.txs[w.home], e, Direct, [], At(next, w.home));
      AddPlaces(w, s, e, Direct);
      OneDoes(w, s, s', w.home, next, {});
    } else {
      Counted(w, s, s', next);
    }
  }

  lemma AddPlaces(w: Outside, s: State, e: Event, origin: Origin)
    ensures Accounted(w, s, PublishIn(w, s, e, origin).state)
  {
    AccountedIdle(w, s, PublishIn(w, s, e, origin).state);
  }

  lemma {:induction false} HookDoes(w: Outside, s: State, d: DataSource, phase: Phase, hook: Script,
                                    next: map<DataSource, nat>)
    requires Kept(w, s, next, {})
    ensures Did(w, s, HookIn(s, d, phase, hook), next, {}, 0)
  {
    hide Sound, Did, FlushedOf, Balanced, Flushes, Notifies;
    if d in s.txs {
      PushKeepsBooks(s.txs[d], phase, hook, At(next, d));
      AccountedIdle(w, s, HookIn(s, d, phase, hook));
      OneDoes(w, s, HookIn(s, d, phase, hook), d, next, {});
    } else {
      DidNothing(w, s, next);
    }
  }

  lemma {:induction false} PushKeepsBooks(t: Tx, phase: Phase, hook: Script, next: nat)
    requires Books(t, next, [])
    ensures Books(Pushed(t, phase, hook), next, [])
  {
    hide Balanced;
    BeforeAppend(t.beforeCommit[next..], Other(hook));
    assert (t.beforeCommit + [Other(hook)])[next..] == t.beforeCommit[next..] + [Other(hook)];
    AfterAppend(t.afterCommit, After(hook));
    AfterAppend(t.afterRollback, After(hook));
  }

  /** Whatever a body or hook schedules, publishes, catches, nests, retries or throws,
      the books of the visible transactions are kept, and those of each it begins. */
  lemma {:induction false} PerformDoes(w: Outside, s: State, script: Script, next: map<DataSource, nat>)
    requires Kept(w, s, next, {})
    ensures Did(w, s, Perform(w, s, script).state, next, {}, 0)
    decreases ScriptSize(script), 1
  {
    hide Kept, Did, ActIn;
    if script.Done? {
      DidNothing(w, s, next);
    } else {
      var r := ActIn(w, s, script.act);
      ActDoes(w, s, script.act, next);
      if r.outcome.Ok? {
        DidKept(w, s, r.state, next, {}, 0);
        PerformDoes(w, r.state, script.rest, next);
        DidTwice(w, s, r.state, Perform(w, r.state, script.rest).state, next, {}, 0, 0);
      }
    }
  }

  lemma {:induction false} ActDoes(w: Outside, s: State, act: Act, next: map<DataSource, nat>)
    requires Kept(w, s, next, {})
    ensures Did(w, s, ActIn(w, s, act).state, next, {}, 0)
    decreases ActSize(act), 0
  {
    hide Kept, Did, WithinIn, PublishIn, ScheduleIn, HookIn;
    DidNothing(w, s, next);
    match act
    case Schedule(e) => ScheduleDoes(w, s, e, next);
    case Publish(e) => PublishDoes(w, s, e, next);
    case Hook(d, phase, hook) => HookDoes(w, s, d, phase, hook, next);
    case Within(o, body) => WithinDoes(w, s, o, body, next);
    case Try(body, handler) =>
      PerformDoes(w, s, body, next);
      var r := Perform(w, s, body);
      if r.outcome.Fail? {
        DidKept(w, s, r.state, next, {}, 0);
        PerformDoes(w, r.state, handler, next);
        DidTwice(w, s, r.state, Perform(w, r.state, handler).state, next, {}, 0, 0);
      }
    case Raise(_) =>
    case RaiseFresh(classes) => Counted(w, s, Raised(s, classes).state, next);
  }

  lemma {:induction false} WithinDoes(w: Outside, s: State, o: Options, body: Script, next: map<DataSource, nat>)
    requires Kept(w, s, next, {})
    ensures Did(w, s, WithinIn(w, s, o, body).state, next, {}, 0)
    decreases Budget(Attempts(o.retry), ScriptSize(body)), 6
  {
    hide Kept, Did, Perform, StartIn, CutBack, Apart, Resumed, Grew;
    var d := o.dataSource;
    RaisedDoes(w, s, {ILLEGAL_STATE}, next);
    if w.env.misses(d).Some? {
      RaisedDoes(w, s, {w.env.misses(d).value}, next);
    } else if d in s.txs && o.propagation.REQUIRES_NEW? {
      ApartIsKept(w, s, d, next);
      StartDoes(w, Apart(s, d), o, body, next);
      ApartDoes(w, s, d, StartIn(w, Apart(s, d), o, body).state, next);
    } else if d in s.txs && o.propagation.NOT_SUPPORTED? {
      ApartIsKept(w, s, d, next);
      PerformDoes(w, Apart(s, d), body, next);
      ApartDoes(w, s, d, Perform(w, Apart(s, d), body).state, next);
    } else {
      PerformDoes(w, s, body, next);
      if d !in s.txs {
        if o.propagation.REQUIRED? || o.propagation.REQUIRES_NEW? || o.propagation.NESTED? {
          StartDoes(w, s, o, body, next);
        }
      } else {
        var r := Perform(w, s, body);
        DidKept(w, s, r.state, next, {}, 0);
        CutBackDoes(w, s, r, o, next);
      }
    }
  }

  lemma RaisedDoes(w: Outside, s: State, classes: set<ErrorClass>, next: map<DataSource, nat>)
    requires Kept(w, s, next, {})
    ensures Did(w, s, Raised(s, classes).state, next, {}, 0)
  {
    hide Kept, Did;
    Counted(w, s, Raised(s, classes).state, next);
  }

  lemma {:induction false} CutBackDoes(w: Outside, s: State, r: Ran, o: Options, next: map<DataSource, nat>)
    requires o.dataSource in s.txs && Did(w, s, r.state, next, {}, 0)
    ensures o.dataSource in r.state.txs && Did(w, s, CutBack(s, r, o).state, next, {}, 0)
  {
    hide Sound, Balanced, Durable, Notified, Flushes, Notifies, FlushedOf, Accounted;
    var d := o.dataSource;
    var t, t' := s.txs[d], r.state.txs[d];
    assert AddsDirectly(t, t') && t'.rows[..|t.rows|] == t.rows;
    CutBackBalances(t, t');
    ReplaceDoes(w, s, r.state, d, t'.(rows := t.rows), next);
  }

  lemma PlacedIdle(w: Outside, s: State, d: DataSource, t: Tx)
    requires d in s.txs && t.accepted == s.txs[d].accepted
    ensures Placed(w, Put(s, d, t)) == Placed(w, s)
  {
    hide AcceptedBy;
  }

  /** One transaction replaced at the end, with what it accepted. */
  lemma ReplaceDoes(w: Outside, s: State, s': State, d: DataSource, t: Tx, next: map<DataSource, nat>)
    requires d in s.txs && d in s'.txs && Did(w, s, s', next, {}, 0)
    requires Books(t, At(next, d), []) && AddsDirectly(s.txs[d], t) && t.accepted == s'.txs[d].accepted
    requires d != w.home ==> Untouched(t)
    ensures Did(w, s, Put(s', d, t), next, {}, 0)
  {
    hide Sound, Books, Durable, FlushedOf, Notified, Placed;
    PlacedIdle(w, s', d, t);
    AccountedIdle(w, s', Put(s', d, t));
    AccountedTwice(w, s, s', Put(s', d, t));
  }

  lemma CutBackBalances(t: Tx, t': Tx)
    requires AddsDirectly(t, t') && Balanced(t'.rows, [], Buffer(t'), t'.accepted)
    ensures Balanced(t'.rows[..|t.rows|], [], Buffer(t'), t'.accepted)
  {
    assert t'.rows[..|t.rows|] == t.rows;
  }

  lemma ApartIsKept(w: Outside, s: State, d: DataSource, next: map<DataSource, nat>)
    requires Kept(w, s, next, {})
    ensures Kept(w, Apart(s, d), next, {}) && d !in Apart(s, d).txs
  {
    hide Sound, Books;
  }

  /** What happened while the transaction on `d` was suspended. */
  lemma {:induction false} ApartDoes(w: Outside, s: State, d: DataSource, s': State, next: map<DataSource, nat>)
    requires d in s.txs && Kept(w, s, next, {}) && Did(w, Apart(s, d), s', next, {}, 0)
    ensures Did(w, s, Resumed(s', d, s.txs[d]), next, {}, 0)
  {
    hide SoundBus, Books, AcceptedBy, Placed, FlushedOf, Notified, Untouched, News;
    var s'' := Resumed(s', d, s.txs[d]);
    PlacedSplits(w, s, Apart(s, d), d);
    PlacedSplits(w, s'', s', d);
    forall c | c in s.txs ensures AddsDirectly(s.txs[c], s''.txs[c]) {
      assert c != d ==> Apart(s, d).txs[c] == s.txs[c];
    }
  }

  /** With the transaction on `d`, and without it. */
  lemma PlacedSplits(w: Outside, s: State, s': State, d: DataSource)
    requires d in s.txs && d !in s'.txs && s'.bus == s.bus && s'.txs == s.txs - {d}
    ensures Placed(w, s) == Placed(w, s') + multiset(if d == w.home then s.txs[d].accepted else [])
  {
    hide AcceptedBy;
  }

  lemma {:induction false} StartDoes(w: Outside, s: State, o: Options, body: Script, next: map<DataSource, nat>)
    requires Kept(w, s, next, {}) && o.dataSource !in s.txs && (ValidRetry(o.retry) ==> CanBegin(o))
    ensures Did(w, s, StartIn(w, s, o, body).state, next, {}, 0)
    decreases Budget(Attempts(o.retry), ScriptSize(body)), 5
  {
    hide Kept, Did, AttemptIn;
    if ValidRetry(o.retry) {
      AttemptDoes(w, s, Attempts(o.retry), o, body, next);
    } else {
      RaisedDoes(w, s, {TYPE_ERROR}, next);
    }
  }

  lemma {:induction false} AttemptDoes(w: Outside, s: State, k: nat, o: Options, body: Script,
                                       next: map<DataSource, nat>)
    requires Kept(w, s, next, {}) && o.dataSource !in s.txs && 1 <= k && CanBegin(o)
    ensures Did(w, s, AttemptIn(w, s, k, o, body).state, next, {}, 0)
    decreases Budget(k, ScriptSize(body)), 4
  {
    hide Kept, Did, TransactIn, Retryable;
    TransactDoes(w, s, o, body, next);
    var r := TransactIn(w, s, o, body);
    DidKept(w, s, r.state, next, {}, 0);
    if Repeats(k, o, r) {
      AttemptDoes(w, r.state, k - 1, o, body, next);
      DidTwice(w, s, r.state, AttemptIn(w, r.state, k - 1, o, body).state, next, {}, 0, 0);
    }
  }

  // The flush hook and the loop.

  lemma {:induction false} AddAllDoes(w: Outside, s: State, events: seq<Event>, next: map<DataSource, nat>)
    returns (left: seq<Event>)
    requires w.home in s.txs && Kept(w, s, next, {w.home}) && Books(s.txs[w.home], At(next, w.home), events)
    ensures var r := AddAll(w, s, events);
            && Did(w, s, r.state, next, {w.home}, 0) && w.home in r.state.txs
            && Books(r.state.txs[w.home], At(next, w.home), left)
            && (r.outcome.Ok? ==> left == [])
    decreases |events|
  {
    hide Books, AddIn, Did, Kept, PublishIn, Grew;
    left := events;
    DidNothingBut(w, s, next, {w.home});
    if events != [] {
      var r := PublishIn(w, s, events[0], Flushed);
      FlushedOneDoes(w, s, events, next);
      if r.outcome.Ok? {
        left := AddAllDoes(w, r.state, events[1..], next);
        DidTwice(w, s, r.state, AddAll(w, r.state, events[1..]).state, next, {w.home}, 0, 0);
      }
    }
  }

  lemma DidNothingBut(w: Outside, s: State, next: map<DataSource, nat>, except: set<DataSource>)
    requires Kept(w, s, next, except)
    ensures Did(w, s, s, next, except, 0)
  {
    hide Kept, Placed;
    AccountedIdle(w, s, s);
  }

  lemma {:induction false} FlushedOneDoes(w: Outside, s: State, events: seq<Event>, next: map<DataSource, nat>)
    requires w.home in s.txs && Kept(w, s, next, {w.home}) && Books(s.txs[w.home], At(next, w.home), events)
    requires events != []
    ensures var r := PublishIn(w, s, events[0], Flushed);
            && Did(w, s, r.state, next, {w.home}, 0) && Kept(w, r.state, next, {w.home}) && w.home in r.state.txs
            && Books(r.state.txs[w.home], At(next, w.home), if r.outcome.Ok? then events[1..] else events)
  {
    hide Books, AddIn, Kept, Did, Accounted;
    var r := PublishIn(w, s, events[0], Flushed);
    AddPlaces(w, s, events[0], Flushed);
    AddKeepsBooks(s.txs[w.home], events[0], Flushed, events, At(next, w.home));
    assert r.state.txs == s.txs[w.home := r.state.txs[w.home]];
    OneDoes(w, s, r.state, w.home, next, {w.home});
    DidKept(w, s, r.state, next, {w.home}, 0);
  }

  lemma KeptBut(w: Outside, s: State, d: DataSource, next: map<DataSource, nat>, i: nat)
    requires Kept(w, s, next, {})
    ensures Kept(w, s, next[d := i], {d})
  {
    hide SoundBus, Books;
  }

  lemma {:induction false} FlushDoes(w: Outside, s: State, next: map<DataSource, nat>, i: nat)
    returns (left: seq<Event>)
    requires w.home in s.txs && Kept(w, s, next, {}) && At(next, w.home) == i < |s.txs[w.home].beforeCommit|
    requires s.txs[w.home].beforeCommit[i].Flush?
    ensures var r := FlushIn(w, s, w.home);
            && Did(w, s, r.state, next[w.home := i + 1], {w.home}, 0) && w.home in r.state.txs
            && Books(r.state.txs[w.home], i + 1, left) && (r.outcome.Ok? ==> left == [])
  {
    hide AddAll, Kept, Did, Accounted, Books;
    var d, next', t, s' := w.home, next[w.home := i + 1], s.txs[w.home], Unbuffered(s, w.home);
    KeptBut(w, s, d, next, i + 1);
    KeptAt(w, s, d, next);
    TakenBuffer(t, i);
    AccountedIdle(w, s, s');
    assert s'.txs == s.txs[d := s'.txs[d]];
    OneDoes(w, s, s', d, next', {d});
    DidKept(w, s, s', next', {d}, 0);
    left := AddAllDoes(w, s', Buffer(t), next');
    DidTwice(w, s, s', FlushIn(w, s, d).state, next', {d}, 0, 0);
  }

  lemma KeptAt(w: Outside, s: State, d: DataSource, next: map<DataSource, nat>)
    requires d in s.txs && Kept(w, s, next, {})
    ensures Books(s.txs[d], At(next, d), []) && (d != w.home ==> Untouched(s.txs[d]))
  {
    hide SoundBus, Books;
  }

  lemma TakenBuffer(t: Tx, i: nat)
    requires Books(t, i, []) && i < |t.beforeCommit| && t.beforeCommit[i].Flush?
    ensures Books(t.(pending := None), i + 1, Buffer(t))
  {
    hide Balanced;
    assert t.beforeCommit[i..][1..] == t.beforeCommit[i + 1..];
    BalancedTake(t.rows, Buffer(t), t.accepted);
  }

  lemma OtherIsNext(w: Outside, s: State, d: DataSource, next: map<DataSource, nat>, i: nat)
    requires d in s.txs && Kept(w, s, next, {}) && At(next, d) == i < |s.txs[d].beforeCommit|
    requires s.txs[d].beforeCommit[i].Other?
    ensures Kept(w, s, next[d := i + 1], {})
  {
    hide Sound;
    assert s.txs[d].beforeCommit[i..][1..] == s.txs[d].beforeCommit[i + 1..];
  }

  /** Only a transaction of the outbox's dataSource has a flush hook to run. */
  lemma FlushIsHome(w: Outside, s: State, d: DataSource, next: map<DataSource, nat>)
    requires d in s.txs && Kept(w, s, next, {}) && At(next, d) < |s.txs[d].beforeCommit|
    requires s.txs[d].beforeCommit[At(next, d)].Flush?
    ensures d == w.home
  {
    var q := s.txs[d].beforeCommit[At(next, d)..];
    assert q[0] == s.txs[d].beforeCommit[At(next, d)];
    assert Books(s.txs[d], At(next, d), []);
  }

  /** When the live loop completes, exactly the events accepted by the body or by any
      hook have been flushed, once each, in scheduling order; when it throws, `left`
      is what the throwing hook held. */
  lemma {:induction false} LoopFlushesAll(w: Outside, s: State, d: DataSource, i: nat, next: map<DataSource, nat>)
    returns (left: seq<Event>, last: nat)
    requires d in s.txs && Kept(w, s, next, {}) && At(next, d) == i <= |s.txs[d].beforeCommit|
    ensures var r := LoopIn(w, s, d, i);
            && Did(w, s, r.state, next[d := last], {d}, 0)
            && d in r.state.txs && Books(r.state.txs[d], last, left)
            && (r.outcome.Ok? ==> FlushedOf(r.state.txs[d].rows) == r.state.txs[d].accepted)
    decreases BeforeSize(s.txs[d].beforeCommit[i..]), 2, 1
  {
    hide Books, FlushedOf, Did, Kept, TurnIn, Looped, BeforeSize;
    left, last := [], i;
    if i == |s.txs[d].beforeCommit| {
      LoopEnds(w, s, d, i, next);
    } else {
      var r := TurnIn(w, s, d, i);
      left, last := TurnDoes(w, s, d, i, next);
      if r.outcome.Ok? {
        var next' := next[d := i + 1];
        TurnKeeps(w, s, r.state, d, i + 1, next);
        left, last := LoopFlushesAll(w, r.state, d, i + 1, next');
        var r' := LoopIn(w, r.state, d, i + 1);
        assert next'[d := last] == next[d := last];
        TurnsDo(w, s, r.state, r'.state, d, next, i + 1, last);
      }
    }
  }

  lemma {:induction false} LoopEnds(w: Outside, s: State, d: DataSource, i: nat, next: map<DataSource, nat>)
    requires d in s.txs && Kept(w, s, next, {}) && At(next, d) == i == |s.txs[d].beforeCommit|
    ensures Did(w, s, s, next[d := i], {d}, 0) && Books(s.txs[d], i, [])
    ensures FlushedOf(s.txs[d].rows) == s.txs[d].accepted
  {
    hide Balanced, FlushedOf, Sound, Notifies;
    var t := s.txs[d];
    assert t.beforeCommit[i..] == [];
    BalancedMeans(t.rows, [], Buffer(t), t.accepted);
    DidNothingBut(w, s, next[d := i], {d});
  }

  lemma {:induction false} TurnDoes(w: Outside, s: State, d: DataSource, i: nat, next: map<DataSource, nat>)
    returns (left: seq<Event>, last: nat)
    requires d in s.txs && Kept(w, s, next, {}) && At(next, d) == i < |s.txs[d].beforeCommit|
    ensures var r := TurnIn(w, s, d, i);
            && Did(w, s, r.state, next[d := i + 1], {d}, 0) && d in r.state.txs && last == i + 1
            && Books(r.state.txs[d], i + 1, left) && (r.outcome.Ok? ==> left == [])
    decreases BeforeSize(s.txs[d].beforeCommit[i..]), 2, 0
  {
    hide Books, FlushIn, Perform, FlushedOf, Did, Kept, BeforeSize;
    var h := s.txs[d].beforeCommit[i];
    left, last := [], i + 1;
    TurnIsSmall(s.txs[d].beforeCommit, i);
    if h.Flush? {
      FlushIsHome(w, s, d, next);
      left := FlushDoes(w, s, next, i);
    } else {
      OtherIsNext(w, s, d, next, i);
      PerformDoes(w, s, h.script, next[d := i + 1]);
      DidLess(w, s, Perform(w, s, h.script).state, d, next[d := i + 1]);
    }
  }

  lemma TurnIsSmall(queue: seq<BeforeHook>, i: nat)
    requires i < |queue|
    ensures HookSize(queue[i]) <= BeforeSize(queue[i..])
  {
    assert queue[i..][0] == queue[i];
  }

  lemma DidLess(w: Outside, s: State, s': State, d: DataSource, next: map<DataSource, nat>)
    requires d in s.txs && Did(w, s, s', next, {}, 0)
    ensures Did(w, s, s', next, {d}, 0) && d in s'.txs && Books(s'.txs[d], At(next, d), [])
  {
    hide Sound, Books, FlushedOf, Accounted;
  }

  lemma TurnKeeps(w: Outside, s: State, s': State, d: DataSource, i: nat, next: map<DataSource, nat>)
    requires d in s.txs && Did(w, s, s', next[d := i], {d}, 0) && d in s'.txs && Books(s'.txs[d], i, [])
    ensures Kept(w, s', next[d := i], {})
  {
    hide Sound, Books, FlushedOf, Accounted;
  }

  lemma TurnsDo(w: Outside, s: State, s': State, s'': State, d: DataSource, next: map<DataSource, nat>, i: nat, j: nat)
    requires Did(w, s, s', next[d := i], {d}, 0) && Did(w, s', s'', next[d := j], {d}, 0)
    ensures Did(w, s, s'', next[d := j], {d}, 0)
  {
    hide Sound, Books, FlushedOf, Accounted, Notified, Lasting;
    AccountedTwice(w, s, s', s'');
    LastingTwice(s, s', s'');
  }

  // A whole transaction.

  lemma {:induction false} TransactDoes(w: Outside, s: State, o: Options, body: Script, next: map<DataSource, nat>)
    requires Kept(w, s, next, {}) && o.dataSource !in s.txs && CanBegin(o)
    ensures Did(w, s, TransactIn(w, s, o, body).state, next, {}, 0)
    decreases ScriptSize(body), 3
  {
    hide Did, Kept, CallbackIn, SettleIn;
    match w.env.signal(s.bus.clock)
    case Fault(classes) =>
      Counted(w, s, TransactIn(w, s, o, body).state, next);
    case Proceed =>
      var c := CallbackIn(w, s, o.dataSource, body);
      var left, last := CallbackDoes(w, s, o.dataSource, body, next);
      SettleDoes(w, s, o, ScriptSize(body), c, next, left, last);
  }

  /** How the books of the transaction on `d` stand when its callback has ended. */
  ghost predicate Concluded(w: Outside, s: State, d: DataSource, c: Called, next: map<DataSource, nat>,
                            left: seq<Event>,
                            last: nat)
    requires d !in s.txs
  {
    && Did(w, BeginIn(s, d), c.ran.state, next[d := last], {d}, 0)
    && d in c.ran.state.txs && Books(c.ran.state.txs[d], last, left)
    && (c.ran.outcome.Ok? ==> FlushedOf(c.ran.state.txs[d].rows) == c.ran.state.txs[d].accepted)
    && (c.bodyEnded.Fail? ==> c.ran.outcome == c.bodyEnded && FlushedOf(c.ran.state.txs[d].rows) == [])
  }

  lemma {:induction false} CallbackDoes(w: Outside, s: State, d: DataSource, body: Script, next: map<DataSource, nat>)
    returns (left: seq<Event>, last: nat)
    requires Kept(w, s, next, {}) && d !in s.txs
    ensures Concluded(w, s, d, CallbackIn(w, s, d, body), next, left, last)
    decreases ScriptSize(body), 2, 2
  {
    hide Did, Kept, Books, LoopIn, Perform, Grew, Left, Affordable, BeforeSize, FlushedOf, Looped;
    var s1, next1 := BeginIn(s, d), next[d := 0];
    BeginIsKept(w, s, d, next);
    var b := Perform(w, s1, body);
    PerformDoes(w, s1, body, next1);
    DidKept(w, s1, b.state, next1, {}, 0);
    CallbackBudget(s, d, b.state, ScriptSize(body));
    left, last := [], 0;
    if b.outcome.Fail? {
      DidLess(w, s1, b.state, d, next1);
      NothingFlushed(w, s1, b.state, d, next1);
    } else {
      assert b.state.txs[d].beforeCommit[0..] == b.state.txs[d].beforeCommit;
      left, last := LoopFlushesAll(w, b.state, d, 0, next1);
      DidLess(w, s1, b.state, d, next1);
      assert next1[d := last] == next[d := last];
      TurnsDo(w, s1, b.state, LoopIn(w, b.state, d, 0).state, d, next, 0, last);
    }
  }

  lemma BeginIsKept(w: Outside, s: State, d: DataSource, next: map<DataSource, nat>)
    requires Kept(w, s, next, {}) && d !in s.txs
    ensures Kept(w, BeginIn(s, d), next[d := 0], {})
  {
    hide Sound, Durable;
    assert Books(NewTx(), 0, []);
  }

  lemma NothingFlushed(w: Outside, s: State, s': State, d: DataSource, next: map<DataSource, nat>)
    requires d in s.txs && s.txs[d] == NewTx() && Did(w, s, s', next, {}, 0)
    ensures FlushedOf(s'.txs[d].rows) == []
  {
    assert AddsDirectly(s.txs[d], s'.txs[d]);
  }

  /** The transaction on `d` is closed and has joined those that have ended. */
  lemma {:induction false} CloseDoes(w: Outside, s: State, d: DataSource, c: Called, next: map<DataSource, nat>,
                                     left: seq<Event>, last: nat, f: Finished, s': State)
    requires Kept(w, s, next, {}) && d !in s.txs && Concluded(w, s, d, c, next, left, last)
    requires Sound(w, f) && f.tx == c.ran.state.txs[d] && f.options.dataSource == d
    requires s'.txs == c.ran.state.txs - {d}
    requires var bus := c.ran.state.bus;
             s'.bus == bus.(clock := s'.bus.clock, errors := s'.bus.errors, finished := bus.finished + [f],
                            durable := if f.committed then bus.durable + f.tx.rows else bus.durable)
    ensures Did(w, s, s', next, {}, 0 - Owes(f))
  {
    hide Sound, Books, FlushedOf, SoundBus, Notified, Accounted, Owes;
    var s1, bus := BeginIn(s, d), c.ran.state.bus;
    assert s1.txs - {d} == s.txs;
    BusGrows(w, bus, f, s'.bus);
    SoundUntouched(w, f);
    ClosePlaces(w, s, d, c.ran.state, f, s');
    forall e | e in s.txs ensures s1.txs[e] == s.txs[e] && At(next[d := last], e) == At(next, e) {
    }
  }

  lemma SoundUntouched(w: Outside, f: Finished)
    requires Sound(w, f)
    ensures f.options.dataSource != w.home ==> f.tx.accepted == []
  {
  }

  lemma BusGrows(w: Outside, bus: Bus, f: Finished, bus': Bus)
    requires SoundBus(w, bus) && Sound(w, f) && bus'.finished == bus.finished + [f]
    requires bus'.durable == if f.committed then bus.durable + f.tx.rows else bus.durable
    ensures SoundBus(w, bus') && Notified(bus'.finished) == Notified(bus.finished) + Owes(f)
  {
    hide Sound;
    assert bus'.finished[..|bus'.finished| - 1] == bus.finished;
    assert bus.durable + [] == bus.durable;
  }

  lemma {:induction false} ClosePlaces(w: Outside, s: State, d: DataSource, c: State, f: Finished, s': State)
    requires d !in s.txs && d in c.txs && Accounted(w, BeginIn(s, d), c) && f.tx == c.txs[d]
    requires d != w.home ==> f.tx.accepted == []
    requires s'.txs == c.txs - {d} && s'.bus.finished == c.bus.finished + [f]
    requires s'.bus.dropped == c.bus.dropped && s'.bus.scheduled == c.bus.scheduled
    ensures Accounted(w, s, s')
  {
    assert s'.bus.finished[..|s'.bus.finished| - 1] == c.bus.finished;
    assert Placed(w, BeginIn(s, d)) == Placed(w, s);
    assert Placed(w, s') == Placed(w, c);
  }

  /** The rows of the transaction on `d` have become durable. */
  ghost predicate Landed(s: State, d: DataSource, s': State)
    requires d in s.txs
  {
    s.bus.durable + s.txs[d].rows <= s'.bus.durable
  }

  lemma {:induction false} SettleDoes(w: Outside, s: State, o: Options, size: nat, c: Called,
                                      next: map<DataSource, nat>, left: seq<Event>, last: nat)
    requires Affordable(s, c.ran.state, o.dataSource, size) && Kept(w, s, next, {}) && CanBegin(o)
    requires Concluded(w, s, o.dataSource, c, next, left, last)
    ensures var r := SettleIn(w, s, o, size, c);
            && Did(w, s, r.state, next, {}, 0)
            && (r.outcome.Ok? ==> Landed(c.ran.state, o.dataSource, r.state) && c.ran.outcome.Ok?)
    decreases size, 2
  {
    hide Did, Kept, Concluded, Affordable, RollBackIn, CommitIn, Sound;
    var d, outcome := o.dataSource, c.ran.outcome;
    AffordableParts(s, c.ran.state, d, size);
    var t, closed := c.ran.state.txs[d], Apart(c.ran.state, d);
    ClosedBudget(s, c.ran.state, d, size);
    if outcome.Fail? && ShouldRollback(outcome.error, o) {
      RollBackDoes(w, s, o, size, c, next, left, last, closed, outcome.error,
                   Finished(o, t, c.bodyEnded, outcome, false));
    } else {
      var asked := closed.(bus := closed.bus.(clock := closed.bus.clock + 1));
      match w.env.signal(closed.bus.clock) {
        case Fault(classes) =>
          var failed := Raised(asked, classes);
          RollBackDoes(w, s, o, size, c, next, left, last, failed.state, failed.outcome.error,
                       Finished(o, t, c.bodyEnded, outcome, false));
        case Proceed =>
          CommitDoes(w, s, o, size, c, next, left, last, asked, Finished(o, t, c.bodyEnded, outcome, true));
      }
    }
  }

  lemma AffordableParts(before: State, s: State, d: DataSource, size: nat)
    requires Affordable(before, s, d, size)
    ensures d !in before.txs && d in s.txs
  {
  }

  lemma {:induction false} ConcludedIsSound(w: Outside, s: State, o: Options, c: Called, next: map<DataSource, nat>,
                                            left: seq<Event>, last: nat, committed: bool)
    requires o.dataSource !in s.txs && Concluded(w, s, o.dataSource, c, next, left, last)
    requires CanBegin(o) && (committed && c.ran.outcome.Fail? ==> !ShouldRollback(c.ran.outcome.error, o))
    ensures Sound(w, Finished(o, c.ran.state.txs[o.dataSource], c.bodyEnded, c.ran.outcome, committed))
  {
    hide SoundBus, FlushedOf, Accounted, Notifies, Notified;
    var t := c.ran.state.txs[o.dataSource];
    assert FlushedOf(t.rows) + left + Buffer(t) == t.accepted;
  }

  lemma {:induction false} RollBackDoes(w: Outside, s: State, o: Options, size: nat, c: Called,
                                        next: map<DataSource, nat>, left: seq<Event>, last: nat, closed: State,
                                        error: Error, f: Finished)
    requires Kept(w, s, next, {}) && o.dataSource !in s.txs && o.dataSource in c.ran.state.txs && CanBegin(o)
    requires Concluded(w, s, o.dataSource, c, next, left, last)
    requires f == Finished(o, c.ran.state.txs[o.dataSource], c.bodyEnded, c.ran.outcome, false)
    requires closed.txs == c.ran.state.txs - {o.dataSource}
    requires closed.bus == c.ran.state.bus.(clock := closed.bus.clock, errors := closed.bus.errors)
    requires AfterSize(f.tx.afterRollback) <= size && Grew(s.txs, closed.txs, size - AfterSize(f.tx.afterRollback))
    ensures Did(w, s, RollBackIn(w, s, closed, f, error, size).state, next, {}, 0)
    ensures RollBackIn(w, s, closed, f, error, size).outcome == Fail(error)
    decreases size, 1
  {
    hide Did, Kept, Concluded, AfterIn, Sound, Notifies, AfterSize, Grew;
    ConcludedIsSound(w, s, o, c, next, left, last, false);
    SoundNotifies(w, f);
    var s1 := closed.(bus := closed.bus.(finished := closed.bus.finished + [f]));
    CloseDoes(w, s, o.dataSource, c, next, left, last, f, s1);
    DidKept(w, s, s1, next, {}, 0);
    AfterDoes(w, s1, f.tx.afterRollback, next);
    var s2 := AfterIn(w, s1, f.tx.afterRollback);
    DidTwice(w, s, s1, s2, next, {}, 0, 0);
    DidKept(w, s, s2, next, {}, 0);
    Counted(w, s2, Marked(s2, error), next);
    DidTwice(w, s, s2, Marked(s2, error), next, {}, 0, 0);
  }

  lemma SoundNotifies(w: Outside, f: Finished)
    requires Sound(w, f)
    ensures Notifies(f.tx.afterRollback) == 0 && (f.committed ==> Notifies(f.tx.afterCommit) == Owes(f))
  {
  }

  lemma {:induction false} CommitDoes(w: Outside, s: State, o: Options, size: nat, c: Called,
                                      next: map<DataSource, nat>, left: seq<Event>, last: nat, closed: State,
                                      f: Finished)
    requires Kept(w, s, next, {}) && o.dataSource !in s.txs && o.dataSource in c.ran.state.txs && CanBegin(o)
    requires Concluded(w, s, o.dataSource, c, next, left, last)
    requires f == Finished(o, c.ran.state.txs[o.dataSource], c.bodyEnded, c.ran.outcome, true)
    requires c.ran.outcome.Fail? ==> !ShouldRollback(c.ran.outcome.error, o)
    requires closed.txs == c.ran.state.txs - {o.dataSource}
    requires closed.bus == c.ran.state.bus.(clock := closed.bus.clock)
    requires AfterSize(f.tx.afterCommit) <= size && Grew(s.txs, closed.txs, size - AfterSize(f.tx.afterCommit))
    ensures Did(w, s, CommitIn(w, s, closed, f, size).state, next, {}, 0)
    ensures Landed(c.ran.state, o.dataSource, CommitIn(w, s, closed, f, size).state)
    ensures CommitIn(w, s, closed, f, size).outcome == f.ended
    decreases size, 1
  {
    hide Did, Kept, Concluded, AfterIn, Sound, Notifies, AfterSize, Grew, Owes;
    ConcludedIsSound(w, s, o, c, next, left, last, true);
    SoundNotifies(w, f);
    var s1 := closed.(bus := closed.bus.(finished := closed.bus.finished + [f],
                                         durable := closed.bus.durable + f.tx.rows));
    CloseDoes(w, s, o.dataSource, c, next, left, last, f, s1);
    DidKept(w, s, s1, next, {}, 0 - Owes(f));
    AfterDoes(w, s1, f.tx.afterCommit, next);
    DidTwice(w, s, s1, AfterIn(w, s1, f.tx.afterCommit), next, {}, 0 - Owes(f), Owes(f));
    DidLasts(w, s1, AfterIn(w, s1, f.tx.afterCommit), next, {}, Owes(f));
  }

  /** The after-phase hooks send as many notifications as there are among them. */
  lemma {:induction false} AfterDoes(w: Outside, s: State, hooks: seq<AfterHook>, next: map<DataSource, nat>)
    requires Kept(w, s, next, {})
    ensures Did(w, s, AfterIn(w, s, hooks), next, {}, Notifies(hooks))
    decreases AfterSize(hooks), 0, |hooks|
  {
    hide Did, Kept, Perform;
    if hooks == [] {
      DidNothing(w, s, next);
    } else if hooks[0].Notify? {
      var s1 := s.(bus := s.bus.(notifications := s.bus.notifications + 1));
      NotifyDoes(w, s, next);
      DidKept(w, s, s1, next, {}, 1);
      AfterDoes(w, s1, hooks[1..], next);
      DidTwice(w, s, s1, AfterIn(w, s1, hooks[1..]), next, {}, 1, Notifies(hooks[1..]));
    } else {
      var r := Perform(w, s, hooks[0].script);
      PerformDoes(w, s, hooks[0].script, next);
      DidKept(w, s, r.state, next, {}, 0);
      AfterDoes(w, r.state, hooks[1..], next);
      DidTwice(w, s, r.state, AfterIn(w, r.state, hooks[1..]), next, {}, 0, Notifies(hooks[1..]));
    }
  }

  lemma NotifyDoes(w: Outside, s: State, next: map<DataSource, nat>)
    requires Kept(w, s, next, {})
    ensures Did(w, s, s.(bus := s.bus.(notifications := s.bus.notifications + 1)), next, {}, 1)
  {
    hide Sound, Books, Durable, FlushedOf, Notified, AcceptedBy;
    AccountedIdle(w, s, s.(bus := s.bus.(notifications := s.bus.notifications + 1)));
  }
}
