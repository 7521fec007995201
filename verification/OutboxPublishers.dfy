/** The outbox publisher step by step, with its entries keyed by transaction; each step
    is proved to be the one of the specification. */
module OutboxPublishers {
  import opened Wrappers
  import opened Programs
  import opened Outboxes

  /** The part of an `ActiveTransaction`, and of its session, that concerns the outbox. */
  datatype Record = Record(
    rows: seq<Message>,
    beforeCommit: seq<BeforeHook>,
    afterCommit: seq<AfterHook>,
    afterRollback: seq<AfterHook>)

  /** What belongs to transaction `h`, as one value. */
  function View(records: seq<Record>, pending: map<nat, seq<Event>>, notifying: set<nat>, accepted: seq<seq<Event>>,
                added: seq<nat>, h: nat): Tx
    requires h < |records| && |accepted| == |added| == |records|
  {
    Tx(records[h].rows, records[h].beforeCommit, records[h].afterCommit, records[h].afterRollback,
       if h in pending then Some(pending[h]) else None, h in notifying, accepted[h], added[h])
  }

  /** The visible transactions are different ones. */
  ghost predicate Handles(active: map<DataSource, nat>, count: nat) {
    && (forall d | d in active :: active[d] < count)
    && forall c, d | c in active && d in active && c != d :: active[c] != active[d]
  }

  ghost function TxsOf(all: seq<Tx>, active: map<DataSource, nat>): (txs: map<DataSource, Tx>)
    requires Handles(active, |all|)
    ensures txs.Keys == active.Keys && forall d | d in active :: txs[d] == all[active[d]]
  {
    map d | d in active :: all[active[d]]
  }

  predicate IsActive(active: map<DataSource, nat>, h: nat) {
    exists d :: d in active && active[d] == h
  }

  /** Every transaction that is not visible is as it was. */
  ghost predicate Keeps(before: seq<Tx>, after: seq<Tx>, active: map<DataSource, nat>) {
    && |before| <= |after|
    && forall h | 0 <= h < |before| && !IsActive(active, h) :: after[h] == before[h]
  }

  lemma KeepsTwice(a: seq<Tx>, b: seq<Tx>, c: seq<Tx>, active: map<DataSource, nat>)
    requires Keeps(a, b, active) && Keeps(b, c, active)
    ensures Keeps(a, c, active)
  {
  }

  /** A change of one visible transaction. */
  lemma OneChanged(all: seq<Tx>, all': seq<Tx>, active: map<DataSource, nat>, d: DataSource, t: Tx)
    requires Handles(active, |all|) && d in active && all' == all[active[d] := t]
    ensures TxsOf(all', active) == TxsOf(all, active)[d := t] && Keeps(all, all', active)
  {
    assert IsActive(active, active[d]);
  }

  lemma NoneChanged(all: seq<Tx>, active: map<DataSource, nat>)
    ensures Keeps(all, all, active)
  {
  }

  lemma Suspends(all: seq<Tx>, active: map<DataSource, nat>, d: DataSource)
    requires Handles(active, |all|)
    ensures Handles(active - {d}, |all|) && TxsOf(all, active - {d}) == TxsOf(all, active) - {d}
  {
  }

  /** The suspended transaction is visible again, as it was. */
  lemma Resumes(all: seq<Tx>, all': seq<Tx>, active: map<DataSource, nat>, d: DataSource)
    requires Handles(active, |all|) && d in active && Keeps(all, all', active - {d})
    ensures Handles(active, |all'|) && Handles(active - {d}, |all'|)
    ensures TxsOf(all', active) == TxsOf(all', active - {d})[d := TxsOf(all, active)[d]]
    ensures Keeps(all, all', active)
  {
    assert !IsActive(active - {d}, active[d]);
    forall h | 0 <= h < |all| && !IsActive(active, h) ensures all'[h] == all[h] {
      assert !IsActive(active - {d}, h);
    }
  }

  /** A new transaction at the end. */
  lemma Opens(all: seq<Tx>, active: map<DataSource, nat>, d: DataSource)
    requires Handles(active, |all|) && d !in active
    ensures Handles(active[d := |all|], |all| + 1)
    ensures TxsOf(all + [NewTx()], active[d := |all|]) == TxsOf(all, active)[d := NewTx()]
  {
  }

  /** What was kept while the new transaction was visible, it being gone. */
  lemma Closes(all: seq<Tx>, all': seq<Tx>, active: map<DataSource, nat>, d: DataSource)
    requires Handles(active, |all|) && d !in active && Keeps(all + [NewTx()], all', active[d := |all|])
    ensures Keeps(all, all', active) && |all| < |all'|
    ensures Handles(active[d := |all|], |all'|) && Handles(active, |all'|)
    ensures TxsOf(all', active) == TxsOf(all', active[d := |all|]) - {d}
    ensures TxsOf(all', active[d := |all|])[d] == all'[|all|]
  {
    hide Keeps;
    KeepsLength(all + [NewTx()], all', active[d := |all|]);
    KeepsOthers(all, all', active, d);
  }

  lemma KeepsLength(before: seq<Tx>, after: seq<Tx>, active: map<DataSource, nat>)
    requires Keeps(before, after, active)
    ensures |before| <= |after|
  {
  }

  lemma KeepsOthers(all: seq<Tx>, all': seq<Tx>, active: map<DataSource, nat>, d: DataSource)
    requires d !in active && Keeps(all + [NewTx()], all', active[d := |all|])
    ensures Keeps(all, all', active)
  {
    forall h | 0 <= h < |all| && !IsActive(active, h) ensures all'[h] == all[h] {
      NotActive(active, d, |all|, h);
      assert (all + [NewTx()])[h] == all[h];
    }
  }

  lemma NotActive(active: map<DataSource, nat>, d: DataSource, count: nat, h: nat)
    requires d !in active && h < count && !IsActive(active, h)
    ensures !IsActive(active[d := count], h)
  {
    if IsActive(active[d := count], h) {
      var c :| c in active[d := count] && active[d := count][c] == h;
    }
  }

  lemma AffordableAt(before: State, s: State, d: DataSource, size: nat)
    requires Affordable(before, s, d, size)
    ensures d in s.txs
  {
  }

  lemma RollBackOutcome(w: Outside, before: State, s: State, f: Finished, error: Error, size: nat)
    requires AfterSize(f.tx.afterRollback) <= size && Grew(before.txs, s.txs, size - AfterSize(f.tx.afterRollback))
    ensures RollBackIn(w, before, s, f, error, size).outcome == Fail(error)
  {
  }

  lemma CommitOutcome(w: Outside, before: State, s: State, f: Finished, size: nat)
    requires AfterSize(f.tx.afterCommit) <= size && Grew(before.txs, s.txs, size - AfterSize(f.tx.afterCommit))
    ensures CommitIn(w, before, s, f, size).outcome == f.ended
  {
  }

  lemma AfterFits(hooks: seq<AfterHook>, i: nat)
    requires i < |hooks|
    ensures AfterSize(hooks[i..]) == (if hooks[i].Notify? then 0 else 1 + ScriptSize(hooks[i].script))
                                     + AfterSize(hooks[i + 1..])
  {
    assert hooks[i..][1..] == hooks[i + 1..];
  }

  class OutboxEventPublisher {
    const world: Outside
    var calls: nat
    var clock: nat
    var errors: nat

    /** Every transaction begun so far, by handle, and the visible ones. */
    var records: seq<Record>
    var active: map<DataSource, nat>
    var rolledBack: set<Identity>

    // The publisher's entries.
    var pending: map<nat, seq<Event>>
    var notifying: set<nat>

    /** The events the event bus has ever scheduled. */
    var scheduled: set<Event>
    var durable: seq<Message>
    var notifications: nat

    ghost var dropped: seq<Event>
    ghost var finished: seq<Finished>
    ghost var accepted: seq<seq<Event>>
    ghost var added: seq<nat>

    constructor (world: Outside, scheduled: set<Event>)
      ensures Valid() && S() == State(Bus(0, 0, 0, 0, {}, scheduled, [], [], 0, []), map[]) && this.world == world
    {
      this.world, calls, clock, errors := world, 0, 0, 0;
      records, active, rolledBack, pending, notifying := [], map[], {}, map[], {};
      this.scheduled, durable, notifications := scheduled, [], 0;
      dropped, finished, accepted, added := [], [], [], [];
    }

    ghost predicate Valid()
      reads this
    {
      && |accepted| == |added| == |records|
      && (forall h | h in pending :: h < |records|) && (forall h | h in notifying :: h < |records|)
      && Handles(active, |records|)
    }

    ghost function All(): (all: seq<Tx>)
      requires Valid()
      reads this
      ensures |all| == |records|
    {
      var records, pending, notifying, accepted, added := records, pending, notifying, accepted, added;
      seq(|records|, h requires 0 <= h < |records| => View(records, pending, notifying, accepted, added, h))
    }

    ghost function Shared(): Bus
      reads this
    {
      Bus(calls, clock, errors, |records|, rolledBack, scheduled, dropped, durable, notifications, finished)
    }

    ghost function S(): State
      requires Valid()
      reads this
    {
      State(Shared(), TxsOf(All(), active))
    }

    method PushHook(d: DataSource, phase: Phase, hook: Script)
      requires Valid()
      modifies this`records
      ensures Valid() && S() == HookIn(old(S()), d, phase, hook) && Keeps(old(All()), All(), active)
    {
      NoneChanged(All(), active);
      if d !in active {
        return;
      }
      var h, r := active[d], records[active[d]];
      match phase {
        case BeforeCommit => records := records[h := r.(beforeCommit := r.beforeCommit + [Other(hook)])];
        case AfterCommit => records := records[h := r.(afterCommit := r.afterCommit + [After(hook)])];
        case AfterRollback => records := records[h := r.(afterRollback := r.afterRollback + [After(hook)])];
      }
      OneChanged(old(All()), All(), active, d, Pushed(old(All())[h], phase, hook));
    }

    /** The visible transaction of `d`, in the records. */
    lemma HandleOf(d: DataSource)
      requires Valid() && d in active
      ensures active[d] < |records| && S().txs[d] == All()[active[d]]
      ensures S().txs[d].rows == records[active[d]].rows
      ensures S().txs[d].beforeCommit == records[active[d]].beforeCommit
    {
    }

    /** The buffer of transaction `h`, with its flush hook, where there is none yet. */
    method ArmFlush(h: nat)
      requires Valid() && h < |records|
      modifies this`records, this`pending
      ensures Valid()
      ensures var t := old(All())[h];
              All() == old(All())[h := t.(pending := Some(Buffer(t)),
                                          beforeCommit := if t.pending.None? then t.beforeCommit + [Flush]
                                                          else t.beforeCommit)]
    {
      hide TxsOf, Keeps, Handles;
      if h !in pending {
        pending := pending[h := []];
        records := records[h := records[h].(beforeCommit := records[h].beforeCommit + [Flush])];
      }
    }

    method AppendEvent(h: nat, event: Event)
      requires Valid() && h < |records| && h in pending
      modifies this`pending, this`accepted
      ensures Valid()
      ensures var t := old(All())[h];
              All() == old(All())[h := t.(pending := Some(Buffer(t) + [event]), accepted := t.accepted + [event])]
    {
      hide TxsOf, Keeps, Handles;
      pending := pending[h := pending[h] + [event]];
      accepted := accepted[h := accepted[h] + [event]];
    }

    /** `scheduleForPublication` of an `@Externalized` event in a transaction. */
    method BufferEvent(event: Event)
      requires Valid() && world.home in active
      modifies this`records, this`pending, this`accepted
      ensures Valid() && Keeps(old(All()), All(), active)
      ensures S() == Put(old(S()), world.home, BufferIn(old(S()).txs[world.home], event))
    {
      hide TxsOf, Keeps, Handles;
      HandleOf(world.home);
      var h := active[world.home];
      ArmFlush(h);
      assert All()[h].pending.Some?;
      AppendEvent(h, event);
      OneChanged(old(All()), All(), active, world.home, BufferIn(old(All())[h], event));
    }

    /** `schedule`, then `scheduleForPublication`. */
    method ScheduleEvent(event: Event)
      requires Valid()
      modifies this`scheduled, this`records, this`pending, this`accepted, this`dropped
      ensures Valid() && S() == ScheduleIn(world, old(S()), event) && Keeps(old(All()), All(), active)
    {
      NoneChanged(All(), active);
      if event in scheduled {
        return;
      }
      scheduled := scheduled + {event};
      if !event.externalized {
        return;
      }
      if world.home !in active {
        dropped := dropped + [event];
        return;
      }
      BufferEvent(event);
    }

    /** The notification after COMMIT, once per transaction. */
    method NotifyAfterCommit(h: nat)
      requires Valid() && h < |records|
      modifies this`notifying, this`records
      ensures Valid()
      ensures var t := old(All())[h];
              All() == old(All())[h := t.(notifying := true,
                                          afterCommit := if t.notifying then t.afterCommit
                                                         else t.afterCommit + [Notify])]
    {
      hide TxsOf, Keeps, Handles;
      if h in notifying {
        return;
      }
      notifying := notifying + {h};
      records := records[h := records[h].(afterCommit := records[h].afterCommit + [Notify])];
    }

    method RaiseError(classes: set<ErrorClass>) returns (outcome: Outcome)
      requires Valid()
      modifies this`errors
      ensures Valid() && Ran(S(), outcome) == Raised(old(S()), classes) && All() == old(All())
    {
      outcome := Fail(Object(Fresh(errors), classes));
      errors := errors + 1;
    }

    method PublishEvent(event: Event, origin: Origin) returns (outcome: Outcome)
      requires Valid()
      modifies this`calls, this`records, this`notifying, this`added, this`errors
      ensures Valid() && Ran(S(), outcome) == PublishIn(world, old(S()), event, origin)
      ensures Keeps(old(All()), All(), active)
    {
      hide AddIn, TxsOf, View, Keeps, Handles;
      NoneChanged(All(), active);
      if world.home !in active {
        outcome := RaiseError({ILLEGAL_STATE});
        return;
      }
      var refused := world.refuses(calls);
      calls := calls + 1;
      if refused.Some? {
        return Fail(refused.value);
      }
      AddMessage(event, origin);
      outcome := Ok;
    }

    method AddMessage(event: Event, origin: Origin)
      requires Valid() && world.home in active
      modifies this`records, this`notifying, this`added
      ensures Valid() && Keeps(old(All()), All(), active)
      ensures S() == Put(old(S()), world.home, AddIn(old(S()).txs[world.home], event, origin))
    {
      hide TxsOf, Keeps, Handles;
      HandleOf(world.home);
      var h := active[world.home];
      NotifyAfterCommit(h);
      AddRow(h, Message(event, origin));
      OneChanged(old(All()), All(), active, world.home, AddIn(old(All())[h], event, origin));
    }

    method AddRow(h: nat, m: Message)
      requires Valid() && h < |records|
      modifies this`records, this`added
      ensures Valid()
      ensures var t := old(All())[h];
              All() == old(All())[h := t.(rows := t.rows + [m], added := t.added + 1)]
    {
      hide TxsOf, Keeps, Handles;
      records := records[h := records[h].(rows := records[h].rows + [m])];
      added := added[h := added[h] + 1];
    }

    method Exec(script: Script) returns (outcome: Outcome)
      requires Valid()
      modifies this
      ensures Valid() && Ran(S(), outcome) == Perform(world, old(S()), script)
      ensures active == old(active) && Keeps(old(All()), All(), active)
      decreases ScriptSize(script), 1
    {
      hide ActIn, TxsOf, View;
      NoneChanged(All(), active);
      if script.Done? {
        return Ok;
      }
      outcome := ExecAct(script.act);
      if outcome.Ok? {
        ghost var between := All();
        outcome := Exec(script.rest);
        KeepsTwice(old(All()), between, All(), active);
      }
    }

    method ExecAct(act: Act) returns (outcome: Outcome)
      requires Valid()
      modifies this
      ensures Valid() && Ran(S(), outcome) == ActIn(world, old(S()), act)
      ensures active == old(active) && Keeps(old(All()), All(), active)
      decreases ActSize(act), 0
    {
      hide TxsOf, View, WithinIn, PublishIn, ScheduleIn, HookIn, Keeps, Grew, All, Handles;
      outcome := Ok;
      NoneChanged(All(), active);
      match act {
        case Schedule(event) =>
          ScheduleEvent(event);
        case Publish(event) =>
          outcome := PublishEvent(event, Direct);
        case Hook(d, phase, hook) =>
          PushHook(d, phase, hook);
        case Within(o, body) =>
          outcome := ExecWithin(o, body);
        case Try(body, handler) =>
          outcome := Exec(body);
          if outcome.Fail? {
            ghost var between := All();
            outcome := Exec(handler);
            KeepsTwice(old(All()), between, All(), active);
          }
        case Raise(error) =>
          outcome := Fail(error);
        case RaiseFresh(classes) =>
          outcome := RaiseError(classes);
      }
    }

    method ExecWithin(o: Options, body: Script) returns (outcome: Outcome)
      requires Valid()
      modifies this
      ensures Valid() && Ran(S(), outcome) == WithinIn(world, old(S()), o, body)
      ensures active == old(active) && Keeps(old(All()), All(), active)
      decreases Budget(Attempts(o.retry), ScriptSize(body)), 6
    {
      hide TxsOf, View, Keeps, Perform, StartIn, CutBack, Apart, Resumed;
      NoneChanged(All(), active);
      if world.env.misses(o.dataSource).Some? {
        outcome := RaiseError({world.env.misses(o.dataSource).value});
        return;
      }
      match o.propagation {
        case REQUIRED =>
          if o.dataSource in active {
            outcome := Exec(body);
          } else {
            outcome := ExecStart(o, body);
          }
        case REQUIRES_NEW =>
          if o.dataSource in active {
            outcome := ExecAnew(o, body);
          } else {
            outcome := ExecStart(o, body);
          }
        case NESTED =>
          if o.dataSource !in active {
            outcome := ExecStart(o, body);
          } else if o.dataSource !in world.env.savepoints {
            outcome := RaiseError({ILLEGAL_STATE});
          } else {
            outcome := ExecNested(o, body);
          }
        case SUPPORTS =>
          outcome := Exec(body);
        case NOT_SUPPORTED =>
          if o.dataSource in active {
            outcome := ExecApart(o.dataSource, body);
          } else {
            outcome := Exec(body);
          }
        case NEVER =>
          if o.dataSource in active {
            outcome := RaiseError({ILLEGAL_STATE});
          } else {
            outcome := Exec(body);
          }
        case MANDATORY =>
          if o.dataSource in active {
            outcome := Exec(body);
          } else {
            outcome := RaiseError({ILLEGAL_STATE});
          }
      }
    }

    /** The transaction on `d` is suspended. */
    method Suspend(d: DataSource) returns (handle: nat)
      requires Valid() && d in active
      modifies this`active
      ensures Valid() && All() == old(All()) && S() == Apart(old(S()), d)
      ensures active == old(active) - {d} && handle == old(active)[d]
    {
      hide TxsOf, Handles, View;
      Suspends(All(), active, d);
      handle := active[d];
      active := active - {d};
    }

    /** It is visible again, as it was. */
    method Resume(d: DataSource, handle: nat, ghost all: seq<Tx>, ghost was: map<DataSource, nat>)
      requires Valid() && Handles(was, |all|) && d in was && was[d] == handle
      requires active == was - {d} && Keeps(all, All(), active)
      modifies this`active
      ensures Valid() && active == was && Keeps(all, All(), active)
      ensures S() == Resumed(old(S()), d, TxsOf(all, was)[d])
    {
      hide TxsOf, Handles, View, Keeps;
      Resumes(all, All(), was, d);
      active := active[d := handle];
      assert active == was;
    }

    method ExecApart(d: DataSource, body: Script) returns (outcome: Outcome)
      requires Valid() && d in active
      modifies this
      ensures Valid() && active == old(active) && Keeps(old(All()), All(), active)
      ensures var r := Perform(world, Apart(old(S()), d), body);
              Ran(S(), outcome) == Ran(Resumed(r.state, d, old(S()).txs[d]), r.outcome)
      decreases ScriptSize(body), 4
    {
      hide Perform, View, Keeps, TxsOf, Handles, Grew, All, Apart, Resumed;
      var handle := Suspend(d);
      outcome := Exec(body);
      Resume(d, handle, old(All()), old(active));
    }

    method ExecAnew(o: Options, body: Script) returns (outcome: Outcome)
      requires Valid() && o.dataSource in active
      modifies this
      ensures Valid() && active == old(active) && Keeps(old(All()), All(), active)
      ensures var d := o.dataSource;
              var r := StartIn(world, Apart(old(S()), d), o, body);
              Ran(S(), outcome) == Ran(Resumed(r.state, d, old(S()).txs[d]), r.outcome)
      decreases Budget(Attempts(o.retry), ScriptSize(body)), 5, 1
    {
      hide StartIn, View, Keeps, TxsOf, Handles, Grew, All, Resumed;
      var handle := Suspend(o.dataSource);
      outcome := ExecStart(o, body);
      Resume(o.dataSource, handle, old(All()), old(active));
    }

    method ExecNested(o: Options, body: Script) returns (outcome: Outcome)
      requires Valid() && o.dataSource in active
      modifies this
      ensures Valid() && active == old(active) && Keeps(old(All()), All(), active)
      ensures Ran(S(), outcome) == CutBack(old(S()), Perform(world, old(S()), body), o)
      decreases ScriptSize(body), 4
    {
      hide Perform, Keeps, TxsOf, Handles, View, Grew;
      HandleOf(o.dataSource);
      var mark := |records[active[o.dataSource]].rows|;
      outcome := Exec(body);
      if outcome.Fail? && ShouldRollback(outcome.error, o) {
        ghost var ran := All();
        CutRows(o.dataSource, mark);
        KeepsTwice(old(All()), ran, All(), active);
      }
    }

    /** ROLLBACK TO: the rows after the mark go. */
    method CutRows(d: DataSource, mark: nat)
      requires Valid() && d in active
      modifies this`records
      ensures Valid() && Keeps(old(All()), All(), active)
      ensures var t := old(S()).txs[d];
              S() == if mark <= |t.rows| then Put(old(S()), d, t.(rows := t.rows[..mark])) else old(S())
    {
      hide TxsOf, Keeps, Handles;
      NoneChanged(All(), active);
      HandleOf(d);
      var h := active[d];
      if mark <= |records[h].rows| {
        records := records[h := records[h].(rows := records[h].rows[..mark])];
        OneChanged(old(All()), All(), active, d, old(All())[h].(rows := old(All())[h].rows[..mark]));
      }
    }

    /** One transaction after another, while the options allow it. */
    method ExecStart(o: Options, body: Script) returns (outcome: Outcome)
      requires Valid() && o.dataSource !in active
      modifies this
      ensures Valid() && Ran(S(), outcome) == StartIn(world, old(S()), o, body)
      ensures active == old(active) && Keeps(old(All()), All(), active)
      decreases Budget(Attempts(o.retry), ScriptSize(body)), 5, 0
    {
      hide TransactIn, TxsOf, View, Keeps, Retryable;
      NoneChanged(All(), active);
      if !ValidRetry(o.retry) {
        outcome := RaiseError({TYPE_ERROR});
        return;
      }
      var left, again := Attempts(o.retry), true;
      ghost var whole := AttemptIn(world, S(), left, o, body);
      outcome := Ok;
      while again
        invariant Valid() && active == old(active) && Keeps(old(All()), All(), active)
        invariant again ==> 1 <= left
        invariant whole == if again then AttemptIn(world, S(), left, o, body) else Ran(S(), outcome)
        decreases left, again
      {
        ghost var before := All();
        outcome := ExecTransaction(o, body);
        KeepsTwice(old(All()), before, All(), active);
        again := outcome.Fail? && left > 1 && outcome.error.Object? && outcome.error.id in rolledBack
                 && Retryable(outcome.error, o.retry);
        left := left - 1;
      }
    }

    /** The flush hook empties the buffer before it adds anything. */
    method TakeBuffer(d: DataSource) returns (events: seq<Event>)
      requires Valid() && d in active
      modifies this`pending
      ensures Valid() && S() == Unbuffered(old(S()), d) && events == Buffer(old(S()).txs[d])
      ensures Keeps(old(All()), All(), active)
    {
      var h := active[d];
      events := if h in pending then pending[h] else [];
      pending := pending - {h};
      OneChanged(old(All()), All(), active, d, old(All())[h].(pending := None));
    }

    /** The flush hook. */
    method RunFlush(d: DataSource) returns (outcome: Outcome)
      requires Valid() && d in active
      modifies this`calls, this`records, this`notifying, this`added, this`pending, this`errors
      ensures Valid() && Ran(S(), outcome) == FlushIn(world, old(S()), d) && Keeps(old(All()), All(), active)
    {
      hide PublishIn, Keeps, View, TxsOf, Handles, Grew, All, S, Unbuffered, Buffer;
      HandleOf(d);
      var events := TakeBuffer(d);
      ghost var whole := AddAll(world, S(), events);
      outcome := Ok;
      var i := 0;
      assert events[0..] == events;
      while i < |events| && outcome.Ok?
        invariant Valid() && 0 <= i <= |events| && Keeps(old(All()), All(), active)
        invariant whole == if outcome.Ok? then AddAll(world, S(), events[i..]) else Ran(S(), outcome)
      {
        assert events[i..][1..] == events[i + 1..];
        ghost var before := All();
        outcome := PublishEvent(events[i], Flushed);
        KeepsTwice(old(All()), before, All(), active);
        i := i + 1;
      }
    }

    /** The live loop of the transaction on `d`; `budget` bounds the work left. */
    method RunBeforeCommitHooks(d: DataSource, ghost budget: nat) returns (outcome: Outcome)
      requires Valid() && d in active && BeforeSize(S().txs[d].beforeCommit) <= budget
      modifies this
      ensures Valid() && Ran(S(), outcome) == LoopIn(world, old(S()), d, 0)
      ensures active == old(active) && Keeps(old(All()), All(), active)
      decreases budget, 1
    {
      hide Keeps, TurnIn, Looped, TxsOf, Handles;
      NoneChanged(All(), active);
      HandleOf(d);
      ghost var whole := LoopIn(world, S(), d, 0);
      var h := active[d];
      outcome := Ok;
      var i := 0;
      assert S().txs[d].beforeCommit[0..] == S().txs[d].beforeCommit;
      while i < |records[h].beforeCommit| && outcome.Ok?
        invariant Valid() && active == old(active) && Keeps(old(All()), All(), active)
        invariant h < |records| && records[h].beforeCommit == S().txs[d].beforeCommit
        invariant i <= |S().txs[d].beforeCommit| && BeforeSize(S().txs[d].beforeCommit[i..]) <= budget
        invariant whole == if outcome.Ok? then LoopIn(world, S(), d, i) else Ran(S(), outcome)
        decreases BeforeSize(S().txs[d].beforeCommit[i..]), outcome.Ok?
      {
        ghost var before := All();
        outcome := RunHook(d, i, budget);
        HandleOf(d);
        KeepsTwice(old(All()), before, All(), active);
        i := i + 1;
      }
    }

    /** One turn of the loop. */
    method RunHook(d: DataSource, i: nat, ghost budget: nat) returns (outcome: Outcome)
      requires Valid() && d in active && i < |S().txs[d].beforeCommit|
      requires BeforeSize(S().txs[d].beforeCommit[i..]) <= budget
      modifies this
      ensures Valid() && Ran(S(), outcome) == TurnIn(world, old(S()), d, i)
      ensures active == old(active) && Keeps(old(All()), All(), active)
      decreases budget, 0
    {
      hide Keeps, Perform, FlushIn, TxsOf, Handles;
      HandleOf(d);
      var hook := records[active[d]].beforeCommit[i];
      assert S().txs[d].beforeCommit[i..][0] == hook;
      if hook.Flush? {
        outcome := RunFlush(d);
      } else {
        outcome := Exec(hook.script);
      }
    }

    /** One transaction: BEGIN, body, before-commit hooks, COMMIT or ROLLBACK, after-phase
        hooks; it is visible until its callback has ended. */
    method ExecTransaction(o: Options, body: Script) returns (outcome: Outcome)
      requires Valid() && o.dataSource !in active
      modifies this
      ensures Valid() && Ran(S(), outcome) == TransactIn(world, old(S()), o, body)
      ensures active == old(active) && Keeps(old(All()), All(), active)
      decreases ScriptSize(body), 3
    {
      hide CallbackIn, SettleIn, Keeps, View, Affordable, TxsOf, Handles;
      NoneChanged(All(), active);
      var h, began := |records|, world.env.signal(clock);
      if began.Fault? {
        clock := clock + 1;
        outcome := RaiseError(began.classes);
        rolledBack := rolledBack + {outcome.error.id};
        return;
      }
      ghost var c := CallbackIn(world, S(), o.dataSource, body);
      var bodyEnded;
      bodyEnded, outcome := RunCallback(o.dataSource, body);
      ghost var ran := All();
      outcome := SettleTransaction(o, h, bodyEnded, outcome, old(S()), ScriptSize(body), c);
      KeepsTwice(old(All()), ran, All(), active);
    }

    /** The callback of BEGIN: body, then, if it completes, the live loop; then the
        transaction is visible no longer. */
    method RunCallback(d: DataSource, body: Script) returns (bodyEnded: Outcome, outcome: Outcome)
      requires Valid() && d !in active
      modifies this
      ensures Valid() && active == old(active) && Keeps(old(All()), All(), active) && |old(records)| < |records|
      ensures var c := CallbackIn(world, old(S()), d, body);
              && bodyEnded == c.bodyEnded && outcome == c.ran.outcome
              && Affordable(old(S()), c.ran.state, d, ScriptSize(body))
              && S() == Apart(c.ran.state, d) && All()[|old(records)|] == c.ran.state.txs[d]
      decreases ScriptSize(body), 2
    {
      hide Perform, LoopIn, Keeps, View, Grew, Looped, TxsOf, Handles, Affordable, BeforeSize, Left;
      var suspended := active;
      OpenTransaction(d);
      ghost var begun := All();
      bodyEnded := Exec(body);
      outcome := bodyEnded;
      ghost var b := S();
      CallbackBudget(old(S()), d, b, ScriptSize(body));
      if outcome.Ok? {
        ghost var ran := All();
        outcome := RunBeforeCommitHooks(d, ScriptSize(body));
        KeepsTwice(begun, ran, All(), active);
      }
      Close(d, suspended, old(All()));
    }

    /** The transaction on `d`, the last one begun when `was` were visible, is visible no
        longer. */
    method Close(d: DataSource, was: map<DataSource, nat>, ghost all: seq<Tx>)
      requires Valid() && d !in was && Handles(was, |all|) && active == was[d := |all|]
      requires Keeps(all + [NewTx()], All(), active)
      modifies this`active
      ensures Valid() && active == was && Keeps(all, All(), active) && |all| < |records|
      ensures S() == Apart(old(S()), d) && d in old(S()).txs && All()[|all|] == old(S()).txs[d]
    {
      hide TxsOf, Handles, View, Keeps;
      Closes(all, All(), was, d);
      active := was;
    }

    method OpenTransaction(d: DataSource)
      requires Valid() && d !in active
      modifies this`records, this`active, this`accepted, this`added, this`clock
      ensures Valid() && active == old(active)[d := |old(records)|] && All() == old(All()) + [NewTx()]
      ensures S() == BeginIn(old(S()), d)
    {
      Opens(All(), active, d);
      clock, active := clock + 1, active[d := |records|];
      records, accepted, added := records + [Record([], [], [], [])], accepted + [[]], added + [0];
      assert All() == old(All()) + [NewTx()];
    }

    /** COMMIT or ROLLBACK of transaction `h`, whose callback was `c`, and its hooks. */
    method SettleTransaction(o: Options, h: nat, bodyEnded: Outcome, callbackEnded: Outcome, ghost before: State,
                             ghost size: nat, ghost c: Called) returns (outcome: Outcome)
      requires Valid() && h < |records| && o.dataSource !in active
      requires Affordable(before, c.ran.state, o.dataSource, size)
      requires c.bodyEnded == bodyEnded && c.ran.outcome == callbackEnded
      requires S() == Apart(c.ran.state, o.dataSource) && All()[h] == c.ran.state.txs[o.dataSource]
      modifies this
      ensures Valid() && Ran(S(), outcome) == SettleIn(world, before, o, size, c)
      ensures active == old(active) && Keeps(old(All()), All(), active)
      decreases size, 2
    {
      hide AfterIn, Keeps, Affordable, Grew, TxsOf, Handles, AfterSize, View, RollBackIn, CommitIn;
      AffordableAt(before, c.ran.state, o.dataSource, size);
      ClosedBudget(before, c.ran.state, o.dataSource, size);
      outcome := callbackEnded;
      var back := outcome.Fail? && ShouldRollback(outcome.error, o);
      if !back {
        var answer := world.env.signal(clock);
        clock := clock + 1;
        if answer.Fault? {
          back := true;
          outcome := RaiseError(answer.classes);
        }
      }
      ghost var f := Finished(o, All()[h], bodyEnded, callbackEnded, !back);
      if back {
        RollBackOutcome(world, before, S(), f, outcome.error, size);
        FinishRollback(h, f, outcome.error, before, size);
      } else {
        CommitOutcome(world, before, S(), f, size);
        FinishCommit(h, f, before, size);
      }
    }

    method FinishRollback(h: nat, ghost f: Finished, error: Error, ghost before: State, ghost size: nat)
      requires Valid() && h < |records| && f.tx == All()[h]
      requires AfterSize(f.tx.afterRollback) <= size
               && Grew(before.txs, S().txs, size - AfterSize(f.tx.afterRollback))
      modifies this
      ensures Valid() && S() == RollBackIn(world, before, old(S()), f, error, size).state
      ensures active == old(active) && Keeps(old(All()), All(), active)
      decreases size, 1
    {
      hide AfterIn, Keeps, Grew, TxsOf, Handles, AfterSize;
      finished := finished + [f];
      RunAfterHooks(records[h].afterRollback);
      if error.Object? {
        rolledBack := rolledBack + {error.id};
      }
    }

    method FinishCommit(h: nat, ghost f: Finished, ghost before: State, ghost size: nat)
      requires Valid() && h < |records| && f.tx == All()[h]
      requires AfterSize(f.tx.afterCommit) <= size
               && Grew(before.txs, S().txs, size - AfterSize(f.tx.afterCommit))
      modifies this
      ensures Valid() && S() == CommitIn(world, before, old(S()), f, size).state
      ensures active == old(active) && Keeps(old(All()), All(), active)
      decreases size, 1
    {
      hide AfterIn, Keeps, Grew, TxsOf, Handles, AfterSize;
      finished := finished + [f];
      durable := durable + records[h].rows;
      RunAfterHooks(records[h].afterCommit);
    }

    /** After-phase hooks all run, whatever the earlier ones threw. */
    method RunAfterHooks(hooks: seq<AfterHook>)
      requires Valid()
      modifies this
      ensures Valid() && S() == AfterIn(world, old(S()), hooks)
      ensures active == old(active) && Keeps(old(All()), All(), active)
      decreases AfterSize(hooks), 0
    {
      hide Perform, Keeps, View, TxsOf, AfterSize, Handles;
      NoneChanged(All(), active);
      ghost var whole := AfterIn(world, S(), hooks);
      var i := 0;
      assert hooks[0..] == hooks;
      while i < |hooks|
        invariant Valid() && 0 <= i <= |hooks| && active == old(active) && Keeps(old(All()), All(), active)
        invariant AfterSize(hooks[i..]) <= AfterSize(hooks)
        invariant whole == AfterIn(world, S(), hooks[i..])
      {
        AfterFits(hooks, i);
        assert hooks[i..][1..] == hooks[i + 1..];
        if hooks[i].Notify? {
          notifications := notifications + 1;
        } else {
          ghost var before := All();
          var outcome := Exec(hooks[i].script);
          KeepsTwice(old(All()), before, All(), active);
        }
        i := i + 1;
      }
    }
  }
}
