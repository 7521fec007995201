/** What every program does with the events it schedules and publishes, and when they
    can be lost. */
module OutboxLaws {
  import opened Wrappers
  import opened Programs
  import opened Outboxes
  import opened OutboxBooks

  // Whole programs.

  function Start(known: set<Event>): State {
    State(Bus(0, 0, 0, 0, {}, known, [], [], 0, []), map[])
  }

  function BusAfter(w: Outside, known: set<Event>, program: Script): Bus {
    Perform(w, Start(known), program).state.bus
  }

  /** Of every program, with transactions nested and retried in whatever way: each
      transaction that ended is sound; what is durable are the rows of the committed
      ones, in commit order; a notification is sent for each of them that added a
      message; and every externalized event scheduled for the first time was accepted by
      one transaction, or dropped, and by no other. */
  lemma {:induction false} EveryTransaction(w: Outside, known: set<Event>, program: Script)
    ensures var bus := BusAfter(w, known, program);
            && (forall i | 0 <= i < |bus.finished| :: Sound(w, bus.finished[i]))
            && bus.durable == Durable(bus.finished) && bus.notifications == Notified(bus.finished)
            && AcceptedBy(bus.finished) + multiset(bus.dropped) == multiset(News(known, bus.scheduled))
  {
    hide Perform, Sound, Placed;
    PerformDoes(w, Start(known), program, map[]);
    PlacedWithout(w, Start(known).bus);
    PlacedWithout(w, BusAfter(w, known, program));
    assert Perform(w, Start(known), program).state == State(BusAfter(w, known, program), map[]);
  }

  lemma PlacedWithout(w: Outside, bus: Bus)
    ensures Placed(w, State(bus, map[])) == AcceptedBy(bus.finished) + multiset(bus.dropped)
  {
  }

  /** The durable flushed events, up to the transaction that ended last. */
  lemma LandedSplit(finished: seq<Finished>)
    requires finished != []
    ensures var last, before := finished[|finished| - 1], finished[..|finished| - 1];
            && multiset(FlushedOf(Durable(finished)))
               == multiset(FlushedOf(Durable(before)))
                  + multiset(if last.committed then FlushedOf(last.tx.rows) else [])
            && AcceptedBy(finished) == AcceptedBy(before) + multiset(last.tx.accepted)
  {
    hide FlushedOf;
    var last, before := finished[|finished| - 1], finished[..|finished| - 1];
    EmptyIsUnflushed();
    FlushedConcat(Durable(before), if last.committed then last.tx.rows else []);
  }

  lemma {:induction false} LandedAreAccepted(w: Outside, finished: seq<Finished>)
    requires forall f | f in finished :: Sound(w, f)
    ensures multiset(FlushedOf(Durable(finished))) <= AcceptedBy(finished)
  {
    if finished == [] {
      EmptyIsUnflushed();
    } else {
      hide Sound, FlushedOf, Durable, AcceptedBy;
      var last := finished[|finished| - 1];
      LandedAreAccepted(w, finished[..|finished| - 1]);
      LandedSplit(finished);
      FlushedAreAccepted(w, last);
    }
  }

  lemma {:induction false} AcceptedLand(w: Outside, finished: seq<Finished>)
    requires forall f | f in finished :: Sound(w, f) && f.committed && f.ended.Ok?
    ensures multiset(FlushedOf(Durable(finished))) == AcceptedBy(finished)
  {
    if finished == [] {
      EmptyIsUnflushed();
    } else {
      hide Sound, FlushedOf, Durable, AcceptedBy;
      var last := finished[|finished| - 1];
      AcceptedLand(w, finished[..|finished| - 1]);
      LandedSplit(finished);
      FlushedAreAccepted(w, last);
    }
  }

  lemma EmptyIsUnflushed()
    ensures FlushedOf([]) == []
  {
  }

  lemma FlushedAreAccepted(w: Outside, f: Finished)
    requires Sound(w, f)
    ensures multiset(FlushedOf(f.tx.rows)) <= multiset(f.tx.accepted)
    ensures f.ended.Ok? ==> FlushedOf(f.tx.rows) == f.tx.accepted
  {
    var left :| FlushedOf(f.tx.rows) + left + Buffer(f.tx) == f.tx.accepted;
  }

  /** No scheduled event is flushed into the durable outbox twice; where nothing was
      dropped and every transaction committed after a normal end, each one is, once. */
  lemma {:induction false} FlushedAtMostOnce(w: Outside, known: set<Event>, program: Script)
    ensures var bus := BusAfter(w, known, program);
            && (forall e :: multiset(FlushedOf(bus.durable))[e] <= if e in News(known, bus.scheduled) then 1 else 0)
            && (bus.dropped == []
                && (forall i | 0 <= i < |bus.finished| :: bus.finished[i].committed && bus.finished[i].ended.Ok?)
                ==> multiset(FlushedOf(bus.durable)) == multiset(News(known, bus.scheduled)))
  {
    hide BusAfter, Sound, Durable, AcceptedBy, FlushedOf;
    var bus := BusAfter(w, known, program);
    EveryTransaction(w, known, program);
    LandedAreAccepted(w, bus.finished);
    if forall i | 0 <= i < |bus.finished| :: bus.finished[i].committed && bus.finished[i].ended.Ok? {
      AcceptedLand(w, bus.finished);
    }
    forall e ensures multiset(FlushedOf(bus.durable))[e] <= if e in News(known, bus.scheduled) then 1 else 0 {
      assert multiset(FlushedOf(bus.durable))[e] <= (AcceptedBy(bus.finished) + multiset(bus.dropped))[e];
    }
  }

  // One call.

  /** The transactions `txs'` are `txs`, but for that on `d`, which is `t`. */
  ghost predicate OnlyChanged(txs: map<DataSource, Tx>, txs': map<DataSource, Tx>, d: DataSource, t: Tx) {
    txs'.Keys == txs.Keys && forall c | c in txs :: txs'[c] == if c == d then t else txs[c]
  }

  /** A publication, direct or of the flush: refused without a call where no transaction of
      the outbox's dataSource is visible; an error that `outbox.add` throws is thrown, and
      nothing is added; else the one message is added to that transaction, whose
      first message arms its one notification. */
  lemma PublishDecides(w: Outside, s: State, e: Event, origin: Origin)
    ensures var r := PublishIn(w, s, e, origin);
            if w.home !in s.txs
            then r.outcome == Fail(Object(Fresh(s.bus.errors), {"IllegalTransactionStateError"}))
                 && r.state.txs == s.txs && r.state.bus == s.bus.(errors := s.bus.errors + 1)
            else
              && r.state.bus == s.bus.(calls := s.bus.calls + 1)
              && match w.refuses(s.bus.calls)
                 case Some(error) => r.outcome == Fail(error) && r.state.txs == s.txs
                 case None =>
                   var t, t' := s.txs[w.home], r.state.txs[w.home];
                   && r.outcome == Ok && OnlyChanged(s.txs, r.state.txs, w.home, t')
                   && t'.rows == t.rows + [Message(e, origin)] && t'.added == t.added + 1
                   && t'.afterCommit == t.afterCommit + (if t.notifying then [] else [Notify]) && t'.notifying
                   && t'.beforeCommit == t.beforeCommit && t'.afterRollback == t.afterRollback
                   && t'.pending == t.pending && t'.accepted == t.accepted
  {
  }

  /** A scheduled event: nothing for an object scheduled before; otherwise it is known from
      now on, and, if it is externalized, dropped where no transaction of the outbox's
      dataSource is visible, else accepted and buffered last, behind one flush hook. */
  lemma ScheduleDecides(w: Outside, s: State, e: Event)
    ensures var s' := ScheduleIn(w, s, e);
            && (e in s.bus.scheduled ==> s' == s)
            && (e !in s.bus.scheduled ==>
                  && s'.bus.scheduled == s.bus.scheduled + {e}
                  && s'.bus.dropped == s.bus.dropped + (if e.externalized && w.home !in s.txs then [e] else [])
                  && if !e.externalized || w.home !in s.txs then s'.txs == s.txs
                     else
                       var t, t' := s.txs[w.home], s'.txs[w.home];
                       && OnlyChanged(s.txs, s'.txs, w.home, t')
                       && t'.accepted == t.accepted + [e] && t'.rows == t.rows
                       && t'.pending == Some(if t.pending.Some? then t.pending.value + [e] else [e])
                       && t'.beforeCommit == t.beforeCommit + (if t.pending.Some? then [] else [Flush]))
  {
    if w.home in s.txs {
      assert [] + [e] == [e];
    }
  }

  // Which options let scheduled events be lost.

  /** The events a transaction accepted are committed with it. */
  predicate Delivered(f: Finished) {
    f.committed ==> FlushedOf(f.tx.rows) == f.tx.accepted
  }

  /** Every transaction that some program begins with the options `o` is. */
  ghost predicate Delivers(o: Options, w: Outside, known: set<Event>, program: Script) {
    var finished := BusAfter(w, known, program).finished;
    forall i | 0 <= i < |finished| && finished[i].options == o :: Delivered(finished[i])
  }

  predicate NoRules(o: Options) {
    o.noRollbackFor == {} && o.rollbackFor == {}
  }

  /** An error that commits under `o`. */
  function Exempted(o: Options): Error
    requires !NoRules(o)
    ensures !ShouldRollback(Exempted(o), o)
  {
    if o.noRollbackFor == {} then Primitive(0)
    else
      assert MatchesAny(Object(Shared(0), o.noRollbackFor), o.noRollbackFor) by {
        var c :| c in o.noRollbackFor;
      }
      Object(Shared(0), o.noRollbackFor)
  }

  lemma RollsBackWithoutRules(o: Options, error: Error)
    requires NoRules(o)
    ensures ShouldRollback(error, o)
  {
  }

  lemma {:induction false} SoundDelivers(w: Outside, f: Finished)
    requires Sound(w, f) && NoRules(f.options)
    ensures Delivered(f)
  {
    if f.committed && f.ended.Fail? {
      RollsBackWithoutRules(f.options, f.ended.error);
    }
  }

  /** Scheduled events always commit with the transaction that accepted them, in every
      program and whatever fails, if and only if its options have no rollback rule, or
      can begin no transaction. */
  lemma {:induction false} DeliverySafety(o: Options)
    ensures (forall w, known, program :: Delivers(o, w, known, program)) <==> NoRules(o) || !CanBegin(o)
  {
    hide BusAfter, FlushedOf, Sound, Delivered;
    if NoRules(o) || !CanBegin(o) {
      forall w, known, program ensures Delivers(o, w, known, program) {
        EveryTransaction(w, known, program);
        var finished := BusAfter(w, known, program).finished;
        forall i | 0 <= i < |finished| && finished[i].options == o ensures Delivered(finished[i]) {
          SoundBegan(w, finished[i]);
          SoundDelivers(w, finished[i]);
        }
      }
    } else {
      var w, e := Outside(Obliging(), o.dataSource, _ => None), Event(0, true);
      CommittedErrorLoses(w, o, e, Exempted(o));
      LostIsUndelivered(w, o, e, Exempted(o));
    }
  }

  lemma SoundBegan(w: Outside, f: Finished)
    requires Sound(w, f)
    ensures CanBegin(f.options)
  {
  }

  // Events that are lost.

  function Just(act: Act): Script {
    Do(act, Done)
  }

  lemma JustDoes(w: Outside, s: State, act: Act)
    ensures Perform(w, s, Just(act)) == ActIn(w, s, act)
  {
    hide ActIn;
    var r := ActIn(w, s, act);
    assert Perform(w, r.state, Done) == Ran(r.state, Ok);
  }

  /** The program that schedules `e` in a run and throws `error`. */
  function SchedulesAndThrows(o: Options, e: Event, error: Error): Script {
    Just(Within(o, Do(Schedule(e), Just(Raise(error)))))
  }

  /** Where no transaction is visible a run begins one of its own. */
  lemma BeginsItsOwn(w: Outside, s: State, o: Options, body: Script)
    requires s.txs == map[] && CanBegin(o) && w.env.misses(o.dataSource).None?
    ensures Perform(w, s, Just(Within(o, body))) == AttemptIn(w, s, Attempts(o.retry), o, body)
  {
    hide AttemptIn;
    JustDoes(w, s, Within(o, body));
    assert WithinIn(w, s, o, body) == StartIn(w, s, o, body) == AttemptIn(w, s, Attempts(o.retry), o, body);
  }

  /** An attempt whose error is not one some transaction was rolled back for is the last. */
  lemma OneAttempt(w: Outside, s: State, k: nat, o: Options, body: Script)
    requires o.dataSource !in s.txs && 1 <= k
    requires var r := TransactIn(w, s, o, body);
             r.outcome.Ok? || r.outcome.error.Primitive? || r.outcome.error.id !in r.state.bus.marked
    ensures AttemptIn(w, s, k, o, body) == TransactIn(w, s, o, body)
  {
    hide TransactIn;
  }

  /** What is left when a transaction commits with no after-commit hook but the notification. */
  ghost predicate CommitsAs(r: Ran, bus: Bus, f: Finished) {
    && r.state.bus.finished == bus.finished + [f]
    && r.state.bus.durable == bus.durable + f.tx.rows && r.outcome == f.ended
    && r.state.bus.marked == bus.marked && r.state.bus.dropped == bus.dropped
    && r.state.bus.scheduled == bus.scheduled && r.state.txs == map[]
    && r.state.bus.clock == bus.clock + 1 && r.state.bus.calls == bus.calls
    && r.state.bus.notifications == bus.notifications + |f.tx.afterCommit|
  }

  lemma {:induction false} Commits(w: Outside, s: State, o: Options, body: Script, c: Called)
    requires s.txs == map[] && w.env.signal(s.bus.clock).Proceed? && c == CallbackIn(w, s, o.dataSource, body)
    requires w.env.signal(c.ran.state.bus.clock).Proceed?
    requires c.ran.outcome.Fail? ==> !ShouldRollback(c.ran.outcome.error, o)
    requires o.dataSource in c.ran.state.txs
    requires var hooks := c.ran.state.txs[o.dataSource].afterCommit; hooks == [] || hooks == [Notify]
    ensures CommitsAs(TransactIn(w, s, o, body), c.ran.state.bus,
                      Finished(o, c.ran.state.txs[o.dataSource], c.bodyEnded, c.ran.outcome, true))
  {
    hide CallbackIn, CommitsAs, AfterIn;
    var d, size := o.dataSource, ScriptSize(body);
    var asked := Apart(c.ran.state, d).(bus := c.ran.state.bus.(clock := c.ran.state.bus.clock + 1));
    var f := Finished(o, c.ran.state.txs[d], c.bodyEnded, c.ran.outcome, true);
    ClosedBudget(s, c.ran.state, d, size);
    assert asked.txs == map[];
    CommitPlainly(w, s, asked, f, size);
    assert TransactIn(w, s, o, body) == SettleIn(w, s, o, size, c) == CommitIn(w, s, asked, f, size);
    CommitsAsBefore(CommitIn(w, s, asked, f, size), asked.bus, c.ran.state.bus, f);
  }

  lemma CommitPlainly(w: Outside, before: State, s: State, f: Finished, size: nat)
    requires AfterSize(f.tx.afterCommit) <= size && Grew(before.txs, s.txs, size - AfterSize(f.tx.afterCommit))
    requires f.tx.afterCommit == [] || f.tx.afterCommit == [Notify]
    ensures var r := CommitIn(w, before, s, f, size);
            r == Ran(s.(bus := s.bus.(finished := s.bus.finished + [f], durable := s.bus.durable + f.tx.rows,
                                      notifications := s.bus.notifications + |f.tx.afterCommit|)), f.ended)
  {
    if f.tx.afterCommit == [Notify] {
      assert [Notify][1..] == [];
    }
  }

  lemma CommitsAsBefore(r: Ran, asked: Bus, bus: Bus, f: Finished)
    requires asked == bus.(clock := bus.clock + 1) && r.state.txs == map[]
    requires r.state.bus == asked.(finished := asked.finished + [f], durable := asked.durable + f.tx.rows,
                                   notifications := asked.notifications + |f.tx.afterCommit|)
    requires r.outcome == f.ended
    ensures CommitsAs(r, bus, f)
  {
  }

  /** The new transaction after one scheduled event. */
  function Scheduled(e: Event): Tx {
    NewTx().(pending := Some([e]), beforeCommit := [Flush], accepted := [e])
  }

  function AfterSchedule(s: State, d: DataSource, e: Event): State {
    var begun := BeginIn(s, d);
    State(begun.bus.(scheduled := begun.bus.scheduled + {e}), begun.txs[d := Scheduled(e)])
  }

  lemma SchedulesOne(w: Outside, s: State, e: Event)
    requires e.externalized && e !in s.bus.scheduled
    ensures ScheduleIn(w, BeginIn(s, w.home), e) == AfterSchedule(s, w.home, e)
  {
    assert [] + [e] == [e] && [] + [Flush] == [Flush];
  }

  lemma {:induction false} ThrownCallback(w: Outside, s: State, e: Event, error: Error)
    requires s.txs == map[] && e.externalized && e !in s.bus.scheduled
    ensures CallbackIn(w, s, w.home, Do(Schedule(e), Just(Raise(error))))
            == Called(Fail(error), Ran(AfterSchedule(s, w.home, e), Fail(error)))
  {
    hide AfterSchedule, BeginIn, ScheduleIn;
    var s1, s2 := BeginIn(s, w.home), AfterSchedule(s, w.home, e);
    SchedulesOne(w, s, e);
    JustDoes(w, s2, Raise(error));
    assert ActIn(w, s1, Schedule(e)) == Ran(s2, Ok);
    assert Perform(w, s1, Do(Schedule(e), Just(Raise(error)))) == Ran(s2, Fail(error));
  }

  /** An event scheduled in a body whose error commits is accepted and lost. */
  lemma {:induction false} CommittedErrorLoses(w: Outside, o: Options, e: Event, error: Error)
    requires e.externalized && !ShouldRollback(error, o) && CanBegin(o) && o.dataSource == w.home
    requires w.env.misses(w.home).None? && w.env.signal(0).Proceed? && w.env.signal(1).Proceed?
    ensures var bus := BusAfter(w, {}, SchedulesAndThrows(o, e, error));
            && |bus.finished| == 1 && bus.finished[0].options == o && bus.finished[0].committed
            && bus.finished[0].tx.accepted == [e] && bus.finished[0].tx.rows == [] && bus.durable == []
  {
    hide TransactIn, CallbackIn, AttemptIn, Perform, ShouldRollback, CanBegin;
    var s, body := Start({}), Do(Schedule(e), Just(Raise(error)));
    BeginsItsOwn(w, s, o, body);
    ThrownCallback(w, s, e, error);
    Commits(w, s, o, body, CallbackIn(w, s, w.home, body));
    OneAttempt(w, s, Attempts(o.retry), o, body);
  }

  lemma LostIsUndelivered(w: Outside, o: Options, e: Event, error: Error)
    requires var finished := BusAfter(w, {}, SchedulesAndThrows(o, e, error)).finished;
             && |finished| == 1 && finished[0].options == o && finished[0].committed
             && finished[0].tx.accepted == [e] && finished[0].tx.rows == []
    ensures !Delivers(o, w, {}, SchedulesAndThrows(o, e, error))
  {
    hide BusAfter;
    EmptyIsUnflushed();
  }

  lemma {:induction false} ScheduledCallback(w: Outside, s: State, e: Event)
    requires s.txs == map[] && e.externalized && e !in s.bus.scheduled
    ensures var s2 := AfterSchedule(s, w.home, e);
            CallbackIn(w, s, w.home, Just(Schedule(e))) == Called(Ok, LoopIn(w, s2, w.home, 0))
  {
    hide AfterSchedule, BeginIn, ScheduleIn, LoopIn;
    SchedulesOne(w, s, e);
    JustDoes(w, BeginIn(s, w.home), Schedule(e));
  }

  /** The loop over the one flush hook of one event. */
  lemma {:induction false} FlushesOne(w: Outside, s: State, e: Event)
    requires w.home in s.txs && s.txs[w.home] == Scheduled(e)
    ensures var r := PublishIn(w, Unbuffered(s, w.home), e, Flushed);
            LoopIn(w, s, w.home, 0) == r
  {
    hide PublishIn;
    var d, t := w.home, s.txs[w.home];
    assert [e][1..] == [];
    PublishGrows(w, Unbuffered(s, d), e, Flushed);
    var r := PublishIn(w, Unbuffered(s, d), e, Flushed);
    assert AddAll(w, r.state, []) == Ran(r.state, Ok);
    assert AddAll(w, Unbuffered(s, d), [e]) == if r.outcome.Fail? then r else Ran(r.state, Ok);
    PublishOutcome(w, Unbuffered(s, d), e);
    assert TurnIn(w, s, d, 0) == r;
    if r.outcome.Ok? {
      assert LoopIn(w, r.state, d, 1) == Ran(r.state, Ok);
    }
  }

  lemma PublishOutcome(w: Outside, s: State, e: Event)
    ensures PublishIn(w, s, e, Flushed).outcome.Ok? ==> PublishIn(w, s, e, Flushed).outcome == Ok
  {
  }

  /** So is one whose flush is refused with an error that commits. */
  lemma {:induction false} CommittedRefusalLoses(w: Outside, o: Options, e: Event)
    requires e.externalized && CanBegin(o) && o.dataSource == w.home
    requires w.env.misses(w.home).None? && w.env.signal(0).Proceed? && w.env.signal(1).Proceed?
    requires w.refuses(0).Some? && !ShouldRollback(w.refuses(0).value, o)
    ensures var bus := BusAfter(w, {}, Just(Within(o, Just(Schedule(e)))));
            && |bus.finished| == 1 && bus.finished[0].committed && bus.finished[0].bodyEnded.Ok?
            && bus.finished[0].tx.accepted == [e] && bus.durable == []
  {
    hide TransactIn, CallbackIn, AttemptIn, Perform, ShouldRollback, CanBegin, LoopIn;
    var s, body := Start({}), Just(Schedule(e));
    BeginsItsOwn(w, s, o, body);
    ScheduledCallback(w, s, e);
    FlushesOne(w, AfterSchedule(s, w.home, e), e);
    Commits(w, s, o, body, CallbackIn(w, s, w.home, body));
    OneAttempt(w, s, Attempts(o.retry), o, body);
  }

  lemma {:induction false} RepeatedCallback(w: Outside, s: State, e: Event)
    requires s.txs == map[] && e in s.bus.scheduled
    ensures CallbackIn(w, s, w.home, Just(Schedule(e))) == Called(Ok, Ran(BeginIn(s, w.home), Ok))
  {
    JustDoes(w, BeginIn(s, w.home), Schedule(e));
    assert LoopIn(w, BeginIn(s, w.home), w.home, 0) == Ran(BeginIn(s, w.home), Ok);
  }

  /** An event first scheduled outside a transaction is dropped for good: scheduling it
      again inside one does nothing. */
  lemma {:induction false} DroppedStaysDropped(w: Outside, o: Options, e: Event)
    requires e.externalized && CanBegin(o) && o.dataSource == w.home
    requires w.env.misses(w.home).None? && w.env.signal(0).Proceed? && w.env.signal(1).Proceed?
    ensures var bus := BusAfter(w, {}, Do(Schedule(e), Just(Within(o, Just(Schedule(e))))));
            && |bus.finished| == 1 && bus.finished[0].committed && bus.finished[0].ended.Ok?
            && bus.dropped == [e] && bus.durable == []
  {
    hide TransactIn, CallbackIn, AttemptIn, CanBegin, WithinIn;
    var s, body, rest := Start({}), Just(Schedule(e)), Just(Within(o, Just(Schedule(e))));
    var s' := ScheduleIn(w, s, e);
    assert ActIn(w, s, Schedule(e)) == Ran(s', Ok) && [] + [e] == [e];
    assert Perform(w, s, Do(Schedule(e), rest)) == Perform(w, s', rest);
    BeginsItsOwn(w, s', o, body);
    RepeatedCallback(w, s', e);
    Commits(w, s', o, body, CallbackIn(w, s', w.home, body));
    OneAttempt(w, s', Attempts(o.retry), o, body);
  }

  /** A message rolled back with its savepoint leaves its notification behind. */
  lemma {:induction false} NotificationOutlivesMessage(w: Outside, o: Options, inner: Options, e: Event, error: Error)
    requires CanBegin(o) && o.dataSource == w.home == inner.dataSource && w.home in w.env.savepoints
    requires inner.propagation.NESTED? && ShouldRollback(error, inner) && w.refuses(0).None?
    requires w.env.misses(w.home).None? && w.env.signal(0).Proceed? && w.env.signal(1).Proceed?
    ensures var nested := Within(inner, Do(Publish(e), Just(Raise(error))));
            var bus := BusAfter(w, {}, Just(Within(o, Just(Try(Just(nested), Done)))));
            bus.durable == [] && bus.notifications == 1
  {
    hide TransactIn, CallbackIn, AttemptIn, CanBegin, WithinIn;
    var part := Do(Publish(e), Just(Raise(error)));
    var body := Just(Try(Just(Within(inner, part)), Done));
    var s := Start({});
    BeginsItsOwn(w, s, o, body);
    CutCallback(w, s, inner, e, error);
    Commits(w, s, o, body, CallbackIn(w, s, w.home, body));
    OneAttempt(w, s, Attempts(o.retry), o, body);
    JustDoes(w, s, Within(o, body));
  }

  /** What the publication leaves when its savepoint is rolled back to. */
  function AfterCut(w: Outside, s: State): State {
    var s1, t := BeginIn(s, w.home), NewTx().(added := 1, notifying := true, afterCommit := [Notify]);
    State(s1.bus.(calls := s1.bus.calls + 1), s1.txs[w.home := t])
  }

  lemma {:induction false} CutPart(w: Outside, s: State, inner: Options, e: Event, error: Error)
    requires s.txs == map[] && inner.dataSource == w.home && w.home in w.env.savepoints
    requires inner.propagation.NESTED? && ShouldRollback(error, inner) && w.refuses(s.bus.calls).None?
    requires w.env.misses(w.home).None?
    ensures WithinIn(w, BeginIn(s, w.home), inner, Do(Publish(e), Just(Raise(error))))
            == Ran(AfterCut(w, s), Fail(error))
  {
    hide ShouldRollback, Perform, PublishIn;
    var part, s1 := Do(Publish(e), Just(Raise(error))), BeginIn(s, w.home);
    PublishesFirst(w, s1, e);
    PublishesAndThrows(w, s1, e, error);
    var r := Ran(PublishIn(w, s1, e, Direct).state, Fail(error));
    assert CutBack(s1, r, inner).state.txs == s1.txs[w.home := AfterCut(w, s).txs[w.home]];
  }

  lemma PublishesFirst(w: Outside, s: State, e: Event)
    requires w.home in s.txs && s.txs[w.home] == NewTx() && w.refuses(s.bus.calls).None?
    ensures var t := NewTx().(rows := [Message(e, Direct)], added := 1, notifying := true, afterCommit := [Notify]);
            PublishIn(w, s, e, Direct)
            == Ran(State(s.bus.(calls := s.bus.calls + 1), s.txs[w.home := t]), Ok)
  {
    assert [] + [Notify] == [Notify] && [] + [Message(e, Direct)] == [Message(e, Direct)];
  }

  lemma PublishesAndThrows(w: Outside, s: State, e: Event, error: Error)
    requires PublishIn(w, s, e, Direct).outcome.Ok?
    ensures Perform(w, s, Do(Publish(e), Just(Raise(error)))) == Ran(PublishIn(w, s, e, Direct).state, Fail(error))
  {
    hide PublishIn;
    var r := PublishIn(w, s, e, Direct);
    JustDoes(w, r.state, Raise(error));
    assert ActIn(w, s, Publish(e)) == r;
  }

  lemma {:induction false} CutCallback(w: Outside, s: State, inner: Options, e: Event, error: Error)
    requires s.txs == map[] && inner.dataSource == w.home && w.home in w.env.savepoints
    requires inner.propagation.NESTED? && ShouldRollback(error, inner) && w.refuses(s.bus.calls).None?
    requires w.env.misses(w.home).None?
    ensures var body := Just(Try(Just(Within(inner, Do(Publish(e), Just(Raise(error))))), Done));
            CallbackIn(w, s, w.home, body) == Called(Ok, Ran(AfterCut(w, s), Ok))
  {
    hide WithinIn, ShouldRollback, BeginIn, LoopIn;
    var part := Do(Publish(e), Just(Raise(error)));
    var s1, nested, cut := BeginIn(s, w.home), Just(Within(inner, part)), AfterCut(w, s);
    CutPart(w, s, inner, e, error);
    JustDoes(w, s1, Within(inner, part));
    JustDoes(w, s1, Try(nested, Done));
    assert Perform(w, cut, Done) == Ran(cut, Ok);
    LoopsNot(w, cut, w.home);
  }

  lemma LoopsNot(w: Outside, s: State, d: DataSource)
    requires d in s.txs && s.txs[d].beforeCommit == []
    ensures LoopIn(w, s, d, 0) == Ran(s, Ok)
  {
  }
}
