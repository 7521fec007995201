/** Under which conditions on the text of a program, or on the options of a run, nothing
    is dropped, no committed transaction loses an event, and every notification is of a
    durable message. */
module OutboxPromises {
  import opened Wrappers
  import opened Programs
  import opened Outboxes
  import opened OutboxBooks
  import opened OutboxLaws
  import opened OutboxPolicies

  /** A program that schedules events only where a transaction is sure to be visible
      drops none: each is accepted by exactly one transaction. */
  lemma {:induction false} ShelteredDropsNothing(w: Outside, known: set<Event>, program: Script)
    requires Obeys(Sheltered, w.home, program, false)
    ensures var bus := BusAfter(w, known, program);
            bus.dropped == [] && AcceptedBy(bus.finished) == multiset(News(known, bus.scheduled))
  {
    hide Perform, Obeys, Sound;
    ProgramFine(Sheltered, w, known, program);
    EveryTransaction(w, known, program);
  }

  /** A run from outside a transaction drops nothing that its body schedules in its own
      callback, in every world, if and only if its propagation has it run in a transaction. */
  lemma {:induction false} ShelteredIff(o: Options)
    ensures (forall w: Outside, known, body: Script | w.home == o.dataSource && Obeys(Sheltered, w.home, body, true) ::
               BusAfter(w, known, Just(Within(o, body))).dropped == [])
            <==> Shelters(o.propagation, false)
  {
    hide BusAfter, Obeys;
    if Shelters(o.propagation, false) {
      forall w: Outside, known, body: Script | w.home == o.dataSource && Obeys(Sheltered, w.home, body, true)
        ensures BusAfter(w, known, Just(Within(o, body))).dropped == []
      {
        WithinObeys(Sheltered, w.home, o, body, false);
        ShelteredDropsNothing(w, known, Just(Within(o, body)));
      }
    } else {
      var w, e := Outside(Obliging(), o.dataSource, _ => None), Event(0, true);
      UnshelteredDrops(w, o, e);
    }
  }

  lemma WithinObeys(p: Policy, home: DataSource, o: Options, body: Script, visible: bool)
    requires OptionsObey(p, home, o)
    requires Obeys(p, home, body, if o.dataSource == home then Shelters(o.propagation, visible) else visible)
    ensures Obeys(p, home, Just(Within(o, body)), visible)
  {
    JustObeys(p, home, Within(o, body), visible);
  }

  lemma JustObeys(p: Policy, home: DataSource, act: Act, visible: bool)
    ensures Obeys(p, home, Just(act), visible) <==> ActObeys(p, home, act, visible)
  {
    hide ActObeys;
    assert Obeys(p, home, Done, visible);
  }

  lemma UnshelteredDrops(w: Outside, o: Options, e: Event)
    requires !Shelters(o.propagation, false) && w.home == o.dataSource && w.env.misses(w.home).None? && e.externalized
    ensures BusAfter(w, {}, Just(Within(o, Just(Schedule(e))))).dropped == [e]
    ensures Obeys(Sheltered, w.home, Just(Schedule(e)), true)
  {
    JustDoes(w, Start({}), Within(o, Just(Schedule(e))));
    JustDoes(w, Start({}), Schedule(e));
    assert [] + [e] == [e];
  }

  /** The committed transactions with durable messages. */
  function Messaging(finished: seq<Finished>): int {
    if finished == [] then 0
    else
      var last := finished[|finished| - 1];
      Messaging(finished[..|finished| - 1]) + if last.committed && last.tx.rows != [] then 1 else 0
  }

  lemma {:induction false} FlatNotifies(home: DataSource, finished: seq<Finished>)
    requires forall i | 0 <= i < |finished| :: FinishedObeys(Flat, home, finished[i])
    ensures Notified(finished) == Messaging(finished)
  {
    if finished != [] {
      FlatNotifies(home, finished[..|finished| - 1]);
      assert FinishedObeys(Flat, home, finished[|finished| - 1]);
    }
  }

  /** In a program that never rolls back to a savepoint on the outbox's dataSource there is
      one notification for each committed transaction with durable messages, and no other. */
  lemma {:induction false} FlatNotifiesOfMessages(w: Outside, known: set<Event>, program: Script)
    requires Obeys(Flat, w.home, program, false)
    ensures var bus := BusAfter(w, known, program); bus.notifications == Messaging(bus.finished)
  {
    hide Perform, Obeys, Sound, FinishedObeys;
    ProgramFine(Flat, w, known, program);
    EveryTransaction(w, known, program);
    FlatNotifies(w.home, BusAfter(w, known, program).finished);
  }

  /** The program that runs a part with the options `inner`, and catches what it throws. */
  function CatchesPart(o: Options, inner: Options, part: Script): Script {
    Just(Within(o, Just(Try(Just(Within(inner, part)), Done))))
  }

  /** Each notification is of a durable message, whatever the part does and whatever
      fails, if and only if no error rolls the part back to a savepoint. */
  lemma {:induction false} NotifiesIff(inner: Options)
    ensures (forall w: Outside, known, o: Options, part: Script |
               w.home == inner.dataSource && OptionsObey(Flat, w.home, o) && Obeys(Flat, w.home, part, false) ::
               var bus := BusAfter(w, known, CatchesPart(o, inner, part));
               bus.notifications == Messaging(bus.finished))
            <==> !Cuts(inner)
  {
    hide BusAfter, Obeys, CatchesPart, Cuts;
    if Cuts(inner) {
      CutPartNotifies(inner);
    } else {
      forall w: Outside, known, o: Options, part: Script |
        w.home == inner.dataSource && OptionsObey(Flat, w.home, o) && Obeys(Flat, w.home, part, false)
        ensures var bus := BusAfter(w, known, CatchesPart(o, inner, part));
                bus.notifications == Messaging(bus.finished)
      {
        PartObeys(w.home, o, inner, part);
        FlatNotifiesOfMessages(w, known, CatchesPart(o, inner, part));
      }
    }
  }

  lemma PartObeys(home: DataSource, o: Options, inner: Options, part: Script)
    requires home == inner.dataSource && OptionsObey(Flat, home, o) && !Cuts(inner) && Obeys(Flat, home, part, false)
    ensures Obeys(Flat, home, CatchesPart(o, inner, part), false)
  {
    ObeysMore(Flat, home, part);
    var inside := Shelters(o.propagation, false);
    forall visible ensures Obeys(Flat, home, part, visible) {}
    WithinObeys(Flat, home, inner, part, if o.dataSource == home then inside else false);
    var act := Try(Just(Within(inner, part)), Done);
    JustObeys(Flat, home, act, if o.dataSource == home then inside else false);
    WithinObeys(Flat, home, o, Just(act), false);
  }

  lemma {:induction false} CutPartNotifies(inner: Options)
    requires Cuts(inner)
    ensures exists w: Outside, known, o: Options, part: Script ::
              && w.home == inner.dataSource && OptionsObey(Flat, w.home, o) && Obeys(Flat, w.home, part, false)
              && var bus := BusAfter(w, known, CatchesPart(o, inner, part));
                 bus.notifications != Messaging(bus.finished)
  {
    hide BusAfter;
    var d, e := inner.dataSource, Event(0, true);
    var w := Outside(Obliging().(savepoints := {d}), d, _ => None);
    var o, part := Options(d, REQUIRED, {}, {}, NoRetry), Do(Publish(e), Just(Raise(Cutting(inner))));
    assert Obeys(Flat, d, part, false) by {
      JustObeys(Flat, d, Raise(Cutting(inner)), false);
    }
    NotificationOutlivesMessage(w, o, inner, e, Cutting(inner));
    EveryTransaction(w, {}, CatchesPart(o, inner, part));
    NothingDurable(BusAfter(w, {}, CatchesPart(o, inner, part)).finished);
  }

  lemma {:induction false} NothingDurable(finished: seq<Finished>)
    requires Durable(finished) == []
    ensures Messaging(finished) == 0
  {
    if finished != [] {
      NothingDurable(finished[..|finished| - 1]);
    }
  }

  function AcceptedByCommitted(finished: seq<Finished>): multiset<Event> {
    if finished == [] then multiset{}
    else
      var last := finished[|finished| - 1];
      AcceptedByCommitted(finished[..|finished| - 1]) + multiset(if last.committed then last.tx.accepted else [])
  }

  lemma {:induction false} DeliveredLand(finished: seq<Finished>)
    requires forall i | 0 <= i < |finished| :: Delivered(finished[i])
    ensures multiset(FlushedOf(Durable(finished))) == AcceptedByCommitted(finished)
  {
    hide FlushedOf;
    EmptyIsUnflushed();
    if finished != [] {
      var last, before := finished[|finished| - 1], finished[..|finished| - 1];
      DeliveredLand(before);
      var rows := if last.committed then last.tx.rows else [];
      FlushedConcat(Durable(before), rows);
      assert Delivered(last);
      assert multiset(FlushedOf(Durable(finished))) == multiset(FlushedOf(Durable(before))) + multiset(FlushedOf(rows));
    }
  }

  /** In a program whose runs on the outbox's dataSource have no rollback rules, whatever
      fails, every committed transaction has committed the events it accepted: durable
      by a flush are exactly those of the committed transactions. */
  lemma {:induction false} RulelessDelivers(w: Outside, known: set<Event>, program: Script)
    requires Obeys(Ruleless, w.home, program, false)
    ensures var bus := BusAfter(w, known, program);
            && (forall i | 0 <= i < |bus.finished| :: Delivered(bus.finished[i]))
            && multiset(FlushedOf(bus.durable)) == AcceptedByCommitted(bus.finished)
  {
    hide Perform, Obeys, Sound, FlushedOf, Delivered, Durable;
    ProgramFine(Ruleless, w, known, program);
    EveryTransaction(w, known, program);
    var finished := BusAfter(w, known, program).finished;
    forall i | 0 <= i < |finished| ensures Delivered(finished[i]) {
      assert FinishedObeys(Ruleless, w.home, finished[i]);
      if finished[i].options.dataSource == w.home {
        SoundDelivers(w, finished[i]);
      } else {
        UntouchedDelivers(w, finished[i]);
      }
    }
    DeliveredLand(finished);
  }

  lemma UntouchedDelivers(w: Outside, f: Finished)
    requires Sound(w, f) && f.options.dataSource != w.home
    ensures Delivered(f)
  {
  }
}
