/** The event bus publisher in front of the dispatcher and the outbox: once per event
    object, however often and wherever it is published. */
module Publishers {
  import opened Programs
  import opened Effects
  import opened Reference
  import opened EngineLaws
  import opened Stories
  import opened Places
  import opened Worlds
  import opened WorldSteps
  import opened WorldParts
  import opened Dispatchers

  /** The events not published before, each at its first place. */
  function FreshOf(events: seq<Event>, known: set<nat>): seq<Event> {
    if events == [] then []
    else (if events[0].id in known then [] else [events[0]]) + FreshOf(events[1..], known + {events[0].id})
  }

  function Ids(events: seq<Event>): set<nat> {
    set i | 0 <= i < |events| :: events[i].id
  }

  /** How often an event object occurs. */
  function Occurrences(events: seq<Event>, id: nat): nat {
    if events == [] then 0 else (if events[0].id == id then 1 else 0) + Occurrences(events[1..], id)
  }

  lemma {:induction false} FreshOfOnce(events: seq<Event>, known: set<nat>, id: nat)
    ensures Occurrences(FreshOf(events, known), id) == if id in Ids(events) && id !in known then 1 else 0
  {
    if events != [] {
      FreshOfOnce(events[1..], known + {events[0].id}, id);
      IdsOfFirst(events);
      var rest := FreshOf(events[1..], known + {events[0].id});
      assert ([events[0]] + rest)[1..] == rest && [] + rest == rest;
    }
  }

  lemma IdsOfFirst(events: seq<Event>)
    requires events != []
    ensures Ids(events) == {events[0].id} + Ids(events[1..])
  {
    forall id | id in Ids(events) ensures id in {events[0].id} + Ids(events[1..]) {
      var i :| 0 <= i < |events| && events[i].id == id;
      assert i > 0 ==> events[1..][i - 1] == events[i];
    }
    forall id | id in Ids(events[1..]) ensures id in Ids(events) {
      var i :| 0 <= i < |events| - 1 && events[1..][i].id == id;
      assert events[i + 1].id == id;
    }
  }

  /** What is known already is not dispatched again. */
  lemma {:induction false} KnownIsNotFresh(events: seq<Event>, known: set<nat>)
    requires Ids(events) <= known
    ensures FreshOf(events, known) == []
  {
    if events != [] {
      IdsOfFirst(events);
      KnownIsNotFresh(events[1..], known + {events[0].id});
    }
  }

  /** Publishing more: what was published before is known. */
  lemma {:induction false} FreshOfMore(events: seq<Event>, e: Event, known: set<nat>)
    ensures FreshOf(events + [e], known) == FreshOf(events, known) + FreshOf([e], known + Ids(events))
    ensures Ids(events + [e]) == Ids(events) + {e.id}
  {
    if events == [] {
      assert events + [e] == [e] && known + Ids([]) == known && Ids([e]) == {[e][0].id} + Ids([e][1..]) by {
        IdsOfFirst([e]);
      }
    } else {
      assert (events + [e])[1..] == events[1..] + [e];
      IdsOfFirst(events);
      IdsOfFirst(events + [e]);
      FreshOfMore(events[1..], e, known + {events[0].id});
      assert known + {events[0].id} + Ids(events[1..]) == known + Ids(events);
    }
  }

  lemma FreshOfOne(e: Event, known: set<nat>)
    ensures FreshOf([e], known) == if e.id in known then [] else [e]
  {
    assert [e][1..] == [] && FreshOf([], known + {e.id}) == [];
  }

  // Many dispatches.

  function ListenersOf(byType: map<string, seq<Listener>>, typeName: string): seq<Listener> {
    if typeName in byType then byType[typeName] else []
  }

  function DispatchAll(byType: map<string, seq<Listener>>, events: seq<Event>): Program {
    if events == [] then Skip
    else Then(Dispatch(ListenersOf(byType, events[0].typeName), events[0]), DispatchAll(byType, events[1..]))
  }

  /** For each event in turn its owed invocations. */
  function OwedAll(byType: map<string, seq<Listener>>, events: seq<Event>, d: DataSource, phase: Phase): seq<Program> {
    if events == [] then []
    else Owed(ListenersOf(byType, events[0].typeName), events[0], d, phase) + OwedAll(byType, events[1..], d, phase)
  }

  lemma {:induction false} AllAttachOwed(byType: map<string, seq<Listener>>, events: seq<Event>, env: Environment,
                                         s: Scope, d: DataSource, phase: Phase)
    ensures var r := Eval(DispatchAll(byType, events), env, s);
            && r.outcome == Ok && r.scope == s && r.log == []
            && Hooks(r.effects, d, phase) == if d in s.active then OwedAll(byType, events, d, phase) else []
  {
    hide Owed;
    if events != [] {
      var listeners := ListenersOf(byType, events[0].typeName);
      DispatchAttachesOwed(listeners, events[0], env, s, d, phase);
      AllAttachOwed(byType, events[1..], env, s, d, phase);
      HooksAppend(Eval(Dispatch(listeners, events[0]), env, s).effects,
                  Eval(DispatchAll(byType, events[1..]), env, s).effects, d, phase);
    }
  }

  /** Any publications at one spot of a transaction's callback: of each event object
      not published before, and of no other, the invocations owed for it are pushed
      once, in the order of the publications, on each hook list of the transaction, which
      has one life. A later arrival at any spot, the objects being known by then, pushes
      nothing. */
  lemma {:induction false} PublishedMeetTheirPhase(o: Options, body: Program, spot: Spot,
                                                   byType: map<string, seq<Listener>>, events: seq<Event>,
                                                   known: set<nat>, env: Environment, s: Scope)
    returns (life: Life)
    requires env.signal(s.clock).Proceed?
    requires AtSpot(spot, DispatchAll(byType, FreshOf(events, known)), o.dataSource, body, s.handles, env,
                    Begun(s, o.dataSource)).Some?
    ensures var d, a := o.dataSource, StartNew(o, body, env, s);
            && Lives(a, s.handles, d, life)
            && FiresBefore(d, body, env, s.(clock := s.clock + 1), life.before)
            && forall phase :: Contains(Hooks(a.inside.effects, d, phase),
                                        OwedAll(byType, FreshOf(events, known), d, phase))
    ensures forall id :: Occurrences(FreshOf(events, known), id) == if id in Ids(events) && id !in known then 1 else 0
    ensures forall later | known + Ids(events) <= later :: DispatchAll(byType, FreshOf(events, later)) == Skip
  {
    hide Lives, FiresBefore, AtSpot, Settle, OwedAll, Contains, BodyAndHooks, FreshOf;
    var d, begun := o.dataSource, s.(clock := s.clock + 1);
    var fresh_ := FreshOf(events, known);
    life := AttemptIsWhole(o, body, env, s);
    var inside := Inside(d, body, env, begun);
    var c := SettleEnds(o, body, inside, env, s.handles);
    forall phase ensures Contains(Hooks(inside.effects, d, phase), OwedAll(byType, fresh_, d, phase)) {
      SpotCollectsAll(spot, byType, fresh_, d, body, s.handles, env, Begun(s, d), phase);
      assert inside.effects == BodyAndHooks(d, body, s.handles, env, Begun(s, d)).effects;
    }
    forall id ensures Occurrences(fresh_, id) == if id in Ids(events) && id !in known then 1 else 0 {
      FreshOfOnce(events, known, id);
    }
    forall later | known + Ids(events) <= later ensures DispatchAll(byType, FreshOf(events, later)) == Skip {
      KnownIsNotFresh(events, later);
    }
  }

  lemma {:induction false} SpotCollectsAll(spot: Spot, byType: map<string, seq<Listener>>, events: seq<Event>,
                                           d: DataSource, body: Program, handle: nat, env: Environment, s: Scope,
                                           phase: Phase)
    requires AtSpot(spot, DispatchAll(byType, events), d, body, handle, env, s).Some?
    ensures Carries(BodyAndHooks(d, body, handle, env, s).effects, d, phase, OwedAll(byType, events, d, phase))
  {
    hide AtSpot;
    var p := DispatchAll(byType, events);
    var at := AtSpot(spot, p, d, body, handle, env, s).value;
    SpotSeesTransaction(spot, p, d, body, handle, env, s);
    AllAttachOwed(byType, events, env, at, d, phase);
    ContainsItself(OwedAll(byType, events, d, phase));
    SpotPushes(spot, p, d, body, handle, env, s, phase, OwedAll(byType, events, d, phase));
  }

  /** One more event behind a dispatch of `events`. */
  lemma {:induction false} DispatchOneMore(byType: map<string, seq<Listener>>, events: seq<Event>, e: Event,
                                           env: Environment, s: Scope)
    ensures var r, r' := Eval(DispatchAll(byType, events), env, s),
                         Eval(Dispatch(ListenersOf(byType, e.typeName), e), env, s);
            && r.scope == s && r.outcome == Ok
            && Eval(DispatchAll(byType, events + [e]), env, s) == Sequence(r, r')
  {
    hide Dispatch;
    var listeners := ListenersOf(byType, e.typeName);
    var r' := Eval(Dispatch(listeners, e), env, s);
    DispatchAttachesOwed(listeners, e, env, s, DataSource(""), BeforeCommit);
    if events == [] {
      assert events + [e] == [e] && [e][1..] == [];
      SequenceOfQuiet(r', s, Ok);
    } else {
      assert (events + [e])[1..] == events[1..] + [e];
      var first := Eval(Dispatch(ListenersOf(byType, events[0].typeName), events[0]), env, s);
      DispatchAttachesOwed(ListenersOf(byType, events[0].typeName), events[0], env, s, DataSource(""), BeforeCommit);
      DispatchOneMore(byType, events[1..], e, env, s);
      SequenceIsAssociative(first, Eval(DispatchAll(byType, events[1..]), env, s), r');
    }
  }

  lemma DispatchNone(byType: map<string, seq<Listener>>, env: Environment, s: Scope)
    ensures Eval(DispatchAll(byType, []), env, s) == Quiet(Ok, s)
    ensures forall known :: FreshOf([], known) == []
    ensures Ids([]) == {}
  {
  }

  lemma DispatchJustOne(byType: map<string, seq<Listener>>, e: Event, env: Environment, s: Scope)
    ensures Eval(DispatchAll(byType, [e]), env, s) == Eval(Dispatch(ListenersOf(byType, e.typeName), e), env, s)
  {
    hide Dispatch;
    assert [] + [e] == [e];
    DispatchOneMore(byType, [], e, env, s);
    DispatchNone(byType, env, s);
    SequenceOfQuiet(Eval(Dispatch(ListenersOf(byType, e.typeName), e), env, s), s, Ok);
  }

  /** The fresh ones of one more publication. */
  lemma {:induction false} DispatchFreshMore(byType: map<string, seq<Listener>>, done: seq<Event>, e: Event,
                                             known: set<nat>, env: Environment, s: Scope)
    ensures var r, more := Eval(DispatchAll(byType, done), env, s), FreshOf([e], known);
            && r.scope == s
            && Eval(DispatchAll(byType, done + more), env, s) == Sequence(r, Eval(DispatchAll(byType, more), env, s))
  {
    hide Dispatch, DispatchAll;
    FreshOfOne(e, known);
    DispatchOneMore(byType, done, e, env, s);
    DispatchJustOne(byType, e, env, s);
    DispatchNone(byType, env, s);
    SequenceOfQuiet(Eval(DispatchAll(byType, done), env, s), s, Ok);
    assert done + [] == done;
  }

  class TransactionalEventBusPublisher {
    const dispatcher: TransactionalEventDispatcher
    /** Whether the outbox package is wired. */
    const hasOutbox: bool
    /** The ids of the event objects ever scheduled. */
    var scheduled: set<nat>
    /** The events handed on to the outbox's `scheduleForPublication`. */
    var forwarded: seq<Event>
    /** The events handed on to the publisher behind this one. */
    var inner: seq<Event>
    /** Every call of `schedule` so far, and those that dispatched. */
    ghost var calls: seq<Event>
    ghost var dispatched: seq<Event>

    constructor (dispatcher: TransactionalEventDispatcher, hasOutbox: bool)
      ensures this.dispatcher == dispatcher && this.hasOutbox == hasOutbox && scheduled == {} && forwarded == []
      ensures Once() && inner == [] && calls == []
    {
      this.dispatcher, this.hasOutbox, scheduled, forwarded := dispatcher, hasOutbox, {}, [];
      inner, calls, dispatched := [], [], [];
    }

    /** Of all events ever scheduled, each has been dispatched and forwarded once. */
    ghost predicate Once()
      reads this
    {
      && scheduled == Ids(calls) && dispatched == FreshOf(calls, {})
      && forwarded == if hasOutbox then dispatched else []
    }

    /** Once per event object, whatever the transaction: a second call, also from
        another attempt of a retried run, does nothing. */
    method Schedule(event: Event)
      requires dispatcher.manager.Valid() && Once()
      modifies this`scheduled, this`forwarded, this`calls, this`dispatched, dispatcher`microtasks,
               dispatcher.manager`lists
      ensures dispatcher.manager.Valid() && Once() && calls == old(calls) + [event]
      ensures scheduled == old(scheduled) + {event.id}
      ensures event.id in old(scheduled) ==>
                && dispatcher.manager.W() == old(dispatcher.manager.W())
                && dispatcher.microtasks == old(dispatcher.microtasks)
                && forwarded == old(forwarded) && dispatched == old(dispatched)
      ensures event.id !in old(scheduled) ==>
                && Simulates(old(dispatcher.manager.W()), dispatcher.manager.W(),
                             Eval(Dispatch(dispatcher.Registered(event.typeName), event), dispatcher.manager.env,
                                  old(dispatcher.manager.S())))
                && dispatcher.microtasks == old(dispatcher.microtasks)
                     + FallbacksUnless(old(dispatcher.manager.context.order) != [],
                                       dispatcher.Registered(event.typeName), event)
                && forwarded == (if hasOutbox then old(forwarded) + [event] else old(forwarded))
                && dispatched == old(dispatched) + [event]
    {
      hide PicksFallbacks, DeliveriesOf, Eval, Dispatch, Consistent, Simulates, FallbacksUnless;
      FreshOfMore(calls, event, {});
      FreshOfOne(event, scheduled);
      assert {} + Ids(calls) == Ids(calls);
      calls := calls + [event];
      if event.id in scheduled {
        return;
      }
      scheduled, dispatched := scheduled + {event.id}, dispatched + [event];
      dispatcher.ScheduleDispatch(event);
      if hasOutbox {
        forwarded := forwarded + [event];
      }
    }

    /** `publish`: scheduled, then handed on, every time. */
    method Publish(event: Event)
      requires dispatcher.manager.Valid() && Once()
      modifies this`scheduled, this`forwarded, this`calls, this`dispatched, this`inner, dispatcher`microtasks,
               dispatcher.manager`lists
      ensures dispatcher.manager.Valid() && Once() && calls == old(calls) + [event] && inner == old(inner) + [event]
      ensures scheduled == old(scheduled) + {event.id}
      ensures dispatched == old(dispatched) + FreshOf([event], old(scheduled))
      ensures Simulates(old(dispatcher.manager.W()), dispatcher.manager.W(),
                        Eval(DispatchAll(dispatcher.listenersByType, FreshOf([event], old(scheduled))),
                             dispatcher.manager.env, old(dispatcher.manager.S())))
    {
      hide Simulates, Consistent, Eval, Dispatch, DispatchAll, FreshOf;
      ghost var w, s, env := dispatcher.manager.W(), dispatcher.manager.S(), dispatcher.manager.env;
      FreshOfOne(event, scheduled);
      DispatchJustOne(dispatcher.listenersByType, event, env, s);
      DispatchNone(dispatcher.listenersByType, env, s);
      SimulatesNothing(w, Ok);
      Schedule(event);
      inner := inner + [event];
    }

    /** `publishAll`: the events not published before are dispatched, in order. */
    method PublishAll(events: seq<Event>)
      requires dispatcher.manager.Valid() && Once()
      modifies this`scheduled, this`forwarded, this`calls, this`dispatched, this`inner, dispatcher`microtasks,
               dispatcher.manager`lists
      ensures dispatcher.manager.Valid() && Once() && calls == old(calls) + events && inner == old(inner) + events
      ensures dispatched == old(dispatched) + FreshOf(events, old(scheduled))
      ensures Simulates(old(dispatcher.manager.W()), dispatcher.manager.W(),
                        Eval(DispatchAll(dispatcher.listenersByType, FreshOf(events, old(scheduled))),
                             dispatcher.manager.env, old(dispatcher.manager.S())))
    {
      hide Simulates, Consistent, Eval, Dispatch, DispatchAll, FreshOf, Ids, Once, Sequence;
      ghost var w, s, env := dispatcher.manager.W(), dispatcher.manager.S(), dispatcher.manager.env;
      ghost var known, byType := scheduled, dispatcher.listenersByType;
      SimulatesNothing(w, Ok);
      DispatchNone(byType, env, s);
      var i := 0;
      assert events[..0] == [];
      while i < |events|
        invariant 0 <= i <= |events| && dispatcher.manager.Valid() && Once()
        invariant dispatcher.listenersByType == byType
        invariant calls == old(calls) + events[..i] && inner == old(inner) + events[..i]
        invariant scheduled == known + Ids(events[..i])
        invariant dispatched == old(dispatched) + FreshOf(events[..i], known)
        invariant Simulates(w, dispatcher.manager.W(), Eval(DispatchAll(byType, FreshOf(events[..i], known)), env, s))
      {
        ghost var w', before := dispatcher.manager.W(), scheduled;
        ghost var done, more := FreshOf(events[..i], known), FreshOf([events[i]], before);
        ghost var r := Eval(DispatchAll(byType, done), env, s);
        assert events[..i + 1] == events[..i] + [events[i]];
        FreshOfMore(events[..i], events[i], known);
        DispatchFreshMore(byType, done, events[i], before, env, s);
        SimulatesParts(w, w', r);
        Publish(events[i]);
        SimulatesSequence(w, w', dispatcher.manager.W(), r, Eval(DispatchAll(byType, more), env, s));
        assert before + {events[i].id} == known + (Ids(events[..i]) + {events[i].id});
        i := i + 1;
      }
      assert events[..|events|] == events;
    }
  }
}
