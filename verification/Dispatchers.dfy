/** Events routed to listeners by transaction phase: hooks pushed on the transaction
    of each listener's own dataSource. */
module Dispatchers {
  import opened Programs
  import opened Effects
  import opened Reference
  import opened EngineLaws
  import opened Stories
  import opened Places
  import opened Worlds
  import opened WorldSteps
  import opened WorldParts
  import opened Managers

  datatype TransactionPhase = BEFORE_COMMIT | AFTER_COMMIT | AFTER_ROLLBACK | AFTER_COMPLETION

  /** An event object and the name of its class. */
  datatype Event = Event(id: nat, typeName: string)

  /** An awaited listener: `handler` is what it does with an event. */
  datatype Listener = Listener(
    dataSource: DataSource,
    phase: TransactionPhase,
    fallbackExecution: bool,
    handler: Event -> Program)

  predicate FiresIn(phase: TransactionPhase, hookPhase: Phase) {
    match hookPhase
    case BeforeCommit => phase.BEFORE_COMMIT?
    case AfterCommit => phase.AFTER_COMMIT? || phase.AFTER_COMPLETION?
    case AfterRollback => phase.AFTER_ROLLBACK? || phase.AFTER_COMPLETION?
  }

  /** The invocations owed to the transaction of `d` in one phase, in registration order. */
  function Owed(listeners: seq<Listener>, event: Event, d: DataSource, phase: Phase): seq<Program> {
    if listeners == [] then []
    else (if listeners[0].dataSource == d && FiresIn(listeners[0].phase, phase)
          then [listeners[0].handler(event)] else [])
         + Owed(listeners[1..], event, d, phase)
  }

  /** A listener is owed an invocation by the transaction of its own dataSource, before its
      COMMIT, after it, or after its rollback, as its phase says; `AFTER_COMPLETION` after
      either. */
  lemma OwedByPhase(l: Listener, event: Event, d: DataSource)
    ensures l.dataSource != d ==> forall phase :: Owed([l], event, d, phase) == []
    ensures l.dataSource == d ==>
              var once := [l.handler(event)];
              match l.phase
              case BEFORE_COMMIT => OwedIn(l, event, once, [], [])
              case AFTER_COMMIT => OwedIn(l, event, [], once, [])
              case AFTER_ROLLBACK => OwedIn(l, event, [], [], once)
              case AFTER_COMPLETION => OwedIn(l, event, [], once, once)
  {
    assert [l][1..] == [];
  }

  ghost predicate OwedIn(l: Listener, event: Event, before: seq<Program>, committed: seq<Program>,
                         rolledBack: seq<Program>) {
    && Owed([l], event, l.dataSource, BeforeCommit) == before
    && Owed([l], event, l.dataSource, AfterCommit) == committed
    && Owed([l], event, l.dataSource, AfterRollback) == rolledBack
  }

  function AttachOne(l: Listener, event: Event): Program {
    var hook := l.handler(event);
    match l.phase
    case BEFORE_COMMIT => Attach(l.dataSource, BeforeCommit, hook)
    case AFTER_COMMIT => Attach(l.dataSource, AfterCommit, hook)
    case AFTER_ROLLBACK => Attach(l.dataSource, AfterRollback, hook)
    case AFTER_COMPLETION => Then(Attach(l.dataSource, AfterCommit, hook), Attach(l.dataSource, AfterRollback, hook))
  }

  /** A dispatch as a program: one attachment after another. */
  function Dispatch(listeners: seq<Listener>, event: Event): Program {
    if listeners == [] then Skip else Then(AttachOne(listeners[0], event), Dispatch(listeners[1..], event))
  }

  lemma {:induction false} AttachLeaves(c: DataSource, p: Phase, hook: Program, env: Environment, s: Scope,
                                        d: DataSource, phase: Phase)
    ensures var r := Eval(Attach(c, p, hook), env, s);
            && r.outcome == Ok && r.scope == s && r.log == [] && Rows(r.effects, d) == []
            && Hooks(r.effects, d, phase) == if d in s.active && c == d && p == phase then [hook] else []
  {
    OneEffect(Hooked(c, p, hook), d);
  }

  lemma {:induction false} AttachesOne(l: Listener, event: Event, env: Environment, s: Scope, d: DataSource,
                                       phase: Phase)
    ensures var r := Eval(AttachOne(l, event), env, s);
            && r.outcome == Ok && r.scope == s && r.log == [] && Rows(r.effects, d) == []
            && Hooks(r.effects, d, phase) == if d in s.active then Owed([l], event, d, phase) else []
  {
    hide Hooks, Rows;
    var c, hook := l.dataSource, l.handler(event);
    assert [l][1..] == [];
    AttachLeaves(c, BeforeCommit, hook, env, s, d, phase);
    AttachLeaves(c, AfterCommit, hook, env, s, d, phase);
    AttachLeaves(c, AfterRollback, hook, env, s, d, phase);
    if l.phase.AFTER_COMPLETION? {
      var r, r' := Eval(Attach(c, AfterCommit, hook), env, s), Eval(Attach(c, AfterRollback, hook), env, s);
      HooksAppend(r.effects, r'.effects, d, phase);
      RowsAppend(r.effects, r'.effects, d);
    }
  }

  lemma OwedSplits(listeners: seq<Listener>, event: Event, d: DataSource, phase: Phase)
    ensures Owed(listeners, event, d, phase)
            == if listeners == [] then []
               else Owed([listeners[0]], event, d, phase) + Owed(listeners[1..], event, d, phase)
  {
    if listeners != [] {
      assert [listeners[0]][1..] == [];
    }
  }

  lemma DispatchSplits(listeners: seq<Listener>, event: Event, env: Environment, s: Scope)
    requires listeners != []
    ensures var r := Eval(AttachOne(listeners[0], event), env, s);
            Eval(Dispatch(listeners, event), env, s)
            == if r.outcome.Fail? then r else Sequence(r, Eval(Dispatch(listeners[1..], event), env, r.scope))
  {
    hide AttachOne;
  }

  /** A dispatch leaves on the transaction of each dataSource exactly the
      invocations owed to it, and nothing for a dataSource without one. */
  lemma {:induction false} DispatchAttachesOwed(listeners: seq<Listener>, event: Event, env: Environment, s: Scope,
                                                d: DataSource, phase: Phase)
    ensures var r := Eval(Dispatch(listeners, event), env, s);
            && r.outcome == Ok && r.scope == s && r.log == [] && Rows(r.effects, d) == []
            && Hooks(r.effects, d, phase) == if d in s.active then Owed(listeners, event, d, phase) else []
  {
    hide AttachOne, Owed;
    OwedSplits(listeners, event, d, phase);
    if listeners != [] {
      var l, rest := listeners[0], listeners[1..];
      DispatchSplits(listeners, event, env, s);
      AttachesOne(l, event, env, s, d, phase);
      DispatchAttachesOwed(rest, event, env, s, d, phase);
      var r, r' := Eval(AttachOne(l, event), env, s), Eval(Dispatch(rest, event), env, s);
      HooksAppend(r.effects, r'.effects, d, phase);
      RowsAppend(r.effects, r'.effects, d);
    }
  }

  /** An event dispatched at any spot of a transaction's callback, be it inside joined
      calls, savepoints, catches, transactions of other dataSources and their hooks,
      or in a before-commit hook of the transaction itself: its listeners' invocations
      are a block of each of the transaction's hook lists. So with the one life of the
      transaction every before-commit listener fires once if the callback completes,
      every listener of the transaction's own ending fires once, and none of the other
      ending does, whatever became of the calls in between. */
  lemma {:induction false} ListenersMeetTheirPhase(o: Options, body: Program, spot: Spot, listeners: seq<Listener>,
                                                   event: Event, env: Environment, s: Scope) returns (life: Life)
    requires env.signal(s.clock).Proceed?
    requires AtSpot(spot, Dispatch(listeners, event), o.dataSource, body, s.handles, env, Begun(s, o.dataSource)).Some?
    ensures var d, a := o.dataSource, StartNew(o, body, env, s);
            && Lives(a, s.handles, d, life)
            && FiresBefore(d, body, env, s.(clock := s.clock + 1), life.before)
            && forall phase :: Contains(Hooks(a.inside.effects, d, phase), Owed(listeners, event, d, phase))
  {
    hide Lives, FiresBefore, AtSpot, Settle, Owed, Contains, BodyAndHooks;
    var d, begun := o.dataSource, s.(clock := s.clock + 1);
    life := AttemptIsWhole(o, body, env, s);
    var inside := Inside(d, body, env, begun);
    var c := SettleEnds(o, body, inside, env, s.handles);
    forall phase ensures Contains(Hooks(inside.effects, d, phase), Owed(listeners, event, d, phase)) {
      SpotCollects(spot, listeners, event, d, body, s.handles, env, Begun(s, d), phase);
      assert inside.effects == BodyAndHooks(d, body, s.handles, env, Begun(s, d)).effects;
    }
  }

  lemma {:induction false} SpotCollects(spot: Spot, listeners: seq<Listener>, event: Event, d: DataSource,
                                        body: Program, handle: nat, env: Environment, s: Scope, phase: Phase)
    requires AtSpot(spot, Dispatch(listeners, event), d, body, handle, env, s).Some?
    ensures Carries(BodyAndHooks(d, body, handle, env, s).effects, d, phase, Owed(listeners, event, d, phase))
  {
    hide AtSpot;
    var at := AtSpot(spot, Dispatch(listeners, event), d, body, handle, env, s).value;
    SpotSeesTransaction(spot, Dispatch(listeners, event), d, body, handle, env, s);
    DispatchAttachesOwed(listeners, event, env, at, d, phase);
    ContainsItself(Owed(listeners, event, d, phase));
    SpotPushes(spot, Dispatch(listeners, event), d, body, handle, env, s, phase, Owed(listeners, event, d, phase));
  }

  datatype Delivery = Delivery(listener: Listener, event: Event)

  function FallbackUnless(anyTxActive: bool, l: Listener, event: Event): seq<Delivery> {
    if !anyTxActive && l.fallbackExecution then [Delivery(l, event)] else []
  }

  /** The listeners that run at once: those that ask for it, when no transaction is
      active anywhere. */
  function FallbacksUnless(anyTxActive: bool, listeners: seq<Listener>, event: Event): seq<Delivery> {
    if listeners == [] then []
    else FallbackUnless(anyTxActive, listeners[0], event) + FallbacksUnless(anyTxActive, listeners[1..], event)
  }

  /** `picked` are the indices of the listeners with `fallbackExecution`, each once, in order. */
  ghost predicate PicksFallbacks(picked: seq<nat>, listeners: seq<Listener>) {
    && (forall a, b | 0 <= a < b < |picked| :: picked[a] < picked[b])
    && (forall a | 0 <= a < |picked| :: picked[a] < |listeners|)
    && forall i | 0 <= i < |listeners| :: i in picked <==> listeners[i].fallbackExecution
  }

  function DeliveriesOf(picked: seq<nat>, listeners: seq<Listener>, event: Event): (deliveries: seq<Delivery>)
    requires forall a | 0 <= a < |picked| :: picked[a] < |listeners|
    ensures |deliveries| == |picked|
    ensures forall a | 0 <= a < |picked| :: deliveries[a] == Delivery(listeners[picked[a]], event)
  {
    seq(|picked|, a requires 0 <= a < |picked| => Delivery(listeners[picked[a]], event))
  }

  lemma {:induction false} FallbacksArePicked(listeners: seq<Listener>, event: Event) returns (picked: seq<nat>)
    ensures PicksFallbacks(picked, listeners)
    ensures FallbacksUnless(false, listeners, event) == DeliveriesOf(picked, listeners, event)
    ensures FallbacksUnless(true, listeners, event) == []
  {
    hide PicksFallbacks, FallbackUnless, DeliveriesOf;
    picked := [];
    if listeners == [] {
      NothingPicked(event);
    } else {
      var rest := FallbacksArePicked(listeners[1..], event);
      var later := seq(|rest|, a requires 0 <= a < |rest| => rest[a] + 1);
      picked := (if listeners[0].fallbackExecution then [0] else []) + later;
      PicksAreListeners(rest, listeners[1..]);
      ShiftedPicks(listeners, rest, later, picked);
      PicksAreListeners(picked, listeners);
      ShiftedDeliveries(listeners, rest, later, picked, event);
    }
  }

  lemma NothingPicked(event: Event)
    ensures PicksFallbacks([], []) && DeliveriesOf([], [], event) == []
  {
  }

  lemma PicksAreListeners(picked: seq<nat>, listeners: seq<Listener>)
    requires PicksFallbacks(picked, listeners)
    ensures forall a | 0 <= a < |picked| :: picked[a] < |listeners|
  {
  }

  lemma ShiftedDeliveries(listeners: seq<Listener>, rest: seq<nat>, later: seq<nat>, picked: seq<nat>, event: Event)
    requires listeners != [] && forall a | 0 <= a < |rest| :: rest[a] < |listeners| - 1
    requires |later| == |rest| && forall a | 0 <= a < |rest| :: later[a] == rest[a] + 1
    requires picked == (if listeners[0].fallbackExecution then [0] else []) + later
    ensures DeliveriesOf(picked, listeners, event)
            == FallbackUnless(false, listeners[0], event) + DeliveriesOf(rest, listeners[1..], event)
    ensures FallbackUnless(true, listeners[0], event) == []
  {
    var all, first := DeliveriesOf(picked, listeners, event), FallbackUnless(false, listeners[0], event);
    var more := DeliveriesOf(rest, listeners[1..], event);
    forall a | 0 <= a < |all| ensures all[a] == (first + more)[a] {
      if a >= |first| {
        assert picked[a] == later[a - |first|] == rest[a - |first|] + 1;
        assert listeners[1..][rest[a - |first|]] == listeners[picked[a]];
      }
    }
  }

  lemma {:induction false} ShiftedPicks(listeners: seq<Listener>, rest: seq<nat>, later: seq<nat>, picked: seq<nat>)
    requires listeners != [] && PicksFallbacks(rest, listeners[1..])
    requires |later| == |rest| && forall a | 0 <= a < |rest| :: later[a] == rest[a] + 1
    requires picked == (if listeners[0].fallbackExecution then [0] else []) + later
    ensures PicksFallbacks(picked, listeners)
  {
    forall i | 0 <= i < |listeners| ensures i in picked <==> listeners[i].fallbackExecution {
      if i > 0 {
        assert listeners[1..][i - 1] == listeners[i];
        if listeners[i].fallbackExecution {
          var a :| 0 <= a < |rest| && rest[a] == i - 1;
          assert later[a] == i;
        }
        if i in picked {
          assert i in later;
          var a :| 0 <= a < |later| && later[a] == i;
          assert rest[a] == i - 1;
        }
      }
    }
  }

  /** One listener further in a dispatch of which `r` has happened. */
  lemma {:induction false} DispatchStep(listeners: seq<Listener>, i: nat, event: Event, env: Environment, r: Result,
                                        tasks: seq<Delivery>, anyTxActive: bool)
    requires i < |listeners| && r.outcome == Ok
    ensures var r' := Eval(AttachOne(listeners[i], event), env, r.scope);
            && Sequence(r, r').scope == r.scope && Sequence(r, r').outcome == Ok
            && Sequence(r, Eval(Dispatch(listeners[i..], event), env, r.scope))
               == Sequence(Sequence(r, r'), Eval(Dispatch(listeners[i + 1..], event), env, r.scope))
    ensures tasks + FallbacksUnless(anyTxActive, listeners[i..], event)
            == tasks + FallbackUnless(anyTxActive, listeners[i], event)
               + FallbacksUnless(anyTxActive, listeners[i + 1..], event)
  {
    hide AttachOne;
    var r' := Eval(AttachOne(listeners[i], event), env, r.scope);
    AttachesOne(listeners[i], event, env, r.scope, listeners[i].dataSource, BeforeCommit);
    assert listeners[i..][1..] == listeners[i + 1..];
    SequenceIsAssociative(r, r', Eval(Dispatch(listeners[i + 1..], event), env, r.scope));
    Associate(tasks, FallbackUnless(anyTxActive, listeners[i], event),
              FallbacksUnless(anyTxActive, listeners[i + 1..], event));
  }

  lemma DispatchNothing(listeners: seq<Listener>, event: Event, env: Environment, r: Result, tasks: seq<Delivery>,
                        anyTxActive: bool)
    requires listeners == [] && r.outcome == Ok
    ensures Sequence(r, Eval(Dispatch(listeners, event), env, r.scope)) == r
    ensures tasks + FallbacksUnless(anyTxActive, listeners, event) == tasks
  {
    SequenceOfQuiet(r, r.scope, Ok);
  }

  class TransactionalEventDispatcher {
    const manager: TransactionManager
    var listenersByType: map<string, seq<Listener>>
    /** Invocations handed to `queueMicrotask`. */
    var microtasks: seq<Delivery>

    constructor (manager: TransactionManager)
      ensures this.manager == manager && microtasks == [] && forall t :: Registered(t) == []
    {
      this.manager := manager;
      listenersByType, microtasks := map[], [];
    }

    function Registered(typeName: string): seq<Listener>
      reads this
    {
      if typeName in listenersByType then listenersByType[typeName] else []
    }

    method RegisterListener(typeName: string, l: Listener)
      modifies this`listenersByType
      ensures Registered(typeName) == old(Registered(typeName)) + [l]
      ensures forall t | t != typeName :: Registered(t) == old(Registered(t))
    {
      if typeName !in listenersByType {
        listenersByType := listenersByType[typeName := [l]];
      } else {
        listenersByType := listenersByType[typeName := listenersByType[typeName] + [l]];
      }
    }

    /** Attaches every listener of the event's exact class name, each to the
        transaction of its own dataSource. */
    method ScheduleDispatch(event: Event)
      requires manager.Valid()
      modifies this`microtasks, manager`lists
      ensures manager.Valid()
      ensures Simulates(old(manager.W()), manager.W(),
                        Eval(Dispatch(Registered(event.typeName), event), manager.env, old(manager.S())))
      ensures microtasks == old(microtasks)
                + FallbacksUnless(old(manager.context.order) != [], Registered(event.typeName), event)
      ensures old(manager.context.order) != [] ==> microtasks == old(microtasks)
      ensures old(manager.context.order) == [] ==>
                exists picked :: PicksFallbacks(picked, Registered(event.typeName))
                                 && microtasks == old(microtasks)
                                      + DeliveriesOf(picked, Registered(event.typeName), event)
    {
      hide Consistent, Simulates, Sequence, Eval, Dispatch, AttachOne, FallbacksUnless, PicksFallbacks;
      var listeners := Registered(event.typeName);
      ghost var w, s, env := manager.W(), manager.S(), manager.env;
      var first := manager.context.GetFirst();
      ghost var r := Quiet(Ok, s);
      SimulatesNothing(w, Ok);
      SequenceOfQuiet(Eval(Dispatch(listeners, event), env, s), s, Ok);
      assert listeners[0..] == listeners;
      var i := 0;
      while i < |listeners|
        invariant 0 <= i <= |listeners| && manager.Valid() && r.scope == s && r.outcome == Ok
        invariant Simulates(w, manager.W(), r)
        invariant Eval(Dispatch(listeners, event), env, s) == Sequence(r, Eval(Dispatch(listeners[i..], event), env, s))
        invariant microtasks + FallbacksUnless(first.Some?, listeners[i..], event)
               == old(microtasks) + FallbacksUnless(first.Some?, listeners, event)
      {
        ghost var w' := manager.W();
        SimulatesParts(w, w', r);
        DispatchStep(listeners, i, event, env, r, microtasks, first.Some?);
        AttachListener(listeners[i], event, first.Some?);
        ghost var r' := Eval(AttachOne(listeners[i], event), env, s);
        SimulatesSequence(w, w', manager.W(), r, r');
        r := Sequence(r, r');
        i := i + 1;
      }
      DispatchNothing(listeners[i..], event, env, r, microtasks, first.Some?);
      ghost var picked := FallbacksArePicked(listeners, event);
      assert old(microtasks) + [] == old(microtasks);
    }

    /** One listener: its hook, or its microtask when no transaction is active anywhere. */
    method AttachListener(l: Listener, event: Event, anyTxActive: bool)
      requires manager.Valid()
      modifies this`microtasks, manager`lists
      ensures manager.Valid()
      ensures Simulates(old(manager.W()), manager.W(), Eval(AttachOne(l, event), manager.env, old(manager.S())))
      ensures microtasks == old(microtasks) + FallbackUnless(anyTxActive, l, event)
    {
      hide Consistent, Simulates, Eval, AttachOne;
      AttachHookToTransaction(l, event);
      if !anyTxActive && l.fallbackExecution {
        microtasks := microtasks + [Delivery(l, event)];
      }
    }

    /** Pushes nothing when the dataSource has no transaction. */
    method AttachHookToTransaction(l: Listener, event: Event)
      requires manager.Valid()
      modifies manager`lists
      ensures manager.Valid()
      ensures Simulates(old(manager.W()), manager.W(), Eval(AttachOne(l, event), manager.env, old(manager.S())))
    {
      ghost var w, s := manager.W(), manager.S();
      var hook := l.handler(event);
      match l.phase {
        case BEFORE_COMMIT =>
          manager.AttachHook(l.dataSource, BeforeCommit, hook);
        case AFTER_COMMIT =>
          manager.AttachHook(l.dataSource, AfterCommit, hook);
        case AFTER_ROLLBACK =>
          manager.AttachHook(l.dataSource, AfterRollback, hook);
        case AFTER_COMPLETION =>
          manager.AttachHook(l.dataSource, AfterCommit, hook);
          ghost var w' := manager.W();
          manager.AttachHook(l.dataSource, AfterRollback, hook);
          SimulatesSequence(w, w', manager.W(), Eval(Attach(l.dataSource, AfterCommit, hook), manager.env, s),
                            Eval(Attach(l.dataSource, AfterRollback, hook), manager.env, s));
      }
    }
  }
}
