/** The choreographed order saga: one table set, an at-least-once bag of messages,
    and one atomic handler per message. */
module Sagas {
  import opened Orders
  import opened Sums

  type OrderId = nat
  type Sku = nat

  const UNAUTHORISED_AMOUNT: int := 10_000

  datatype Status = PLACED | RESERVED | SHIPPED | FAILED_RESERVATION | FAILED_PAYMENT

  datatype PaymentStatus = CHARGED | DECLINED

  datatype Order = Order(sku: Sku, quantity: int, amount: int, status: Status)

  datatype Reservation = Reservation(sku: Sku, quantity: int)

  datatype Payment = Payment(amount: int, status: PaymentStatus)

  datatype Message =
    | OrderPlaced(id: OrderId, sku: Sku, quantity: int, amount: int)
    | InventoryReserved(id: OrderId, sku: Sku, quantity: int, amount: int)
    | InventoryReservationFailed(id: OrderId, sku: Sku)
    | PaymentCharged(id: OrderId, amount: int)
    | PaymentFailed(id: OrderId, sku: Sku, quantity: int)
    | OrderShipped(id: OrderId)

  datatype State = State(
    stock: map<Sku, int>,
    orders: map<OrderId, Order>,
    reservations: map<OrderId, Reservation>,
    payments: map<OrderId, Payment>,
    published: seq<Message>)

  // The steps as functions of the state.

  function Place(s: State, id: OrderId, sku: Sku, quantity: int, amount: int): State {
    if id in s.orders then s
    else s.(orders := s.orders[id := Order(sku, quantity, amount, PLACED)],
            published := s.published + [OrderPlaced(id, sku, quantity, amount)])
  }

  function WithStatus(s: State, id: OrderId, status: Status): State {
    if id in s.orders then s.(orders := s.orders[id := s.orders[id].(status := status)]) else s
  }

  predicate HasStatus(s: State, id: OrderId, status: Status) {
    id in s.orders && s.orders[id].status == status
  }

  function Publish(s: State, m: Message): State {
    s.(published := s.published + [m])
  }

  function Reserve(s: State, id: OrderId, sku: Sku, quantity: int, amount: int): State {
    if id in s.reservations then s
    else
      var s' := s.(reservations := s.reservations[id := Reservation(sku, quantity)]);
      if sku in s.stock && s.stock[sku] >= quantity
      then Publish(WithStatus(s'.(stock := s.stock[sku := s.stock[sku] - quantity]), id, RESERVED),
                   InventoryReserved(id, sku, quantity, amount))
      else Publish(WithStatus(s', id, FAILED_RESERVATION), InventoryReservationFailed(id, sku))
  }

  function Pay(s: State, id: OrderId, sku: Sku, quantity: int, amount: int): State {
    if id in s.payments then s
    else if amount >= UNAUTHORISED_AMOUNT
    then Publish(s.(payments := s.payments[id := Payment(amount, DECLINED)]), PaymentFailed(id, sku, quantity))
    else Publish(s.(payments := s.payments[id := Payment(amount, CHARGED)]), PaymentCharged(id, amount))
  }

  function Ship(s: State, id: OrderId): State {
    if HasStatus(s, id, RESERVED) then Publish(WithStatus(s, id, SHIPPED), OrderShipped(id)) else s
  }

  function Compensate(s: State, id: OrderId, sku: Sku, quantity: int): State {
    if !HasStatus(s, id, RESERVED) then s
    else
      var s' := WithStatus(s, id, FAILED_PAYMENT);
      if sku in s.stock then s'.(stock := s.stock[sku := s.stock[sku] + quantity]) else s'
  }

  function Handle(s: State, m: Message): State {
    match m
    case OrderPlaced(id, sku, quantity, amount) => Reserve(s, id, sku, quantity, amount)
    case InventoryReserved(id, sku, quantity, amount) => Pay(s, id, sku, quantity, amount)
    case InventoryReservationFailed(_, _) => s
    case PaymentCharged(id, _) => Ship(s, id)
    case PaymentFailed(id, sku, quantity) => Compensate(s, id, sku, quantity)
    case OrderShipped(_) => s
  }

  // Runs: orders are placed, and any published message is delivered, at any time
  // and any number of times; a delivery may abort.

  datatype Step =
    | PlaceOrder(id: OrderId, sku: Sku, quantity: int, amount: int)
    | Deliver(index: nat, commits: bool)

  function Next(s: State, step: Step): State {
    match step
    case PlaceOrder(id, sku, quantity, amount) => Place(s, id, sku, quantity, amount)
    case Deliver(i, commits) => if commits && i < |s.published| then Handle(s, s.published[i]) else s
  }

  function Run(s: State, steps: seq<Step>): State
    decreases |steps|
  {
    if steps == [] then s else Run(Next(s, steps[0]), steps[1..])
  }

  function Initial(stock: map<Sku, int>): State {
    State(stock, map[], map[], map[], [])
  }

  // The invariant of every run.

  /** Where an order stands, read off its rows. */
  datatype Phase = Placed | Reserved | Charged | Declined | Shipped | Compensated | OutOfStock

  function PhaseOf(s: State, id: OrderId): Phase
    requires id in s.orders
  {
    match s.orders[id].status
    case PLACED => Placed
    case RESERVED =>
      if id !in s.payments then Reserved
      else if s.payments[id].status.CHARGED? then Charged
      else Declined
    case SHIPPED => Shipped
    case FAILED_PAYMENT => Compensated
    case FAILED_RESERVATION => OutOfStock
  }

  /** What has been published about an order by then, in this order. */
  function Told(id: OrderId, o: Order, p: Phase): seq<Message> {
    var placed := OrderPlaced(id, o.sku, o.quantity, o.amount);
    var reserved := InventoryReserved(id, o.sku, o.quantity, o.amount);
    match p
    case Placed => [placed]
    case OutOfStock => [placed, InventoryReservationFailed(id, o.sku)]
    case Reserved => [placed, reserved]
    case Charged => [placed, reserved, PaymentCharged(id, o.amount)]
    case Declined => [placed, reserved, PaymentFailed(id, o.sku, o.quantity)]
    case Shipped => [placed, reserved, PaymentCharged(id, o.amount), OrderShipped(id)]
    case Compensated => [placed, reserved, PaymentFailed(id, o.sku, o.quantity)]
  }

  predicate Concerns(m: Message, id: OrderId) {
    m.id == id
  }

  function About(published: seq<Message>, id: OrderId): seq<Message> {
    if published == [] then []
    else (if Concerns(published[0], id) then [published[0]] else []) + About(published[1..], id)
  }

  predicate HasPayment(p: Phase) {
    p.Charged? || p.Declined? || p.Shipped? || p.Compensated?
  }

  predicate IsDeclined(o: Order) {
    o.amount >= UNAUTHORISED_AMOUNT
  }

  /** The rows and messages of one order are exactly those of its phase. */
  ghost predicate Fits(s: State, id: OrderId) {
    if id !in s.orders then id !in s.reservations && id !in s.payments && About(s.published, id) == []
    else
      var o, p := s.orders[id], PhaseOf(s, id);
      && About(s.published, id) == Told(id, o, p)
      && (id in s.reservations <==> !p.Placed?)
      && (id in s.reservations ==> s.reservations[id] == Reservation(o.sku, o.quantity))
      && (id in s.payments <==> HasPayment(p))
      && (id in s.payments ==> s.payments[id] == Payment(o.amount, if IsDeclined(o) then DECLINED else CHARGED))
      && (p.Charged? || p.Shipped? ==> !IsDeclined(o))
      && (p.Declined? || p.Compensated? ==> IsDeclined(o))
      && (!p.Placed? && !p.OutOfStock? ==> o.sku in s.stock)
  }

  // Stock held by orders.

  function Weight(o: Order, sku: Sku): int {
    if o.sku == sku && (o.status.RESERVED? || o.status.SHIPPED?) then o.quantity else 0
  }

  function Weighs(sku: Sku): Order -> int {
    o => Weight(o, sku)
  }

  /** The quantities of `sku` in orders that are reserved or shipped. */
  ghost function Held(orders: map<OrderId, Order>, sku: Sku): int {
    Sum(orders, Weighs(sku))
  }

  ghost predicate Conserved(s: State, initial: map<Sku, int>) {
    && s.stock.Keys == initial.Keys
    && forall sku | sku in initial :: s.stock[sku] + Held(s.orders, sku) == initial[sku]
  }

  ghost predicate Invariant(s: State, initial: map<Sku, int>) {
    && (forall id :: Fits(s, id))
    && Conserved(s, initial)
  }

  lemma HeldSet(orders: map<OrderId, Order>, id: OrderId, o: Order, sku: Sku)
    ensures Held(orders[id := o], sku)
            == Weight(o, sku) + Held(orders, sku) - (if id in orders then Weight(orders[id], sku) else 0)
  {
    SumSet(orders, id, o, Weighs(sku));
  }

  lemma {:induction false} AboutAppend(a: seq<Message>, b: seq<Message>, id: OrderId)
    ensures About(a + b, id) == About(a, id) + About(b, id)
  {
    hide Concerns;
    if a == [] {
      assert a + b == b;
    } else {
      assert (a + b)[1..] == a[1..] + b;
      AboutAppend(a[1..], b, id);
    }
  }

  lemma {:induction false} AboutMember(published: seq<Message>, m: Message)
    requires m in published
    ensures m in About(published, m.id)
  {
    if published[0] != m {
      AboutMember(published[1..], m);
    }
  }

  /** `s'` differs from `s` only in the rows and messages of one order. */
  ghost predicate OnlyAbout(s: State, s': State, id: OrderId, news: seq<Message>) {
    && (forall other | other != id ::
          && (other in s'.orders <==> other in s.orders)
          && (other in s.orders ==> s'.orders[other] == s.orders[other])
          && (other in s'.reservations <==> other in s.reservations)
          && (other in s.reservations ==> s'.reservations[other] == s.reservations[other])
          && (other in s'.payments <==> other in s.payments)
          && (other in s.payments ==> s'.payments[other] == s.payments[other]))
    && s'.stock.Keys == s.stock.Keys
    && s'.published == s.published + news
    && forall m | m in news :: m.id == id
  }

  lemma {:induction false} NoneAbout(news: seq<Message>, id: OrderId)
    requires forall m | m in news :: m.id != id
    ensures About(news, id) == []
  {
    if news != [] {
      assert news[0] in news;
      NoneAbout(news[1..], id);
    }
  }

  lemma {:induction false} AllAbout(news: seq<Message>, id: OrderId)
    requires forall m | m in news :: m.id == id
    ensures About(news, id) == news
  {
    if news != [] {
      assert news[0] in news;
      AllAbout(news[1..], id);
    }
  }

  /** Whether an order fits depends on its own rows and messages only. */
  lemma StillFits(s: State, s': State, id: OrderId)
    requires Fits(s, id) && About(s'.published, id) == About(s.published, id) && s'.stock.Keys == s.stock.Keys
    requires (id in s'.orders <==> id in s.orders) && (id in s.orders ==> s'.orders[id] == s.orders[id])
    requires (id in s'.reservations <==> id in s.reservations)
             && (id in s.reservations ==> s'.reservations[id] == s.reservations[id])
    requires (id in s'.payments <==> id in s.payments) && (id in s.payments ==> s'.payments[id] == s.payments[id])
    ensures Fits(s', id)
  {
    hide About, Told;
  }

  lemma {:induction false} OthersStillFit(s: State, s': State, id: OrderId, news: seq<Message>)
    requires OnlyAbout(s, s', id, news)
    requires forall other :: Fits(s, other)
    ensures forall other | other != id :: Fits(s', other)
    ensures About(s'.published, id) == About(s.published, id) + news
  {
    hide Fits, About;
    AboutAppend(s.published, news, id);
    AllAbout(news, id);
    forall other | other != id ensures Fits(s', other) {
      AboutAppend(s.published, news, other);
      NoneAbout(news, other);
      assert About(s.published, other) + [] == About(s.published, other);
      StillFits(s, s', other);
    }
  }

  lemma {:induction false} PlacePreserves(s: State, initial: map<Sku, int>, id: OrderId, sku: Sku, quantity: int,
                                          amount: int)
    requires Invariant(s, initial)
    ensures Invariant(Place(s, id, sku, quantity, amount), initial)
  {
    var s' := Place(s, id, sku, quantity, amount);
    assert Fits(s, id);
    if id !in s.orders {
      OthersStillFit(s, s', id, [OrderPlaced(id, sku, quantity, amount)]);
      assert Fits(s', id);
      forall k | k in initial ensures s'.stock[k] + Held(s'.orders, k) == initial[k] {
        HeldSet(s.orders, id, s'.orders[id], k);
      }
    }
  }

  /** A published message is one its order's phase tells. */
  lemma {:induction false} MessageIsTold(s: State, initial: map<Sku, int>, m: Message)
    requires Invariant(s, initial) && m in s.published
    ensures m.id in s.orders && m in Told(m.id, s.orders[m.id], PhaseOf(s, m.id))
  {
    AboutMember(s.published, m);
    assert Fits(s, m.id);
  }

  /** A delivery moves its order to the next phase, exactly when the order is still
      in the phase in which the message was published. */
  predicate Awaits(s: State, m: Message)
    requires m.id in s.orders
  {
    var p := PhaseOf(s, m.id);
    match m
    case OrderPlaced(_, _, _, _) => p.Placed?
    case InventoryReserved(_, _, _, _) => p.Reserved?
    case PaymentCharged(_, _) => p.Charged?
    case PaymentFailed(_, _, _) => p.Declined?
    case InventoryReservationFailed(_, _) => false
    case OrderShipped(_) => false
  }

  function After(s: State, m: Message): Phase
    requires m.id in s.orders && Awaits(s, m)
  {
    var o := s.orders[m.id];
    match m
    case OrderPlaced(_, _, _, _) =>
      if o.sku in s.stock && s.stock[o.sku] >= o.quantity then Reserved else OutOfStock
    case InventoryReserved(_, _, _, _) => if IsDeclined(o) then Declined else Charged
    case PaymentCharged(_, _) => Shipped
    case PaymentFailed(_, _, _) => Compensated
    case InventoryReservationFailed(_, _) => PhaseOf(s, m.id)
    case OrderShipped(_) => PhaseOf(s, m.id)
  }

  /** A message whose order has moved on changes nothing and publishes nothing. */
  lemma {:induction false} StaleIsIgnored(s: State, initial: map<Sku, int>, m: Message)
    requires Invariant(s, initial) && m in s.published && m.id in s.orders && !Awaits(s, m)
    ensures Handle(s, m) == s
  {
    hide About, Conserved;
    MessageIsTold(s, initial, m);
    assert Fits(s, m.id);
  }

  /** What a told message carries is its order's own data. */
  lemma ToldMessage(m: Message, o: Order, p: Phase)
    requires m in Told(m.id, o, p)
    ensures match m
            case OrderPlaced(_, sku, quantity, amount) => sku == o.sku && quantity == o.quantity && amount == o.amount
            case InventoryReserved(_, sku, quantity, amount) =>
              sku == o.sku && quantity == o.quantity && amount == o.amount
            case PaymentFailed(_, sku, quantity) => sku == o.sku && quantity == o.quantity
            case PaymentCharged(_, amount) => amount == o.amount
            case InventoryReservationFailed(_, sku) => sku == o.sku
            case OrderShipped(_) => true
  {
  }

  lemma {:induction false} HandleMoves(s: State, initial: map<Sku, int>, m: Message)
    requires Invariant(s, initial) && m in s.published && m.id in s.orders && Awaits(s, m)
    ensures var s', o := Handle(s, m), s.orders[m.id];
            && s'.orders.Keys == s.orders.Keys
            && |s.published| <= |s'.published|
            && PhaseOf(s', m.id) == After(s, m)
            && s'.orders[m.id] == o.(status := s'.orders[m.id].status)
            && OnlyAbout(s, s', m.id, s'.published[|s.published|..])
  {
    hide About, Conserved, Told, OnlyAbout;
    MessageIsTold(s, initial, m);
    assert Fits(s, m.id);
    ToldMessage(m, s.orders[m.id], PhaseOf(s, m.id));
    HandleIsLocal(s, m);
  }

  lemma NewsIsSuffix(s: State, s': State, id: OrderId, news: seq<Message>)
    requires OnlyAbout(s, s', id, news)
    ensures |s.published| <= |s'.published| && OnlyAbout(s, s', id, s'.published[|s.published|..])
  {
    assert s'.published[|s.published|..] == news;
  }

  function NewsOf(s: State, m: Message): seq<Message> {
    match m
    case OrderPlaced(id, sku, quantity, amount) =>
      if id in s.reservations then []
      else if sku in s.stock && s.stock[sku] >= quantity then [InventoryReserved(id, sku, quantity, amount)]
      else [InventoryReservationFailed(id, sku)]
    case InventoryReserved(id, sku, quantity, amount) =>
      if id in s.payments then []
      else if amount >= UNAUTHORISED_AMOUNT then [PaymentFailed(id, sku, quantity)]
      else [PaymentCharged(id, amount)]
    case PaymentCharged(id, _) => if HasStatus(s, id, RESERVED) then [OrderShipped(id)] else []
    case _ => []
  }

  lemma HandlePublishes(s: State, m: Message)
    ensures Handle(s, m).published == s.published + NewsOf(s, m)
    ensures forall n | n in NewsOf(s, m) :: n.id == m.id
  {
    assert s.published + [] == s.published;
  }

  /** A handler touches the rows of its message's order alone. */
  lemma {:induction false} HandleIsLocal(s: State, m: Message)
    ensures var s' := Handle(s, m);
            |s.published| <= |s'.published| && OnlyAbout(s, s', m.id, s'.published[|s.published|..])
  {
    hide NewsOf;
    HandlePublishes(s, m);
    NewsIsSuffix(s, Handle(s, m), m.id, NewsOf(s, m));
  }

  lemma {:induction false} HandleFits(s: State, initial: map<Sku, int>, m: Message)
    requires Invariant(s, initial) && m in s.published && m.id in s.orders && Awaits(s, m)
    ensures forall id :: Fits(Handle(s, m), id)
  {
    var id, s' := m.id, Handle(s, m);
    var news := s'.published[|s.published|..];
    MessageIsTold(s, initial, m);
    HandleMoves(s, initial, m);
    assert Fits(s, id);
    OthersStillFit(s, s', id, news);
    OneFits(s, m, s.orders[id], PhaseOf(s, id));
  }

  /** The order of the message itself. */
  lemma {:induction false} OneFits(s: State, m: Message, o: Order, p: Phase)
    requires Fits(s, m.id) && m.id in s.orders && o == s.orders[m.id] && p == PhaseOf(s, m.id) && m in Told(m.id, o, p)
    requires Awaits(s, m)
    requires var s' := Handle(s, m);
             s'.published == s.published + s'.published[|s.published|..]
             && About(s'.published, m.id) == About(s.published, m.id) + s'.published[|s.published|..]
    ensures Fits(Handle(s, m), m.id)
  {
    hide About;
    var s' := Handle(s, m);
    assert About(s'.published, m.id) == Told(m.id, s'.orders[m.id], PhaseOf(s', m.id)) by {
      assert |Told(m.id, o, p)| <= 3;
    }
  }

  lemma {:induction false} HandleConserves(s: State, initial: map<Sku, int>, m: Message)
    requires Invariant(s, initial) && m in s.published && m.id in s.orders && Awaits(s, m)
    ensures Conserved(Handle(s, m), initial)
  {
    hide About, Held;
    var id, s' := m.id, Handle(s, m);
    MessageIsTold(s, initial, m);
    assert Fits(s, id);
    forall k | k in initial ensures s'.stock[k] + Held(s'.orders, k) == initial[k] {
      HeldSet(s.orders, id, s.orders[id].(status := s'.orders[id].status), k);
    }
  }

  lemma {:induction false} HandlePreserves(s: State, initial: map<Sku, int>, m: Message)
    requires Invariant(s, initial) && m in s.published
    ensures Invariant(Handle(s, m), initial)
  {
    hide Fits, Conserved;
    MessageIsTold(s, initial, m);
    if Awaits(s, m) {
      HandleFits(s, initial, m);
      HandleConserves(s, initial, m);
    } else {
      StaleIsIgnored(s, initial, m);
    }
  }

  lemma {:induction false} NextPreserves(s: State, initial: map<Sku, int>, step: Step)
    requires Invariant(s, initial)
    ensures Invariant(Next(s, step), initial)
  {
    hide Invariant;
    match step
    case PlaceOrder(id, sku, quantity, amount) =>
      PlacePreserves(s, initial, id, sku, quantity, amount);
    case Deliver(i, commits) =>
      if commits && i < |s.published| {
        HandlePreserves(s, initial, s.published[i]);
      }
  }

  // Safety over whole runs.

  lemma {:induction false} RunPreserves(s: State, initial: map<Sku, int>, steps: seq<Step>)
    requires Invariant(s, initial)
    ensures Invariant(Run(s, steps), initial)
    decreases |steps|
  {
    hide Invariant;
    if steps != [] {
      NextPreserves(s, initial, steps[0]);
      RunPreserves(Next(s, steps[0]), initial, steps[1..]);
    }
  }

  /** In every reachable state: each order's rows and messages agree, and of each
      sku what is available plus what is reserved or shipped is the initial stock. */
  lemma {:induction false} EveryRun(initial: map<Sku, int>, steps: seq<Step>)
    ensures Invariant(Run(Initial(initial), steps), initial)
  {
    forall id ensures Fits(Initial(initial), id) {}
    RunPreserves(Initial(initial), initial, steps);
  }

  /** The statuses mean what they say. */
  lemma {:induction false} StatusesMeanPayments(initial: map<Sku, int>, steps: seq<Step>, id: OrderId)
    requires id in Run(Initial(initial), steps).orders
    ensures var s := Run(Initial(initial), steps);
            && (HasStatus(s, id, SHIPPED) ==> id in s.payments && s.payments[id].status.CHARGED?)
            && (HasStatus(s, id, FAILED_PAYMENT) ==> id in s.payments && s.payments[id].status.DECLINED?)
            && (HasStatus(s, id, FAILED_RESERVATION) ==> id !in s.payments)
            && (id in s.payments ==> id in s.reservations && s.payments[id].amount == s.orders[id].amount)
            && (id in s.payments ==> (s.payments[id].status.DECLINED? <==> s.orders[id].amount >= 10_000))
  {
    EveryRun(initial, steps);
    assert Fits(Run(Initial(initial), steps), id);
  }

  /** In every reachable state the first committed delivery of an order's placement
      reserves it if the stock covers its quantity, which it takes, and else fails it. */
  lemma {:induction false} StockDecides(initial: map<Sku, int>, steps: seq<Step>, i: nat)
    requires var s := Run(Initial(initial), steps);
             i < |s.published| && s.published[i].OrderPlaced? && HasStatus(s, s.published[i].id, PLACED)
    ensures var s := Run(Initial(initial), steps);
            var id := s.published[i].id;
            var s', o := Next(s, Deliver(i, true)), s.orders[id];
            if o.sku in s.stock && o.quantity <= s.stock[o.sku]
            then HasStatus(s', id, RESERVED) && s'.stock == s.stock[o.sku := s.stock[o.sku] - o.quantity]
            else HasStatus(s', id, FAILED_RESERVATION) && s'.stock == s.stock
  {
    hide About, Conserved;
    EveryRun(initial, steps);
    var s := Run(Initial(initial), steps);
    var m := s.published[i];
    MessageIsTold(s, initial, m);
    ToldMessage(m, s.orders[m.id], PhaseOf(s, m.id));
    assert Fits(s, m.id);
  }

  predicate Sane(step: Step) {
    step.PlaceOrder? ==> step.quantity >= 0
  }

  ghost predicate NonNegative(s: State) {
    && (forall sku | sku in s.stock :: s.stock[sku] >= 0)
    && forall id | id in s.orders :: s.orders[id].quantity >= 0
  }

  lemma {:induction false} HandleNonNegative(s: State, initial: map<Sku, int>, m: Message)
    requires Invariant(s, initial) && NonNegative(s) && m in s.published
    ensures NonNegative(Handle(s, m))
  {
    hide About, Conserved, Told;
    MessageIsTold(s, initial, m);
    if Awaits(s, m) {
      HandleMoves(s, initial, m);
      ToldMessage(m, s.orders[m.id], PhaseOf(s, m.id));
    } else {
      StaleIsIgnored(s, initial, m);
    }
  }

  lemma {:induction false} NextNonNegative(s: State, initial: map<Sku, int>, step: Step)
    requires Invariant(s, initial) && NonNegative(s) && Sane(step)
    ensures NonNegative(Next(s, step))
  {
    hide Invariant;
    if step.Deliver? && step.commits && step.index < |s.published| {
      HandleNonNegative(s, initial, s.published[step.index]);
    }
  }

  lemma {:induction false} RunNonNegative(s: State, initial: map<Sku, int>, steps: seq<Step>)
    requires Invariant(s, initial) && NonNegative(s) && forall step | step in steps :: Sane(step)
    ensures NonNegative(Run(s, steps))
    decreases |steps|
  {
    hide Invariant, NonNegative;
    if steps != [] {
      assert steps[0] in steps;
      NextPreserves(s, initial, steps[0]);
      NextNonNegative(s, initial, steps[0]);
      RunNonNegative(Next(s, steps[0]), initial, steps[1..]);
    }
  }

  /** Orders with nonnegative quantities never overdraw the stock. */
  lemma {:induction false} StockNeverNegative(initial: map<Sku, int>, steps: seq<Step>, sku: Sku)
    requires sku in initial && (forall k | k in initial :: initial[k] >= 0)
    requires forall step | step in steps :: Sane(step)
    ensures sku in Run(Initial(initial), steps).stock && Run(Initial(initial), steps).stock[sku] >= 0
  {
    EveryRun(initial, []);
    EveryRun(initial, steps);
    RunNonNegative(Initial(initial), initial, steps);
  }

  // Which quantities are safe.

  /** A run that only places orders of allowed quantities. */
  ghost predicate Uses(steps: seq<Step>, allowed: int -> bool) {
    forall step | step in steps && step.PlaceOrder? :: allowed(step.quantity)
  }

  ghost predicate OrdersUse(s: State, allowed: int -> bool) {
    forall id | id in s.orders :: allowed(s.orders[id].quantity)
  }

  ghost predicate StaysNonNegative(initial: map<Sku, int>, steps: seq<Step>) {
    var stock := Run(Initial(initial), steps).stock;
    forall sku | sku in stock :: stock[sku] >= 0
  }

  lemma {:induction false} NextUses(s: State, initial: map<Sku, int>, step: Step, allowed: int -> bool)
    requires Invariant(s, initial) && OrdersUse(s, allowed) && (step.PlaceOrder? ==> allowed(step.quantity))
    ensures OrdersUse(Next(s, step), allowed)
  {
    hide Invariant, About, Told, Handle;
    if step.Deliver? && step.commits && step.index < |s.published| {
      var m := s.published[step.index];
      MessageIsTold(s, initial, m);
      forall id | id in Next(s, step).orders ensures allowed(Next(s, step).orders[id].quantity) {
        HandledKeys(s, initial, m);
        StepMovesForward(s, initial, step, id);
      }
    }
  }

  lemma {:induction false} HandledKeys(s: State, initial: map<Sku, int>, m: Message)
    requires Invariant(s, initial) && m in s.published
    ensures Handle(s, m).orders.Keys == s.orders.Keys
  {
    hide Invariant, About, Told, Handle;
    MessageIsTold(s, initial, m);
    if Awaits(s, m) {
      HandleMoves(s, initial, m);
    } else {
      StaleIsIgnored(s, initial, m);
    }
  }

  lemma {:induction false} RunUses(s: State, initial: map<Sku, int>, steps: seq<Step>, allowed: int -> bool)
    requires Invariant(s, initial) && OrdersUse(s, allowed) && Uses(steps, allowed)
    ensures OrdersUse(Run(s, steps), allowed)
    decreases |steps|
  {
    hide Invariant, OrdersUse, Next;
    if steps != [] {
      assert steps[0] in steps;
      NextUses(s, initial, steps[0], allowed);
      NextPreserves(s, initial, steps[0]);
      RunUses(Next(s, steps[0]), initial, steps[1..], allowed);
    }
  }

  /** Orders that give and never take leave no less than there was. */
  lemma {:induction false} OnlyGivingNeverOverdraws(initial: map<Sku, int>, steps: seq<Step>, allowed: int -> bool)
    requires (forall k | k in initial :: initial[k] >= 0) && Uses(steps, allowed)
    requires forall q: int | allowed(q) :: q <= 0
    ensures StaysNonNegative(initial, steps)
  {
    EveryRun(initial, []);
    EveryRun(initial, steps);
    RunUses(Initial(initial), initial, steps, allowed);
    var s := Run(Initial(initial), steps);
    forall sku | sku in s.stock ensures s.stock[sku] >= 0 {
      SumNonPositive(s.orders, Weighs(sku));
    }
  }

  /** After an order of the negative quantity `a` is reserved and one of `b` placed. */
  function Halfway(a: int, b: int, stock: int): State {
    State(map[0 := stock - a],
          map[1 := Order(0, a, 20_000, RESERVED), 2 := Order(0, b, 10, PLACED)],
          map[1 := Reservation(0, a)],
          map[],
          [OrderPlaced(1, 0, a, 20_000), InventoryReserved(1, 0, a, 20_000), OrderPlaced(2, 0, b, 10)])
  }

  lemma HalfwayIsReached(a: int, b: int, stock: int)
    requires a < 0 <= stock
    ensures Next(Next(Next(Initial(map[0 := stock]), PlaceOrder(1, 0, a, 20_000)), Deliver(0, true)),
                 PlaceOrder(2, 0, b, 10))
            == Halfway(a, b, stock)
  {
    var s1 := Next(Initial(map[0 := stock]), PlaceOrder(1, 0, a, 20_000));
    assert s1.published == [OrderPlaced(1, 0, a, 20_000)];
    var s2 := Next(s1, Deliver(0, true));
    assert s2.stock == map[0 := stock - a] && s2.orders == map[1 := Order(0, a, 20_000, RESERVED)];
  }

  /** Both orders are reserved, then the first one's payment fails. */
  function MixedRun(a: int, b: int): seq<Step> {
    [PlaceOrder(1, 0, a, 20_000), Deliver(0, true), PlaceOrder(2, 0, b, 10),
     Deliver(2, true), Deliver(1, true), Deliver(4, true)]
  }

  /** A negative quantity overdraws: releasing it after another order has taken the
      stock it added leaves less than nothing. */
  lemma NegativeQuantityOverdraws(a: int, b: int, stock: int)
    requires a < 0 < b && 0 <= stock && a + b <= stock < b
    ensures Run(Initial(map[0 := stock]), MixedRun(a, b)).stock == map[0 := stock - b]
  {
    HalfwayIsReached(a, b, stock);
    var s4 := Next(Halfway(a, b, stock), Deliver(2, true));
    assert s4.stock == map[0 := stock - a - b];
    assert s4.published[1] == InventoryReserved(1, 0, a, 20_000) && |s4.published| == 4;
    var s5 := Next(s4, Deliver(1, true));
    assert s5.published[4] == PaymentFailed(1, 0, a) && HasStatus(s5, 1, RESERVED);
    var s6 := Next(s5, Deliver(4, true));
    assert s6.stock == map[0 := stock - b];
    RunSix(Initial(map[0 := stock]), PlaceOrder(1, 0, a, 20_000), Deliver(0, true), PlaceOrder(2, 0, b, 10),
           Deliver(2, true), Deliver(1, true), Deliver(4, true));
  }

  lemma MixedRunUses(a: int, b: int, allowed: int -> bool)
    requires allowed(a) && allowed(b)
    ensures Uses(MixedRun(a, b), allowed)
  {
  }

  lemma MixedRunOverdraws(a: int, b: int)
    requires a < 0 < b
    ensures !StaysNonNegative(map[0 := b - 1], MixedRun(a, b))
  {
    hide Run, Initial;
    NegativeQuantityOverdraws(a, b, b - 1);
    assert 0 in Run(Initial(map[0 := b - 1]), MixedRun(a, b)).stock;
  }

  /** No run from nonnegative stock ever has negative stock, if and only if the
      quantities it may use are not both below and above zero. */
  lemma {:induction false} StockSafety(allowed: int -> bool)
    ensures (forall initial, steps ::
               (forall k | k in initial :: initial[k] >= 0) && Uses(steps, allowed)
               ==> StaysNonNegative(initial, steps))
            <==> !(exists a, b :: a < 0 < b && allowed(a) && allowed(b))
  {
    hide StaysNonNegative, Uses;
    if exists a, b :: a < 0 < b && allowed(a) && allowed(b) {
      var a, b :| a < 0 < b && allowed(a) && allowed(b);
      MixedRunUses(a, b, allowed);
      MixedRunOverdraws(a, b);
    } else {
      forall initial, steps | (forall k | k in initial :: initial[k] >= 0) && Uses(steps, allowed)
        ensures StaysNonNegative(initial, steps)
      {
        OneSignNeverOverdraws(initial, steps, allowed);
      }
    }
  }

  lemma {:induction false} OneSignNeverOverdraws(initial: map<Sku, int>, steps: seq<Step>, allowed: int -> bool)
    requires (forall k | k in initial :: initial[k] >= 0) && Uses(steps, allowed)
    requires !(exists a, b :: a < 0 < b && allowed(a) && allowed(b))
    ensures StaysNonNegative(initial, steps)
  {
    hide StaysNonNegative;
    if exists b :: b > 0 && allowed(b) {
      assert forall q: int | allowed(q) :: q >= 0;
      assert forall step | step in steps :: Sane(step);
      SaneNeverOverdraws(initial, steps);
    } else {
      OnlyGivingNeverOverdraws(initial, steps, allowed);
    }
  }

  lemma {:induction false} SaneNeverOverdraws(initial: map<Sku, int>, steps: seq<Step>)
    requires (forall k | k in initial :: initial[k] >= 0) && forall step | step in steps :: Sane(step)
    ensures StaysNonNegative(initial, steps)
  {
    EveryRun(initial, steps);
    forall sku | sku in Run(Initial(initial), steps).stock ensures Run(Initial(initial), steps).stock[sku] >= 0 {
      StockNeverNegative(initial, steps, sku);
    }
  }

  lemma RunSix(s: State, a: Step, b: Step, c: Step, d: Step, e: Step, f: Step)
    ensures Run(s, [a, b, c, d, e, f]) == Next(Next(Next(Next(Next(Next(s, a), b), c), d), e), f)
  {
    hide Next;
    var s1 := Next(s, a);
    var s2 := Next(s1, b);
    var s3 := Next(s2, c);
    var s4 := Next(s3, d);
    RunOne(Next(s4, e), f);
    assert [e, f][1..] == [f];
    assert Run(s4, [e, f]) == Run(Next(s4, e), [f]);
    assert [d, e, f][1..] == [e, f];
    assert Run(s3, [d, e, f]) == Run(s4, [e, f]);
    assert [c, d, e, f][1..] == [d, e, f];
    assert Run(s2, [c, d, e, f]) == Run(s3, [d, e, f]);
    assert [b, c, d, e, f][1..] == [c, d, e, f];
    assert Run(s1, [b, c, d, e, f]) == Run(s2, [c, d, e, f]);
    assert [a, b, c, d, e, f][1..] == [b, c, d, e, f];
  }

  // Progress.

  function Rank(p: Phase): nat {
    match p
    case Placed => 0
    case Reserved => 1
    case Charged => 2
    case Declined => 2
    case Shipped => 3
    case Compensated => 3
    case OutOfStock => 3
  }

  function RankOf(s: State, id: OrderId): nat {
    if id in s.orders then Rank(PhaseOf(s, id)) else 0
  }

  predicate Terminal(p: Phase) {
    p.Shipped? || p.Compensated? || p.OutOfStock?
  }

  /** A step moves an order's phase forward or not at all, and never its data. */
  lemma {:induction false} StepMovesForward(s: State, initial: map<Sku, int>, step: Step, id: OrderId)
    requires Invariant(s, initial) && id in s.orders
    ensures var s' := Next(s, step);
            && id in s'.orders
            && s'.orders[id] == s.orders[id].(status := s'.orders[id].status)
            && RankOf(s, id) <= RankOf(s', id)
            && (Terminal(PhaseOf(s, id)) ==> s'.orders[id] == s.orders[id])
            && if step.Deliver? && s' != s && s.published[step.index].id == id
               then RankOf(s, id) < RankOf(s', id) else s'.orders[id] == s.orders[id]
  {
    hide Invariant, About, Told;
    if step.Deliver? && step.commits && step.index < |s.published| {
      var m := s.published[step.index];
      MessageIsTold(s, initial, m);
      if Awaits(s, m) {
        HandleMoves(s, initial, m);
      } else {
        StaleIsIgnored(s, initial, m);
      }
    }
  }

  /** Published messages stay published, and what has been handled stays handled. */
  lemma {:induction false} StaleStaysStale(s: State, initial: map<Sku, int>, steps: seq<Step>, i: nat)
    requires Invariant(s, initial) && i < |s.published| && s.published[i].id in s.orders && !Awaits(s, s.published[i])
    ensures var s', m := Run(s, steps), s.published[i];
            && |s.published| <= |s'.published| && s'.published[i] == m
            && m.id in s'.orders && !Awaits(s', m)
    decreases |steps|
  {
    hide Invariant, About;
    if steps != [] {
      var m, s' := s.published[i], Next(s, steps[0]);
      PublishedStays(s, steps[0]);
      StepMovesForward(s, initial, steps[0], m.id);
      NextPreserves(s, initial, steps[0]);
      MessageIsTold(s, initial, m);
      assert s'.published[i] in s'.published;
      MessageIsTold(s', initial, m);
      StaleStaysStale(s', initial, steps[1..], i);
    }
  }

  lemma PublishedStays(s: State, step: Step)
    ensures s.published <= Next(s, step).published
  {
  }

  /** Once the handler of a message has committed, delivering the message again, in
      any later reachable state, changes no row and publishes nothing. */
  lemma {:induction false} RedeliveryChangesNothing(s: State, initial: map<Sku, int>, i: nat, steps: seq<Step>)
    requires Invariant(s, initial) && i < |s.published|
    ensures var s' := Run(Next(s, Deliver(i, true)), steps);
            Next(s', Deliver(i, true)) == s'
  {
    hide Invariant, About, Told;
    var m, s' := s.published[i], Next(s, Deliver(i, true));
    HandledIsStale(s, initial, m);
    NextPreserves(s, initial, Deliver(i, true));
    PublishedStays(s, Deliver(i, true));
    assert s'.published[i] == m;
    StaleStaysStale(s', initial, steps, i);
    RunPreserves(s', initial, steps);
    StaleIsIgnored(Run(s', steps), initial, m);
  }

  lemma {:induction false} HandledIsStale(s: State, initial: map<Sku, int>, m: Message)
    requires Invariant(s, initial) && m in s.published
    ensures m.id in Handle(s, m).orders && !Awaits(Handle(s, m), m)
  {
    hide Invariant, About, Told;
    MessageIsTold(s, initial, m);
    if Awaits(s, m) {
      HandleMoves(s, initial, m);
    } else {
      StaleIsIgnored(s, initial, m);
    }
  }

  // Runs without repeats.

  /** The run without aborted deliveries and without repeats of those in `seen`. */
  function Pruned(s: State, steps: seq<Step>, seen: set<nat>): seq<Step>
    decreases |steps|
  {
    if steps == [] then []
    else
      var step, rest := steps[0], steps[1..];
      if step.PlaceOrder? then [step] + Pruned(Next(s, step), rest, seen)
      else if step.commits && step.index < |s.published| && step.index !in seen
      then [step] + Pruned(Next(s, step), rest, seen + {step.index})
      else Pruned(s, rest, seen)
  }

  /** No message is delivered twice, nothing in `seen` at all, and nothing aborts. */
  ghost predicate WithoutRepeats(steps: seq<Step>, seen: set<nat>) {
    steps == [] ||
    (var step := steps[0];
     if step.PlaceOrder? then WithoutRepeats(steps[1..], seen)
     else step.commits && step.index !in seen && WithoutRepeats(steps[1..], seen + {step.index}))
  }

  ghost predicate AllStale(s: State, seen: set<nat>) {
    forall i | i in seen :: i < |s.published| && s.published[i].id in s.orders && !Awaits(s, s.published[i])
  }

  lemma {:induction false} AllStaleNext(s: State, initial: map<Sku, int>, seen: set<nat>, step: Step)
    requires Invariant(s, initial) && AllStale(s, seen)
    ensures AllStale(Next(s, step), seen)
  {
    hide Invariant, Next, Awaits;
    forall i | i in seen
      ensures i < |Next(s, step).published| && Next(s, step).published[i].id in Next(s, step).orders
      ensures !Awaits(Next(s, step), Next(s, step).published[i])
    {
      StaleStaysStale(s, initial, [step], i);
      RunOne(s, step);
    }
  }

  lemma RunOne(s: State, step: Step)
    ensures Run(s, [step]) == Next(s, step)
  {
    hide Next;
    assert [step][1..] == [];
  }

  /** Any interleaving, reordering, repetition or abortion of deliveries ends in the
      same rows and messages as the run in which each message is handled once. */
  lemma {:induction false} RepeatsDoNotMatter(s: State, initial: map<Sku, int>, steps: seq<Step>, seen: set<nat>)
    requires Invariant(s, initial) && AllStale(s, seen)
    ensures Run(s, Pruned(s, steps, seen)) == Run(s, steps)
    ensures WithoutRepeats(Pruned(s, steps, seen), seen)
    decreases |steps|
  {
    hide Invariant, AllStale, Next;
    if steps != [] {
      var step, rest := steps[0], steps[1..];
      var s' := Next(s, step);
      var kept := step.PlaceOrder? || (step.commits && step.index < |s.published| && step.index !in seen);
      if kept {
        var seen' := if step.PlaceOrder? then seen else seen + {step.index};
        StillStale(s, initial, seen, step);
        NextPreserves(s, initial, step);
        RepeatsDoNotMatter(s', initial, rest, seen');
        assert ([step] + Pruned(s', rest, seen'))[1..] == Pruned(s', rest, seen');
      } else {
        DroppedIsIdle(s, initial, seen, step);
        RepeatsDoNotMatter(s, initial, rest, seen);
      }
    }
  }

  lemma {:induction false} StillStale(s: State, initial: map<Sku, int>, seen: set<nat>, step: Step)
    requires Invariant(s, initial) && AllStale(s, seen)
    requires step.PlaceOrder? || (step.commits && step.index < |s.published|)
    ensures AllStale(Next(s, step), if step.PlaceOrder? then seen else seen + {step.index})
  {
    hide Invariant, Awaits, Handle;
    AllStaleNext(s, initial, seen, step);
    if step.Deliver? {
      PublishedStays(s, step);
      HandledIsStale(s, initial, s.published[step.index]);
    }
  }

  lemma {:induction false} DroppedIsIdle(s: State, initial: map<Sku, int>, seen: set<nat>, step: Step)
    requires Invariant(s, initial) && AllStale(s, seen) && step.Deliver?
    requires !step.commits || |s.published| <= step.index || step.index in seen
    ensures Next(s, step) == s
  {
    hide Invariant, Awaits, Handle;
    if step.commits && step.index < |s.published| {
      StaleIsIgnored(s, initial, s.published[step.index]);
    }
  }

  /** The deliveries of a run that change rows of one order. */
  function Changes(s: State, steps: seq<Step>, id: OrderId): nat
    decreases |steps|
  {
    if steps == [] then 0
    else
      var step := steps[0];
      (if step.Deliver? && Next(s, step) != s && s.published[step.index].id == id then 1 else 0)
      + Changes(Next(s, step), steps[1..], id)
  }

  lemma {:induction false} ChangesRaiseRank(s: State, initial: map<Sku, int>, steps: seq<Step>, id: OrderId)
    requires Invariant(s, initial)
    ensures Changes(s, steps, id) + RankOf(s, id) <= RankOf(Run(s, steps), id)
    decreases |steps|
  {
    hide Invariant, Next, Awaits, About;
    if steps != [] {
      var step := steps[0];
      NextPreserves(s, initial, step);
      ChangesRaiseRank(Next(s, step), initial, steps[1..], id);
      if id in s.orders {
        StepMovesForward(s, initial, step, id);
      } else if step.Deliver? && Next(s, step) != s {
        DeliveryChanged(s, step);
        MessageIsTold(s, initial, s.published[step.index]);
      }
    }
  }

  lemma DeliveryChanged(s: State, step: Step)
    requires step.Deliver? && Next(s, step) != s
    ensures step.commits && step.index < |s.published|
  {
  }

  /** Each order takes at most three row-changing deliveries after it is placed. */
  lemma {:induction false} AtMostThreeChanges(initial: map<Sku, int>, steps: seq<Step>, id: OrderId)
    ensures Changes(Initial(initial), steps, id) <= 3
  {
    EveryRun(initial, []);
    ChangesRaiseRank(Initial(initial), initial, steps, id);
  }

  lemma {:induction false} AboutIsPublished(published: seq<Message>, id: OrderId, m: Message)
    requires m in About(published, id)
    ensures m in published
  {
    if published != [] && !(Concerns(published[0], id) && published[0] == m) {
      AboutIsPublished(published[1..], id, m);
    }
  }

  lemma {:induction false} IdleIffStale(s: State, initial: map<Sku, int>, m: Message)
    requires Invariant(s, initial) && m in s.published && m.id in s.orders
    ensures Handle(s, m) == s <==> !Awaits(s, m)
  {
    hide Invariant, About, Handle;
    if Awaits(s, m) {
      HandleMoves(s, initial, m);
    } else {
      StaleIsIgnored(s, initial, m);
    }
  }

  /** No published message has an effect any more exactly when every order is terminal. */
  lemma {:induction false} HandledIffTerminal(s: State, initial: map<Sku, int>)
    requires Invariant(s, initial)
    ensures (forall m | m in s.published :: Handle(s, m) == s)
            <==> (forall id | id in s.orders :: Terminal(PhaseOf(s, id)))
  {
    hide About, Conserved, Handle;
    forall m | m in s.published
      ensures m.id in s.orders && (Handle(s, m) == s <==> !Awaits(s, m))
    {
      MessageIsTold(s, initial, m);
      IdleIffStale(s, initial, m);
    }
    forall id | id in s.orders && !Terminal(PhaseOf(s, id))
      ensures exists m :: m in s.published && m.id == id && Awaits(s, m)
    {
      assert Fits(s, id);
      var told := Told(id, s.orders[id], PhaseOf(s, id));
      var m := told[|told| - 1];
      AboutIsPublished(s.published, id, m);
      assert Awaits(s, m);
    }
  }

  // Delivered messages.

  /** The messages whose handlers change rows. */
  predicate Acts(m: Message) {
    !m.InventoryReservationFailed? && !m.OrderShipped?
  }

  /** The published messages that a run has delivered to a handler that committed. */
  function Delivered(s: State, steps: seq<Step>): set<nat>
    decreases |steps|
  {
    if steps == [] then {}
    else
      var step := steps[0];
      (if step.Deliver? && step.commits && step.index < |s.published| then {step.index} else {})
      + Delivered(Next(s, step), steps[1..])
  }

  /** What an order still waits for is what has not been delivered. */
  ghost predicate Outstanding(s: State, delivered: set<nat>) {
    && (forall i | i in delivered :: i < |s.published|)
    && forall i | 0 <= i < |s.published| ::
         && s.published[i].id in s.orders
         && (Awaits(s, s.published[i]) <==> Acts(s.published[i]) && i !in delivered)
  }

  lemma {:induction false} ToldIsDistinct(id: OrderId, o: Order, p: Phase)
    ensures Distinct(Told(id, o, p))
  {
    var told := Told(id, o, p);
    assert |told| > 1 ==> Distinct(told[1..]) by {
      assert |told| > 2 ==> Distinct(told[1..][1..]);
    }
  }

  /** No message is published twice. */
  lemma {:induction false} PublishedOnce(published: seq<Message>, i: nat, j: nat)
    requires i < j < |published| && Distinct(About(published, published[i].id))
    ensures published[i] != published[j]
  {
    if i > 0 {
      assert published[1..][i - 1] == published[i];
      var tail := About(published[1..], published[i].id);
      assert ([published[0]] + tail)[1..] == tail && [] + tail == tail;
      PublishedOnce(published[1..], i - 1, j - 1);
    } else if published[0] == published[j] {
      assert published[1..][j - 1] == published[0];
      AboutMember(published[1..], published[0]);
    }
  }

  /** An order waits for one message at most. */
  lemma {:induction false} AwaitsOne(s: State, initial: map<Sku, int>, i: nat, j: nat)
    requires Invariant(s, initial) && i < |s.published| && j < |s.published| && i != j
    requires s.published[i].id == s.published[j].id && s.published[i].id in s.orders
    ensures !(Awaits(s, s.published[i]) && Awaits(s, s.published[j]))
  {
    hide Invariant, About, Told;
    var m, m' := s.published[i], s.published[j];
    var id := m.id;
    MessageIsTold(s, initial, m);
    MessageIsTold(s, initial, m');
    ToldMessage(m, s.orders[id], PhaseOf(s, id));
    ToldMessage(m', s.orders[id], PhaseOf(s, id));
    AboutIsTold(s, initial, id);
    ToldIsDistinct(id, s.orders[id], PhaseOf(s, id));
    PublishedOnce(s.published, if i < j then i else j, if i < j then j else i);
  }

  lemma AboutIsTold(s: State, initial: map<Sku, int>, id: OrderId)
    requires Invariant(s, initial) && id in s.orders
    ensures About(s.published, id) == Told(id, s.orders[id], PhaseOf(s, id))
  {
    assert Fits(s, id);
  }

  /** Of the messages there were, the delivered one is no longer awaited, and no other
      is concerned. */
  lemma {:induction false} OldMessages(s: State, initial: map<Sku, int>, i: nat, j: nat)
    requires Invariant(s, initial) && i < |s.published| && j < |s.published|
    requires s.published[i].id in s.orders && s.published[j].id in s.orders
    ensures var s' := Handle(s, s.published[i]);
            && j < |s'.published| && s'.published[j] == s.published[j] && s.published[j].id in s'.orders
            && (Awaits(s', s.published[j]) <==> Awaits(s, s.published[j]) && i != j)
  {
    hide Invariant, About, Told, Handle;
    var m, m' := s.published[i], s.published[j];
    var s' := Handle(s, m);
    var step := Deliver(i, true);
    assert Next(s, step) == s';
    PublishedStays(s, step);
    if !Awaits(s, m) {
      StaleIsIgnored(s, initial, m);
    } else if m'.id != m.id {
      HandleMoves(s, initial, m);
      SamePhase(s, s', m.id, s'.published[|s.published|..], m');
    } else if i == j {
      HandledIsStale(s, initial, m);
    } else {
      AwaitsOne(s, initial, i, j);
      StaleStaysStale(s, initial, [step], j);
      RunOne(s, step);
    }
  }

  lemma SamePhase(s: State, s': State, id: OrderId, news: seq<Message>, m: Message)
    requires OnlyAbout(s, s', id, news) && m.id != id && m.id in s.orders
    ensures m.id in s'.orders && (Awaits(s', m) <==> Awaits(s, m))
  {
    assert PhaseOf(s', m.id) == PhaseOf(s, m.id);
  }

  /** What a handler publishes is awaited if its own handler acts. */
  lemma {:induction false} NewMessages(s: State, initial: map<Sku, int>, i: nat, k: nat)
    requires Invariant(s, initial) && i < |s.published| && s.published[i].id in s.orders
    requires |s.published| <= k < |Handle(s, s.published[i]).published|
    ensures var s' := Handle(s, s.published[i]);
            s'.published[k].id in s'.orders && (Awaits(s', s'.published[k]) <==> Acts(s'.published[k]))
  {
    hide Invariant, About, Told, Handle;
    var m := s.published[i];
    var s' := Handle(s, m);
    if Awaits(s, m) {
      MessageIsTold(s, initial, m);
      ToldMessage(m, s.orders[m.id], PhaseOf(s, m.id));
      HandleMoves(s, initial, m);
      HandlePublishes(s, m);
      assert s'.published[k] == NewsOf(s, m)[k - |s.published|];
    } else {
      StaleIsIgnored(s, initial, m);
    }
  }

  lemma DeliveredOne(s: State, step: Step)
    ensures Delivered(s, [step]) ==
            if step.Deliver? && step.commits && step.index < |s.published| then {step.index} else {}
  {
    assert [step][1..] == [] && Delivered(Next(s, step), []) == {};
  }

  lemma UnplacedIsUnpaid(s: State, initial: map<Sku, int>, id: OrderId)
    requires Invariant(s, initial) && id !in s.orders
    ensures id !in s.payments
  {
    assert Fits(s, id);
  }

  lemma {:induction false} OutstandingNext(s: State, initial: map<Sku, int>, delivered: set<nat>, step: Step)
    requires Invariant(s, initial) && Outstanding(s, delivered)
    ensures Outstanding(Next(s, step), delivered + Delivered(s, [step]))
  {
    hide Invariant, Awaits, Handle, Acts;
    DeliveredOne(s, step);
    var s', now := Next(s, step), delivered + Delivered(s, [step]);
    if step.Deliver? && step.commits && step.index < |s.published| {
      assert now == delivered + {step.index};
      forall j | 0 <= j < |s'.published|
        ensures s'.published[j].id in s'.orders
        ensures Awaits(s', s'.published[j]) <==> Acts(s'.published[j]) && j !in now
      {
        if j < |s.published| {
          OldMessages(s, initial, step.index, j);
        } else {
          NewMessages(s, initial, step.index, j);
        }
      }
      PublishedStays(s, step);
    } else if step.PlaceOrder? && step.id !in s.orders {
      assert now == delivered;
      UnplacedIsUnpaid(s, initial, step.id);
      PlacedIsAwaited(s, delivered, step);
    } else {
      assert now == delivered && s' == s;
    }
  }

  lemma PlacedIsAwaited(s: State, delivered: set<nat>, step: Step)
    requires Outstanding(s, delivered) && step.PlaceOrder? && step.id !in s.orders
    requires step.id !in s.payments
    ensures Outstanding(Next(s, step), delivered)
  {
    var s' := Next(s, step);
    forall j | 0 <= j < |s'.published|
      ensures s'.published[j].id in s'.orders
      ensures Awaits(s', s'.published[j]) <==> Acts(s'.published[j]) && j !in delivered
    {
      if j < |s.published| {
        assert s'.published[j] == s.published[j] && s.published[j].id != step.id;
        assert PhaseOf(s', s.published[j].id) == PhaseOf(s, s.published[j].id);
      }
    }
  }

  lemma {:induction false} OutstandingRun(s: State, initial: map<Sku, int>, delivered: set<nat>, steps: seq<Step>)
    requires Invariant(s, initial) && Outstanding(s, delivered)
    ensures Outstanding(Run(s, steps), delivered + Delivered(s, steps))
    decreases |steps|
  {
    hide Invariant, Outstanding, Next;
    if steps == [] {
      assert delivered + {} == delivered;
    } else {
      var step := steps[0];
      NextPreserves(s, initial, step);
      OutstandingNext(s, initial, delivered, step);
      OutstandingRun(Next(s, step), initial, delivered + Delivered(s, [step]), steps[1..]);
      DeliveredOne(s, step);
      assert delivered + Delivered(s, [step]) + Delivered(Next(s, step), steps[1..]) == delivered + Delivered(s, steps);
    }
  }

  /** In every run, every order has come to its end exactly when every message whose
      handler changes rows has been delivered and its handler has committed. */
  lemma {:induction false} DeliveredIffTerminal(initial: map<Sku, int>, steps: seq<Step>)
    ensures var s, delivered := Run(Initial(initial), steps), Delivered(Initial(initial), steps);
            (forall i | 0 <= i < |s.published| && Acts(s.published[i]) :: i in delivered)
            <==> (forall id | id in s.orders :: Terminal(PhaseOf(s, id)))
  {
    hide Invariant, Awaits, Acts, Handle;
    EveryRun(initial, []);
    EveryRun(initial, steps);
    OutstandingRun(Initial(initial), initial, {}, steps);
    var s, delivered := Run(Initial(initial), steps), Delivered(Initial(initial), steps);
    assert {} + delivered == delivered;
    forall m | m in s.published ensures m.id in s.orders && (Handle(s, m) == s <==> !Awaits(s, m)) {
      MessageIsTold(s, initial, m);
      IdleIffStale(s, initial, m);
    }
    HandledIffTerminal(s, initial);
  }

  // The saga can always finish.

  function StepsLeft(s: State): map<OrderId, int> {
    map id | id in s.orders :: 3 - RankOf(s, id)
  }

  function Itself(): int -> int {
    (n: int) => n
  }

  ghost function Left(s: State): nat {
    SumNonNegative(StepsLeft(s), Itself());
    Sum(StepsLeft(s), Itself())
  }

  lemma OthersKeepRank(s: State, s': State, id: OrderId, news: seq<Message>, other: OrderId)
    requires OnlyAbout(s, s', id, news) && other != id
    ensures (other in s'.orders <==> other in s.orders) && RankOf(s', other) == RankOf(s, other)
  {
  }

  lemma DeliveryRaisesRank(s: State, initial: map<Sku, int>, m: Message)
    requires Invariant(s, initial) && m in s.published && m.id in s.orders && Awaits(s, m)
    ensures m.id in Handle(s, m).orders && RankOf(s, m.id) < RankOf(Handle(s, m), m.id) <= 3
  {
    hide Invariant, OnlyAbout, Handle;
    HandleMoves(s, initial, m);
  }

  lemma {:induction false} DeliveryLeavesLess(s: State, initial: map<Sku, int>, m: Message)
    requires Invariant(s, initial) && m in s.published && m.id in s.orders && Awaits(s, m)
    ensures Left(Handle(s, m)) < Left(s) && Handle(s, m).orders.Keys == s.orders.Keys
  {
    hide Invariant, OnlyAbout, Handle, Awaits, RankOf;
    var s', id := Handle(s, m), m.id;
    HandleMoves(s, initial, m);
    DeliveryRaisesRank(s, initial, m);
    forall other | other != id
      ensures (other in s'.orders <==> other in s.orders) && RankOf(s', other) == RankOf(s, other)
    {
      OthersKeepRank(s, s', id, s'.published[|s.published|..], other);
    }
    RankIsSmall(s);
    RankIsSmall(s');
    assert StepsLeft(s') == StepsLeft(s)[id := 3 - RankOf(s', id)];
    SumSet(StepsLeft(s), id, 3 - RankOf(s', id), Itself());
  }

  lemma RankIsSmall(s: State)
    ensures forall id :: RankOf(s, id) <= 3
  {
  }

  /** From every reachable state some committed deliveries of what is published lead
      to a state in which every order is terminal: nothing can get stuck. */
  lemma {:induction false} CanFinish(s: State, initial: map<Sku, int>) returns (steps: seq<Step>)
    requires Invariant(s, initial)
    ensures forall step | step in steps :: step.Deliver? && step.commits
    ensures var last := Run(s, steps);
            last.orders.Keys == s.orders.Keys && forall id | id in last.orders :: Terminal(PhaseOf(last, id))
    decreases Left(s)
  {
    hide Invariant, Left, About, Told, Handle;
    HandledIffTerminal(s, initial);
    if forall m | m in s.published :: Handle(s, m) == s {
      steps := [];
    } else {
      var i :| 0 <= i < |s.published| && Handle(s, s.published[i]) != s;
      var m, step := s.published[i], Deliver(i, true);
      MessageIsTold(s, initial, m);
      if !Awaits(s, m) {
        StaleIsIgnored(s, initial, m);
      }
      DeliveryLeavesLess(s, initial, m);
      HandlePreserves(s, initial, m);
      var rest := CanFinish(Handle(s, m), initial);
      steps := [step] + rest;
      assert Next(s, step) == Handle(s, m);
      assert steps[1..] == rest;
    }
  }
}
