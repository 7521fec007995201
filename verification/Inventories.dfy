/** Stock reservation and release: what one delivery does to the tables, what every
    sequence of deliveries conserves, and what a redelivery really does. */
module Inventories {
  import opened Keys
  import opened Sums

  datatype OrderId = OrderId(text: string)
  datatype Sku = Sku(text: string)
  datatype RowId = RowId(text: string)

  /** The single-column primary key of a reservation. */
  function IdOf(order: OrderId, sku: Sku): RowId {
    RowId(KeyFor(order.text, sku.text))
  }

  datatype RowStatus = RESERVED | RELEASED

  datatype Row = Row(order: OrderId, sku: Sku, quantity: int, status: RowStatus)

  datatype Item = Item(sku: Sku, quantity: int)

  datatype Message = StockReserved(order: OrderId) | StockReservationFailed(order: OrderId, sku: Sku)

  datatype State = State(products: map<Sku, int>, rows: map<RowId, Row>, published: seq<Message>)

  predicate InStock(s: State, item: Item) {
    item.sku in s.products && s.products[item.sku] >= item.quantity
  }

  /** One line in stock: taken and recorded, unless a row of that key exists. */
  function ReserveLine(s: State, order: OrderId, item: Item): State
    requires InStock(s, item)
  {
    if IdOf(order, item.sku) in s.rows then s
    else s.(products := s.products[item.sku := s.products[item.sku] - item.quantity],
            rows := s.rows[IdOf(order, item.sku) := Row(order, item.sku, item.quantity, RESERVED)])
  }

  datatype Tried = Reserved(state: State) | OutOfStock(sku: Sku)

  function ReserveLines(s: State, order: OrderId, items: seq<Item>): Tried
    decreases |items|
  {
    if items == [] then Reserved(s)
    else if InStock(s, items[0]) then ReserveLines(ReserveLine(s, order, items[0]), order, items[1..])
    else OutOfStock(items[0].sku)
  }

  /** One delivery: every line, or none and a failure message. */
  function Reserve(s: State, order: OrderId, items: seq<Item>): State {
    match ReserveLines(s, order, items)
    case Reserved(s') => s'.(published := s'.published + [StockReserved(order)])
    case OutOfStock(sku) => s.(published := s.published + [StockReservationFailed(order, sku)])
  }

  // Release.

  predicate IsOwed(r: Row, order: OrderId) {
    r.order == order && r.status.RESERVED?
  }

  function Weight(r: Row, sku: Sku): int {
    if r.sku == sku && r.status.RESERVED? then r.quantity else 0
  }

  function Weighs(sku: Sku): Row -> int {
    r => Weight(r, sku)
  }

  function WeighsFor(order: OrderId, sku: Sku): Row -> int {
    (r: Row) => if r.order == order then Weight(r, sku) else 0
  }

  /** The quantity of `sku` in rows still reserved. */
  ghost function Total(rows: map<RowId, Row>, sku: Sku): int {
    Sum(rows, Weighs(sku))
  }

  /** The part of it that belongs to `order`. */
  ghost function Owed(rows: map<RowId, Row>, order: OrderId, sku: Sku): int {
    Sum(rows, WeighsFor(order, sku))
  }

  function ReleasedRows(rows: map<RowId, Row>, order: OrderId): map<RowId, Row> {
    map id | id in rows :: if IsOwed(rows[id], order) then rows[id].(status := RELEASED) else rows[id]
  }

  ghost function Release(s: State, order: OrderId): State {
    s.(products := map sku | sku in s.products :: s.products[sku] + Owed(s.rows, order, sku),
       rows := ReleasedRows(s.rows, order))
  }

  // Conservation.

  ghost predicate Sound(s: State) {
    forall id | id in s.rows :: s.rows[id].sku in s.products
  }

  /** Of each sku, what is available and what is still reserved are together the same. */
  ghost predicate Conserves(s: State, s': State) {
    && s'.products.Keys == s.products.Keys
    && forall sku | sku in s.products :: s'.products[sku] + Total(s'.rows, sku) == s.products[sku] + Total(s.rows, sku)
  }

  lemma {:induction false} LineConserves(s: State, order: OrderId, item: Item)
    requires Sound(s) && InStock(s, item)
    ensures Sound(ReserveLine(s, order, item)) && Conserves(s, ReserveLine(s, order, item))
  {
    hide IdOf;
    var id, row := IdOf(order, item.sku), Row(order, item.sku, item.quantity, RESERVED);
    if id !in s.rows {
      forall sku | sku in s.products
        ensures ReserveLine(s, order, item).products[sku] + Total(s.rows[id := row], sku)
                == s.products[sku] + Total(s.rows, sku)
      {
        SumSet(s.rows, id, row, Weighs(sku));
      }
    }
  }

  lemma {:induction false} LinesConserve(s: State, order: OrderId, items: seq<Item>)
    requires Sound(s)
    ensures var t := ReserveLines(s, order, items);
            t.Reserved? ==> Sound(t.state) && Conserves(s, t.state) && t.state.published == s.published
    decreases |items|
  {
    hide ReserveLine, Total;
    if items != [] && InStock(s, items[0]) {
      LineConserves(s, order, items[0]);
      LinesConserve(ReserveLine(s, order, items[0]), order, items[1..]);
      LinePublishesNothing(s, order, items[0]);
    }
  }

  lemma LinePublishesNothing(s: State, order: OrderId, item: Item)
    requires InStock(s, item)
    ensures ReserveLine(s, order, item).published == s.published
  {
  }

  lemma {:induction false} ReleaseConserves(s: State, order: OrderId)
    requires Sound(s)
    ensures Sound(Release(s, order)) && Conserves(s, Release(s, order))
  {
    forall sku | sku in s.products
      ensures Total(ReleasedRows(s.rows, order), sku) == Total(s.rows, sku) - Owed(s.rows, order, sku)
    {
      SumDifference(s.rows, ReleasedRows(s.rows, order), Weighs(sku), WeighsFor(order, sku));
    }
  }

  /** A delivery, which may abort before any of its transactions commits. */
  datatype Step = OrderPlaced(order: OrderId, items: seq<Item>) | PaymentFailed(order: OrderId) | Aborted

  ghost function Next(s: State, step: Step): State {
    match step
    case OrderPlaced(order, items) => Reserve(s, order, items)
    case PaymentFailed(order) => Release(s, order)
    case Aborted => s
  }

  ghost function Run(s: State, steps: seq<Step>): State
    decreases |steps|
  {
    if steps == [] then s else Run(Next(s, steps[0]), steps[1..])
  }

  lemma {:induction false} NextConserves(s: State, step: Step)
    requires Sound(s)
    ensures Sound(Next(s, step)) && Conserves(s, Next(s, step))
  {
    hide ReserveLines, Release, Total;
    match step
    case OrderPlaced(order, items) => LinesConserve(s, order, items);
    case PaymentFailed(order) => ReleaseConserves(s, order);
    case Aborted =>
  }

  /** Every sequence of reserve and release deliveries, repeats and all, conserves stock. */
  lemma {:induction false} EveryRunConserves(s: State, steps: seq<Step>)
    requires Sound(s)
    ensures Sound(Run(s, steps)) && Conserves(s, Run(s, steps))
    decreases |steps|
  {
    hide Next, Total;
    if steps != [] {
      NextConserves(s, steps[0]);
      EveryRunConserves(Next(s, steps[0]), steps[1..]);
    }
  }

  // A first delivery.

  predicate DistinctSkus(items: seq<Item>) {
    items == [] ||
    ((forall i | 0 < i < |items| :: items[i].sku != items[0].sku) && DistinctSkus(items[1..]))
  }

  /** No row has a key of these lines, neither of this order nor, by collision, of another. */
  predicate Unrecorded(s: State, order: OrderId, items: seq<Item>) {
    forall i | 0 <= i < |items| :: IdOf(order, items[i].sku) !in s.rows
  }

  /** The quantity of the line is available. */
  predicate Covers(stock: map<Sku, int>, item: Item) {
    item.sku in stock && item.quantity <= stock[item.sku]
  }

  predicate AllInStock(s: State, items: seq<Item>) {
    forall i | 0 <= i < |items| :: Covers(s.products, items[i])
  }

  /** Line `k` is the first that is not in stock. */
  predicate FirstMissing(s: State, items: seq<Item>, k: nat) {
    k < |items| && !Covers(s.products, items[k]) && forall j | 0 <= j < k :: Covers(s.products, items[j])
  }

  /** `sku` is that of the first line not in stock. */
  ghost predicate NamesFirstMissing(s: State, items: seq<Item>, sku: Sku) {
    exists k: nat :: FirstMissing(s, items, k) && sku == items[k].sku
  }

  function Wanted(items: seq<Item>, sku: Sku): int {
    if items == [] then 0 else (if items[0].sku == sku then items[0].quantity else 0) + Wanted(items[1..], sku)
  }

  predicate IsLine(id: RowId, order: OrderId, items: seq<Item>) {
    exists i :: 0 <= i < |items| && id == IdOf(order, items[i].sku)
  }

  /** Each line has its row, no other row has changed, and the stock is down by the lines. */
  ghost predicate Booked(s: State, s': State, order: OrderId, items: seq<Item>) {
    && (forall i | 0 <= i < |items| ::
          var id := IdOf(order, items[i].sku);
          id in s'.rows && s'.rows[id] == Row(order, items[i].sku, items[i].quantity, RESERVED))
    && (forall id | id in s.rows :: id in s'.rows && s'.rows[id] == s.rows[id])
    && (forall id | id in s'.rows :: id in s.rows || IsLine(id, order, items))
    && s'.products.Keys == s.products.Keys
    && (forall sku | sku in s.products :: s'.products[sku] == s.products[sku] - Wanted(items, sku))
  }

  lemma SameOrderIds(order: OrderId, a: Sku, b: Sku)
    ensures IdOf(order, a) == IdOf(order, b) <==> a == b
  {
    var x, y := KeyFor(order.text, a.text), KeyFor(order.text, b.text);
    assert x[|order.text| + 1..] == a.text && y[|order.text| + 1..] == b.text;
  }

  lemma {:induction false} FirstLine(s: State, order: OrderId, items: seq<Item>)
    requires items != [] && DistinctSkus(items) && Unrecorded(s, order, items) && InStock(s, items[0])
    ensures var s1 := ReserveLine(s, order, items[0]);
            && Unrecorded(s1, order, items[1..])
            && (AllInStock(s, items) <==> AllInStock(s1, items[1..]))
            && forall i | 0 <= i < |items| - 1 ::
                 Covers(s.products, items[i + 1]) <==> Covers(s1.products, items[1..][i])
  {
    hide IdOf;
    var s1 := ReserveLine(s, order, items[0]);
    forall i | 0 <= i < |items| - 1
      ensures IdOf(order, items[1..][i].sku) !in s1.rows
      ensures Covers(s.products, items[i + 1]) <==> Covers(s1.products, items[1..][i])
    {
      SameOrderIds(order, items[i + 1].sku, items[0].sku);
    }
    if AllInStock(s1, items[1..]) {
      forall i | 0 <= i < |items| ensures Covers(s.products, items[i]) {
        if i > 0 {
          assert Covers(s1.products, items[1..][i - 1]);
        }
      }
    }
  }

  lemma {:induction false} BookedFirst(s: State, s': State, order: OrderId, items: seq<Item>)
    requires items != [] && Unrecorded(s, order, items) && InStock(s, items[0])
    requires Booked(ReserveLine(s, order, items[0]), s', order, items[1..])
    ensures Booked(s, s', order, items)
  {
    hide IdOf;
    var s1 := ReserveLine(s, order, items[0]);
    forall i | 0 <= i < |items|
      ensures var id := IdOf(order, items[i].sku);
              id in s'.rows && s'.rows[id] == Row(order, items[i].sku, items[i].quantity, RESERVED)
    {
      if i > 0 {
        assert items[1..][i - 1] == items[i];
      } else {
        assert IdOf(order, items[0].sku) in s1.rows;
      }
    }
    forall id | id in s'.rows ensures id in s.rows || IsLine(id, order, items) {
      if id !in s1.rows {
        var i :| 0 <= i < |items[1..]| && id == IdOf(order, items[1..][i].sku);
        assert items[i + 1] == items[1..][i];
      } else if id !in s.rows {
        assert id == IdOf(order, items[0].sku);
      }
    }
  }

  /** The lines go through exactly when each of them is in stock, and then all are booked. */
  lemma {:induction false} FirstLines(s: State, order: OrderId, items: seq<Item>)
    requires DistinctSkus(items) && Unrecorded(s, order, items)
    ensures var t := ReserveLines(s, order, items);
            && (t.Reserved? <==> AllInStock(s, items))
            && (t.Reserved? ==> Booked(s, t.state, order, items) && t.state.published == s.published)
            && (t.OutOfStock? ==> NamesFirstMissing(s, items, t.sku))
    decreases |items|
  {
    hide Booked, Unrecorded, AllInStock, ReserveLine, NamesFirstMissing;
    if items == [] {
      BookedNothing(s, order);
    } else if InStock(s, items[0]) {
      FirstLine(s, order, items);
      LinePublishesNothing(s, order, items[0]);
      FirstLines(ReserveLine(s, order, items[0]), order, items[1..]);
      var t := ReserveLines(s, order, items);
      if t.Reserved? {
        BookedFirst(s, t.state, order, items);
      } else {
        MissingLater(s, ReserveLine(s, order, items[0]), items, t.sku);
      }
    } else {
      OneOut(s, items);
    }
  }

  /** With the first line in stock the first that is not lies behind it. */
  lemma {:induction false} MissingLater(s: State, s1: State, items: seq<Item>, sku: Sku)
    requires items != [] && Covers(s.products, items[0]) && NamesFirstMissing(s1, items[1..], sku)
    requires forall i | 0 <= i < |items| - 1 ::
               Covers(s.products, items[i + 1]) <==> Covers(s1.products, items[1..][i])
    ensures NamesFirstMissing(s, items, sku)
  {
    hide Covers;
    var k: nat :| FirstMissing(s1, items[1..], k) && sku == items[1..][k].sku;
    forall j | 0 <= j < k + 1 ensures Covers(s.products, items[j]) {
      if j > 0 {
        assert Covers(s1.products, items[1..][j - 1]);
      }
    }
    assert items[1..][k] == items[k + 1] && FirstMissing(s, items, k + 1);
  }

  lemma BookedNothing(s: State, order: OrderId)
    ensures Booked(s, s, order, []) && AllInStock(s, [])
  {
  }

  lemma OneOut(s: State, items: seq<Item>)
    requires items != [] && !InStock(s, items[0])
    ensures !AllInStock(s, items) && NamesFirstMissing(s, items, items[0].sku)
  {
    assert FirstMissing(s, items, 0);
  }

  /** A first delivery with distinct skus leaves all its rows and one StockReserved
      message, or only a failure message that names the first line not in stock. */
  lemma {:induction false} FirstDeliveryIsAllOrNothing(s: State, order: OrderId, items: seq<Item>)
    requires DistinctSkus(items) && Unrecorded(s, order, items)
    ensures var s' := Reserve(s, order, items);
            if AllInStock(s, items)
            then Booked(s, s', order, items) && s'.published == s.published + [StockReserved(order)]
            else s'.products == s.products && s'.rows == s.rows
                 && exists k: nat :: FirstMissing(s, items, k)
                                && s'.published == s.published + [StockReservationFailed(order, items[k].sku)]
  {
    hide ReserveLines, AllInStock;
    FirstLines(s, order, items);
    var t := ReserveLines(s, order, items);
    if t.OutOfStock? {
      var k: nat :| FirstMissing(s, items, k) && t.sku == items[k].sku;
      assert Reserve(s, order, items).published == s.published + [StockReservationFailed(order, items[k].sku)];
    }
  }

  /** With a sku on two lines the second is skipped, and still StockReserved is told. */
  lemma RepeatedSkuIsReservedOnce(order: OrderId, sku: Sku)
    ensures var s' := Reserve(State(map[sku := 10], map[], []), order, [Item(sku, 2), Item(sku, 3)]);
            s'.products == map[sku := 8] && s'.published == [StockReserved(order)]
  {
    hide IdOf;
    var items := [Item(sku, 2), Item(sku, 3)];
    var s := State(map[sku := 10], map[], []);
    var s1 := ReserveLine(s, order, items[0]);
    assert s1.products == map[sku := 8];
    assert items[1..] == [Item(sku, 3)] && [Item(sku, 3)][1..] == [];
    assert ReserveLines(s1, order, [Item(sku, 3)]) == ReserveLines(s1, order, []);
    assert ReserveLines(s, order, items) == Reserved(s1);
    assert [] + [StockReserved(order)] == [StockReserved(order)];
  }

  // A redelivery.

  predicate AllRecorded(s: State, order: OrderId, items: seq<Item>) {
    forall i | 0 <= i < |items| :: IdOf(order, items[i].sku) in s.rows
  }

  lemma {:induction false} RecordedLines(s: State, order: OrderId, items: seq<Item>)
    requires AllRecorded(s, order, items)
    ensures var t := ReserveLines(s, order, items);
            && (t.Reserved? <==> AllInStock(s, items)) && (t.Reserved? ==> t.state == s)
            && (t.OutOfStock? ==> NamesFirstMissing(s, items, t.sku))
    decreases |items|
  {
    hide IdOf, NamesFirstMissing;
    if items != [] && !InStock(s, items[0]) {
      OneOut(s, items);
    }
    if items != [] && InStock(s, items[0]) {
      assert IdOf(order, items[0].sku) in s.rows;
      RecordedLines(s, order, items[1..]);
      var t := ReserveLines(s, order, items);
      if t.OutOfStock? {
        MissingLater(s, s, items, t.sku);
      }
      if AllInStock(s, items[1..]) {
        forall i | 0 <= i < |items| ensures Covers(s.products, items[i]) {
          if i > 0 {
            assert items[i] == items[1..][i - 1];
          }
        }
      }
    }
  }

  /** A reservation that went through has a row for every line, and rows are never deleted. */
  lemma {:induction false} SuccessRecordsAll(s: State, order: OrderId, items: seq<Item>)
    requires ReserveLines(s, order, items).Reserved?
    ensures var s' := ReserveLines(s, order, items).state;
            AllRecorded(s', order, items) && s.rows.Keys <= s'.rows.Keys
    decreases |items|
  {
    hide IdOf;
    if items != [] {
      SuccessRecordsAll(ReserveLine(s, order, items[0]), order, items[1..]);
      var s' := ReserveLines(s, order, items).state;
      assert IdOf(order, items[0].sku) in s'.rows;
      forall i | 0 < i < |items| ensures IdOf(order, items[i].sku) in s'.rows {
        assert items[i] == items[1..][i - 1];
      }
    }
  }

  lemma {:induction false} RowsStay(s: State, steps: seq<Step>)
    ensures s.rows.Keys <= Run(s, steps).rows.Keys
    decreases |steps|
  {
    if steps != [] {
      var step := steps[0];
      if step.OrderPlaced? && ReserveLines(s, step.order, step.items).Reserved? {
        SuccessRecordsAll(s, step.order, step.items);
      }
      assert s.rows.Keys <= Next(s, step).rows.Keys;
      RowsStay(Next(s, step), steps[1..]);
    }
  }

  /** After a successful delivery, and whatever was delivered since, a redelivery
      leaves rows and stock as they are; but it tells StockReserved again exactly
      when every line could be taken once more, and otherwise a failure that names the
      first line that could not. */
  lemma {:induction false} RedeliveryAnswersByStock(s: State, order: OrderId, items: seq<Item>, steps: seq<Step>)
    requires ReserveLines(s, order, items).Reserved?
    ensures var now := Run(Reserve(s, order, items), steps);
            var s' := Reserve(now, order, items);
            && s'.products == now.products && s'.rows == now.rows
            && |s'.published| == |now.published| + 1
            && s'.published[..|now.published|] == now.published
            && (s'.published[|now.published|] == StockReserved(order) <==> AllInStock(now, items))
            && (!AllInStock(now, items) ==>
                  exists k: nat :: FirstMissing(now, items, k)
                              && s'.published[|now.published|] == StockReservationFailed(order, items[k].sku))
  {
    hide AllInStock, ReserveLines, IdOf, FirstMissing;
    var s1 := Reserve(s, order, items);
    var now := Run(s1, steps);
    SuccessRecordsAll(s, order, items);
    RowsStay(s1, steps);
    assert forall i | 0 <= i < |items| :: IdOf(order, items[i].sku) in s1.rows;
    RecordedLines(now, order, items);
  }

  /** So the order that took the last unit is told, on redelivery, that it failed. */
  lemma LastUnitIsDenied(order: OrderId, sku: Sku)
    ensures var s, items := State(map[sku := 1], map[], []), [Item(sku, 1)];
            var s' := Reserve(Reserve(s, order, items), order, items);
            && s'.rows == map[IdOf(order, sku) := Row(order, sku, 1, RESERVED)]
            && s'.published == [StockReserved(order), StockReservationFailed(order, sku)]
  {
    hide IdOf;
    var s, items := State(map[sku := 1], map[], []), [Item(sku, 1)];
    assert items[1..] == [];
    var s1 := ReserveLine(s, order, items[0]);
    assert ReserveLines(s, order, items) == ReserveLines(s1, order, []);
    var s2 := Reserve(s, order, items);
    assert s2.published == [] + [StockReserved(order)] == [StockReserved(order)];
    assert s2.products == map[sku := 0] && !InStock(s2, items[0]);
  }

  // A delivery after one that failed.

  /** A step that reserves no line with a key of these lines. */
  predicate Spares(step: Step, order: OrderId, items: seq<Item>) {
    step.OrderPlaced? ==>
      forall i, j | 0 <= i < |items| && 0 <= j < |step.items| ::
        IdOf(order, items[i].sku) != IdOf(step.order, step.items[j].sku)
  }

  /** The rows a delivery adds have the keys of its lines. */
  lemma {:induction false} OnlyLinesAreAdded(s: State, order: OrderId, items: seq<Item>, id: RowId)
    requires ReserveLines(s, order, items).Reserved?
    requires id !in s.rows && forall j | 0 <= j < |items| :: id != IdOf(order, items[j].sku)
    ensures id !in ReserveLines(s, order, items).state.rows
    decreases |items|
  {
    hide IdOf;
    if items != [] {
      assert id != IdOf(order, items[0].sku);
      forall j | 0 <= j < |items| - 1 ensures id != IdOf(order, items[1..][j].sku) {
        assert items[1..][j] == items[j + 1];
      }
      OnlyLinesAreAdded(ReserveLine(s, order, items[0]), order, items[1..], id);
    }
  }

  lemma {:induction false} UnrecordedStays(s: State, order: OrderId, items: seq<Item>, step: Step)
    requires Unrecorded(s, order, items) && Spares(step, order, items)
    ensures Unrecorded(Next(s, step), order, items)
  {
    hide IdOf;
    if step.OrderPlaced? && ReserveLines(s, step.order, step.items).Reserved? {
      forall i | 0 <= i < |items| ensures IdOf(order, items[i].sku) !in Next(s, step).rows {
        OnlyLinesAreAdded(s, step.order, step.items, IdOf(order, items[i].sku));
      }
    }
  }

  lemma {:induction false} NextPublishes(s: State, step: Step)
    ensures s.published <= Next(s, step).published
  {
    if step.OrderPlaced? {
      LinesPublishNothing(s, step.order, step.items);
    }
  }

  lemma {:induction false} LinesPublishNothing(s: State, order: OrderId, items: seq<Item>)
    ensures var t := ReserveLines(s, order, items); t.Reserved? ==> t.state.published == s.published
    decreases |items|
  {
    if items != [] && InStock(s, items[0]) {
      LinesPublishNothing(ReserveLine(s, order, items[0]), order, items[1..]);
    }
  }

  lemma {:induction false} SparedRun(s: State, order: OrderId, items: seq<Item>, steps: seq<Step>)
    requires Unrecorded(s, order, items) && forall step | step in steps :: Spares(step, order, items)
    ensures Unrecorded(Run(s, steps), order, items) && s.published <= Run(s, steps).published
    decreases |steps|
  {
    hide Unrecorded, Spares, Next;
    if steps != [] {
      UnrecordedStays(s, order, items, steps[0]);
      NextPublishes(s, steps[0]);
      SparedRun(Next(s, steps[0]), order, items, steps[1..]);
    }
  }

  /** After a delivery that failed, and whatever other lines were reserved or released
      since, a redelivery is a first delivery: it books every line and tells
      StockReserved exactly when each is in stock by now. The order is then told both. */
  lemma {:induction false} FailureIsNotFinal(s: State, order: OrderId, items: seq<Item>, steps: seq<Step>)
    requires DistinctSkus(items) && Unrecorded(s, order, items) && !AllInStock(s, items)
    requires forall step | step in steps :: Spares(step, order, items)
    ensures var now := Run(Reserve(s, order, items), steps);
            var s' := Reserve(now, order, items);
            && |s.published| < |now.published| < |s'.published|
            && (exists k: nat :: FirstMissing(s, items, k)
                            && s'.published[|s.published|] == StockReservationFailed(order, items[k].sku))
            && (s'.published[|now.published|] == StockReserved(order) <==> AllInStock(now, items))
            && (if AllInStock(now, items) then Booked(now, s', order, items)
                else s'.products == now.products && s'.rows == now.rows
                     && exists k: nat :: FirstMissing(now, items, k)
                                    && s'.published[|now.published|] == StockReservationFailed(order, items[k].sku))
  {
    hide FirstMissing, ReserveLines, AllInStock, Unrecorded, Spares, Booked, Next;
    var s1 := Reserve(s, order, items);
    FirstDeliveryIsAllOrNothing(s, order, items);
    UnrecordedByRows(s, s1, order, items);
    SparedRun(s1, order, items, steps);
    var now := Run(s1, steps);
    FirstDeliveryIsAllOrNothing(now, order, items);
  }

  lemma UnrecordedByRows(s: State, s': State, order: OrderId, items: seq<Item>)
    requires Unrecorded(s, order, items) && s'.rows == s.rows
    ensures Unrecorded(s', order, items)
  {
  }

  /** The order that found the last unit taken is denied, and served after a release. */
  lemma {:induction false} DeniedThenServed(taker: OrderId, order: OrderId, sku: Sku)
    requires IdOf(taker, sku) != IdOf(order, sku)
    ensures var items := [Item(sku, 1)];
            var steps := [OrderPlaced(taker, items), OrderPlaced(order, items), PaymentFailed(taker),
                          OrderPlaced(order, items)];
            Run(State(map[sku := 1], map[], []), steps).published
            == [StockReserved(taker), StockReservationFailed(order, sku), StockReserved(order)]
  {
    hide IdOf;
    var s, items := State(map[sku := 1], map[], []), [Item(sku, 1)];
    var row := Row(taker, sku, 1, RESERVED);
    OneLine(s, taker, items[0]);
    var s1 := Reserve(s, taker, items);
    assert s1 == State(map[sku := 0], map[IdOf(taker, sku) := row], [StockReserved(taker)]);
    OneLine(s1, order, items[0]);
    var s2 := Reserve(s1, order, items);
    assert s2.published == [StockReserved(taker), StockReservationFailed(order, sku)];
    OnlyRowOwed(s2, taker, sku, row);
    var s3 := Release(s2, taker);
    assert s3.products == map[sku := 1] && s3.rows.Keys == {IdOf(taker, sku)};
    OneLine(s3, order, items[0]);
    RunFour(s, OrderPlaced(taker, items), OrderPlaced(order, items), PaymentFailed(taker), OrderPlaced(order, items));
  }

  lemma OneLine(s: State, order: OrderId, item: Item)
    ensures Reserve(s, order, [item]) ==
            if InStock(s, item)
            then var s' := ReserveLine(s, order, item); s'.(published := s'.published + [StockReserved(order)])
            else s.(published := s.published + [StockReservationFailed(order, item.sku)])
  {
    hide IdOf;
    assert [item][1..] == [];
    if InStock(s, item) {
      assert ReserveLines(ReserveLine(s, order, item), order, []) == Reserved(ReserveLine(s, order, item));
    }
  }

  lemma OnlyRowOwed(s: State, order: OrderId, sku: Sku, row: Row)
    requires s.rows == map[IdOf(order, sku) := row] && row == Row(order, sku, 1, RESERVED)
             && s.products == map[sku := 0]
    ensures Release(s, order).products == map[sku := 1] && Release(s, order).rows.Keys == s.rows.Keys
    ensures Release(s, order).published == s.published
  {
    hide IdOf;
    var none: map<RowId, Row> := map[];
    assert s.rows == none[IdOf(order, sku) := row];
    SumSet(none, IdOf(order, sku), row, WeighsFor(order, sku));
  }

  lemma RunFour(s: State, a: Step, b: Step, c: Step, d: Step)
    ensures Run(s, [a, b, c, d]) == Next(Next(Next(Next(s, a), b), c), d)
  {
    hide Next;
    var s1 := Next(s, a);
    var s2 := Next(s1, b);
    var s3 := Next(s2, c);
    assert [d][1..] == [] && [c, d][1..] == [d] && [b, c, d][1..] == [c, d] && [a, b, c, d][1..] == [b, c, d];
    assert Run(s3, [d]) == Run(Next(s3, d), []);
    assert Run(s2, [c, d]) == Run(s3, [d]);
    assert Run(s1, [b, c, d]) == Run(s2, [c, d]);
  }

  // Release.

  /** A release can be repeated. */
  lemma {:induction false} ReleaseIsIdempotent(s: State, order: OrderId)
    ensures Release(Release(s, order), order) == Release(s, order)
  {
    var s' := Release(s, order);
    assert ReleasedRows(s'.rows, order) == s'.rows;
    forall sku | sku in s.products ensures Owed(s'.rows, order, sku) == 0 {
      NothingOwed(s'.rows, order, sku);
    }
    assert Release(s', order).products == s'.products;
  }

  lemma {:induction false} NothingOwed(rows: map<RowId, Row>, order: OrderId, sku: Sku)
    requires forall id | id in rows :: !IsOwed(rows[id], order)
    ensures Owed(rows, order, sku) == 0
  {
    SumExtended(map[], rows, WeighsFor(order, sku));
  }

  /** Rows that are new and of the released order weigh nothing afterwards. */
  lemma {:induction false} NewRowsWeighNothing(rows: map<RowId, Row>, rows': map<RowId, Row>, order: OrderId, sku: Sku)
    requires forall id | id in rows :: id in rows' && rows'[id] == rows[id] && rows[id].order != order
    requires forall id | id in rows' && id !in rows :: IsOwed(rows'[id], order)
    ensures Total(ReleasedRows(rows', order), sku) == Total(rows, sku)
  {
    SumExtended(rows, ReleasedRows(rows', order), Weighs(sku));
  }

  /** Releasing undoes reserving: after a first delivery of an order, its release
      gives back exactly the stock there was. */
  lemma {:induction false} ReleaseUndoesReserve(s: State, order: OrderId, items: seq<Item>)
    requires Sound(s) && DistinctSkus(items) && Unrecorded(s, order, items)
    requires forall id | id in s.rows :: s.rows[id].order != order
    ensures Release(Reserve(s, order, items), order).products == s.products
  {
    hide ReserveLines, Reserve, AllInStock, Unrecorded, Total, Owed;
    var s1 := Reserve(s, order, items);
    var s2 := Release(s1, order);
    FirstDeliveryIsAllOrNothing(s, order, items);
    NextConserves(s, OrderPlaced(order, items));
    NextConserves(s1, PaymentFailed(order));
    forall id | id in s1.rows && id !in s.rows ensures IsOwed(s1.rows[id], order) {
      assert IsLine(id, order, items);
    }
    forall sku | sku in s.products ensures s2.products[sku] == s.products[sku] {
      NewRowsWeighNothing(s.rows, s1.rows, order, sku);
    }
  }
}
