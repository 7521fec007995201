/** The inventory handlers, loops and all, over the tables they share. */
module InventoryHandlers {
  import opened Sums
  import opened Inventories

  class Tables {
    var products: map<Sku, int>
    var rows: map<RowId, Row>
    var published: seq<Message>
    /** The states COMMIT has made durable, one after the other. */
    ghost var commits: seq<State>

    constructor (s: State)
      ensures S() == s && commits == []
    {
      products, rows, published, commits := s.products, s.rows, s.published, [];
    }

    function S(): State
      reads this
    {
      State(products, rows, published)
    }

    /** UPDATE ... SET available = available - q WHERE sku = s AND available >= q. */
    method Decrement(sku: Sku, quantity: int) returns (affected: nat)
      modifies this`products
      ensures affected == if InStock(old(S()), Item(sku, quantity)) then 1 else 0
      ensures products == if affected == 1 then old(products)[sku := old(products)[sku] - quantity] else old(products)
    {
      affected := 0;
      if sku in products && products[sku] >= quantity {
        products, affected := products[sku := products[sku] - quantity], 1;
      }
    }

    method Increment(sku: Sku, quantity: int)
      modifies this`products
      ensures products == if sku in old(products)
                          then old(products)[sku := old(products)[sku] + quantity] else old(products)
    {
      if sku in products {
        products := products[sku := products[sku] + quantity];
      }
    }

    /** An INSERT: false is a unique violation. */
    method Insert(id: RowId, row: Row) returns (inserted: bool)
      modifies this`rows
      ensures inserted == (id !in old(rows))
      ensures rows == if inserted then old(rows)[id := row] else old(rows)
    {
      inserted := id !in rows;
      if inserted {
        rows := rows[id := row];
      }
    }

    /** UPDATE ... SET status = 'released' WHERE id = i AND status = 'reserved'. */
    method MarkReleased(id: RowId) returns (affected: nat)
      modifies this`rows
      ensures affected == if id in old(rows) && old(rows)[id].status.RESERVED? then 1 else 0
      ensures rows == if affected == 1 then old(rows)[id := old(rows)[id].(status := RELEASED)] else old(rows)
    {
      affected := 0;
      if id in rows && rows[id].status.RESERVED? {
        rows, affected := rows[id := rows[id].(status := RELEASED)], 1;
      }
    }

    method Publish(m: Message)
      modifies this`published
      ensures published == old(published) + [m]
    {
      published := published + [m];
    }

    method Commit()
      modifies this`commits
      ensures commits == old(commits) + [S()]
    {
      commits := commits + [S()];
    }

    /** ROLLBACK. */
    method Restore(s: State)
      modifies this`products, this`rows, this`published
      ensures S() == s
    {
      products, rows, published := s.products, s.rows, s.published;
    }
  }

  /** Thrown, or not, by the reservation transaction; a COMMIT that fails throws
      another error. */
  datatype Outcome = Completed | OutOfStockError(sku: Sku) | OtherError

  class ReserveStockHandler {
    const tables: Tables

    constructor (tables: Tables)
      ensures this.tables == tables
    {
      this.tables := tables;
    }

    /** One delivery: the reservation, or, after its rollback, the failure message in
        a transaction of its own. One transaction commits, or none; then the relay
        delivers again. */
    method HandleOrderPlaced(order: OrderId, items: seq<Item>, reserveCommits: bool, failureCommits: bool)
      returns (handled: bool)
      modifies tables
      ensures handled == if ReserveLines(old(tables.S()), order, items).Reserved?
                         then reserveCommits else failureCommits
      ensures tables.S() == if handled then Reserve(old(tables.S()), order, items) else old(tables.S())
      ensures tables.commits == old(tables.commits) + if handled then [tables.S()] else []
    {
      var outcome := TryReserve(order, items, reserveCommits);
      handled := outcome.Completed?;
      if outcome.OutOfStockError? {
        handled := PublishFailure(order, outcome.sku, failureCommits);
      }
    }

    /** The second transaction: nothing but the failure message. */
    method PublishFailure(order: OrderId, sku: Sku, commits: bool) returns (committed: bool)
      modifies tables
      ensures committed == commits
      ensures tables.products == old(tables.products) && tables.rows == old(tables.rows)
      ensures tables.published == old(tables.published) + if commits then [StockReservationFailed(order, sku)] else []
      ensures tables.commits == old(tables.commits) + if commits then [tables.S()] else []
    {
      var before := tables.S();
      tables.Publish(StockReservationFailed(order, sku));
      committed := EndTransaction(before, commits);
    }

    method EndTransaction(before: State, commits: bool) returns (committed: bool)
      modifies tables
      ensures committed == commits && tables.S() == if commits then old(tables.S()) else before
      ensures tables.commits == old(tables.commits) + if commits then [tables.S()] else []
    {
      committed := commits;
      if commits {
        tables.Commit();
      } else {
        tables.Restore(before);
      }
    }

    /** The reservation transaction; an error rolls everything back. */
    method TryReserve(order: OrderId, items: seq<Item>, commits: bool) returns (outcome: Outcome)
      modifies tables
      ensures match ReserveLines(old(tables.S()), order, items)
              case OutOfStock(sku) => outcome == OutOfStockError(sku)
              case Reserved(s') => outcome == if commits then Completed else OtherError
      ensures tables.S() == if outcome.Completed? then Reserve(old(tables.S()), order, items) else old(tables.S())
      ensures tables.commits == old(tables.commits) + if outcome.Completed? then [tables.S()] else []
    {
      hide ReserveLine, Total;
      var before := tables.S();
      var i := 0;
      assert items[0..] == items;
      while i < |items|
        invariant 0 <= i <= |items|
        invariant ReserveLines(before, order, items) == ReserveLines(tables.S(), order, items[i..])
        invariant Sound(before) ==> Sound(tables.S()) && Conserves(before, tables.S())
        invariant tables.commits == old(tables.commits)
      {
        assert items[i..][0] == items[i] && items[i..][1..] == items[i + 1..];
        ghost var s := tables.S();
        var affected := TakeLine(order, items[i]);
        if affected == 0 {
          tables.Restore(before);
          return OutOfStockError(items[i].sku);
        }
        if Sound(before) {
          LineConserves(s, order, items[i]);
        }
        i := i + 1;
      }
      tables.Publish(StockReserved(order));
      var committed := EndTransaction(before, commits);
      outcome := if committed then Completed else OtherError;
    }

    /** One line: the stock is taken first, and put back when the row exists. */
    method TakeLine(order: OrderId, item: Item) returns (affected: nat)
      modifies tables`products, tables`rows
      ensures affected == if InStock(old(tables.S()), item) then 1 else 0
      ensures tables.S() == if affected == 1 then ReserveLine(old(tables.S()), order, item) else old(tables.S())
    {
      hide IdOf;
      ghost var s := tables.S();
      affected := tables.Decrement(item.sku, item.quantity);
      if affected == 0 {
        return;
      }
      var inserted := tables.Insert(IdOf(order, item.sku), Row(order, item.sku, item.quantity, RESERVED));
      if !inserted {
        tables.Increment(item.sku, item.quantity);
        assert tables.products == s.products;
      }
    }
  }

  class ReleaseStockHandler {
    const tables: Tables

    constructor (tables: Tables)
      ensures this.tables == tables
    {
      this.tables := tables;
    }

    /** In whatever order the rows are found, each is marked once and given back once. */
    method HandlePaymentFailed(order: OrderId)
      modifies tables
      ensures tables.S() == Release(old(tables.S()), order)
    {
      hide Total, Owed, IsOwed, OwedGivenBack, Conserves, Sound;
      ghost var s := tables.S();
      var todo := set id | id in tables.rows && IsOwed(tables.rows[id], order);
      assert forall id | id in s.rows && IsOwed(s.rows[id], order) :: id in todo;
      if todo == {} {
        NothingToRelease(s, order);
        return;
      }
      ghost var found := todo;
      NothingYet(s, order);
      while todo != {}
        invariant todo <= found && tables.published == s.published
        invariant Sound(s) ==> Sound(tables.S()) && Conserves(s, tables.S())
        invariant OwedGivenBack(s, tables.S(), order)
        invariant tables.rows.Keys == s.rows.Keys
        invariant forall id | id in s.rows ::
                    tables.rows[id] == if id in found - todo then s.rows[id].(status := RELEASED) else s.rows[id]
        decreases todo
      {
        var id :| id in todo;
        todo := todo - {id};
        ReleaseRow(id, order, s);
      }
      NothingLeft(s, tables.S(), order);
    }

    /** One row; a row another delivery has released meanwhile is skipped. */
    method ReleaseRow(id: RowId, order: OrderId, ghost s: State)
      requires id in tables.rows && IsOwed(tables.rows[id], order) && OwedGivenBack(s, tables.S(), order)
      requires Sound(s) ==> Sound(tables.S()) && Conserves(s, tables.S())
      modifies tables
      ensures tables.rows == old(tables.rows)[id := old(tables.rows)[id].(status := RELEASED)]
      ensures tables.published == old(tables.published) && OwedGivenBack(s, tables.S(), order)
      ensures Sound(s) ==> Sound(tables.S()) && Conserves(s, tables.S())
    {
      hide Total, Owed, OwedGivenBack, Conserves, Sound;
      ghost var now := tables.S();
      var row := tables.rows[id];
      var affected := tables.MarkReleased(id);
      if affected == 0 {
        return;
      }
      tables.Increment(row.sku, row.quantity);
      RowReleased(now, tables.S(), id, order);
      OwedGivenBackThen(s, now, tables.S(), order);
      if Sound(s) {
        RowConserved(now, tables.S(), id, order);
        ConservesThen(s, now, tables.S());
      }
    }
  }

  /** What has been given back and what is still owed are together what was owed. */
  ghost predicate OwedGivenBack(s: State, s': State, order: OrderId) {
    && s'.products.Keys == s.products.Keys
    && forall sku | sku in s.products ::
         s'.products[sku] + Owed(s'.rows, order, sku) == s.products[sku] + Owed(s.rows, order, sku)
  }

  lemma NothingYet(s: State, order: OrderId)
    ensures OwedGivenBack(s, s, order) && Conserves(s, s)
  {
  }

  lemma OwedGivenBackThen(s: State, s': State, s'': State, order: OrderId)
    requires OwedGivenBack(s, s', order) && OwedGivenBack(s', s'', order)
    ensures OwedGivenBack(s, s'', order)
  {
  }

  lemma ConservesThen(s: State, s': State, s'': State)
    requires Conserves(s, s') && Conserves(s', s'')
    ensures Conserves(s, s'')
  {
  }

  lemma NothingToRelease(s: State, order: OrderId)
    requires forall id | id in s.rows :: !IsOwed(s.rows[id], order)
    ensures Release(s, order) == s
  {
    forall sku | sku in s.products ensures Owed(s.rows, order, sku) == 0 {
      NothingOwed(s.rows, order, sku);
    }
    assert Release(s, order).products == s.products && ReleasedRows(s.rows, order) == s.rows;
  }

  /** One row released, and given back where its product exists. */
  predicate IsReleasedRow(s: State, s': State, id: RowId)
    requires id in s.rows
  {
    var row := s.rows[id];
    && s'.rows == s.rows[id := row.(status := RELEASED)]
    && s'.products == if row.sku in s.products
                      then s.products[row.sku := s.products[row.sku] + row.quantity] else s.products
  }

  lemma RowReleased(s: State, s': State, id: RowId, order: OrderId)
    requires id in s.rows && IsOwed(s.rows[id], order) && IsReleasedRow(s, s', id)
    ensures OwedGivenBack(s, s', order)
  {
    forall sku | sku in s.products
      ensures s'.products[sku] + Owed(s'.rows, order, sku) == s.products[sku] + Owed(s.rows, order, sku)
    {
      SumSet(s.rows, id, s.rows[id].(status := RELEASED), WeighsFor(order, sku));
    }
  }

  lemma RowConserved(s: State, s': State, id: RowId, order: OrderId)
    requires Sound(s) && id in s.rows && IsOwed(s.rows[id], order) && IsReleasedRow(s, s', id)
    ensures Sound(s') && Conserves(s, s')
  {
    forall sku | sku in s.products
      ensures s'.products[sku] + Total(s'.rows, sku) == s.products[sku] + Total(s.rows, sku)
    {
      SumSet(s.rows, id, s.rows[id].(status := RELEASED), Weighs(sku));
    }
  }

  lemma NothingLeft(s: State, s': State, order: OrderId)
    requires s'.published == s.published && s'.rows.Keys == s.rows.Keys
    requires forall id | id in s.rows ::
               s'.rows[id] == if IsOwed(s.rows[id], order) then s.rows[id].(status := RELEASED) else s.rows[id]
    requires OwedGivenBack(s, s', order)
    ensures s' == Release(s, order)
  {
    assert s'.rows == ReleasedRows(s.rows, order);
    forall sku | sku in s.products ensures Owed(s'.rows, order, sku) == 0 {
      NothingOwed(s'.rows, order, sku);
    }
    assert s'.products == Release(s, order).products;
  }
}
