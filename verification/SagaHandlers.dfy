/** The saga's handlers, statement by statement over the tables they share; each is
    proved to take the atomic step of the protocol. */
module SagaHandlers {
  import opened Sagas

  /** The tables, and the outbox the handlers publish to. */
  class Tables {
    var stock: map<Sku, int>
    var orders: map<OrderId, Order>
    var reservations: map<OrderId, Reservation>
    var payments: map<OrderId, Payment>
    var published: seq<Message>

    constructor (initial: map<Sku, int>)
      ensures S() == Initial(initial)
    {
      stock, orders, reservations, payments, published := initial, map[], map[], map[], [];
    }

    function S(): State
      reads this
    {
      State(stock, orders, reservations, payments, published)
    }

    /** An INSERT on a primary key: false is a unique violation. */
    method InsertOrder(id: OrderId, o: Order) returns (inserted: bool)
      modifies this`orders
      ensures inserted == (id !in old(orders))
      ensures orders == if inserted then old(orders)[id := o] else old(orders)
    {
      inserted := id !in orders;
      if inserted {
        orders := orders[id := o];
      }
    }

    method InsertReservation(id: OrderId, r: Reservation) returns (inserted: bool)
      modifies this`reservations
      ensures inserted == (id !in old(reservations))
      ensures reservations == if inserted then old(reservations)[id := r] else old(reservations)
    {
      inserted := id !in reservations;
      if inserted {
        reservations := reservations[id := r];
      }
    }

    method InsertPayment(id: OrderId, p: Payment) returns (inserted: bool)
      modifies this`payments
      ensures inserted == (id !in old(payments))
      ensures payments == if inserted then old(payments)[id := p] else old(payments)
    {
      inserted := id !in payments;
      if inserted {
        payments := payments[id := p];
      }
    }

    /** UPDATE ... SET available = available - q WHERE sku = s AND available >= q. */
    method DecrementStock(sku: Sku, quantity: int) returns (affected: nat)
      modifies this`stock
      ensures affected == if sku in old(stock) && old(stock)[sku] >= quantity then 1 else 0
      ensures stock == if affected == 1 then old(stock)[sku := old(stock)[sku] - quantity] else old(stock)
    {
      affected := 0;
      if sku in stock && stock[sku] >= quantity {
        stock, affected := stock[sku := stock[sku] - quantity], 1;
      }
    }

    method IncrementStock(sku: Sku, quantity: int)
      modifies this`stock
      ensures stock == if sku in old(stock) then old(stock)[sku := old(stock)[sku] + quantity] else old(stock)
    {
      if sku in stock {
        stock := stock[sku := stock[sku] + quantity];
      }
    }

    method UpdateOrder(id: OrderId, status: Status)
      modifies this`orders
      ensures S() == WithStatus(old(S()), id, status)
    {
      if id in orders {
        orders := orders[id := orders[id].(status := status)];
      }
    }

    /** UPDATE ... SET status = s WHERE id = i AND status = f. */
    method UpdateOrderIf(id: OrderId, from: Status, status: Status) returns (affected: nat)
      modifies this`orders
      ensures affected == if HasStatus(old(S()), id, from) then 1 else 0
      ensures S() == if affected == 1 then WithStatus(old(S()), id, status) else old(S())
    {
      affected := 0;
      if id in orders && orders[id].status == from {
        orders, affected := orders[id := orders[id].(status := status)], 1;
      }
    }

    method Publish(m: Message)
      modifies this`published
      ensures published == old(published) + [m]
    {
      published := published + [m];
    }

    /** ROLLBACK. */
    method Restore(s: State)
      modifies this
      ensures S() == s
    {
      stock, orders, reservations, payments, published := s.stock, s.orders, s.reservations, s.payments, s.published;
    }
  }

  class OrderService {
    const tables: Tables

    constructor (tables: Tables)
      ensures this.tables == tables
    {
      this.tables := tables;
    }

    /** False: a duplicate order id; nothing has changed. */
    method PlaceOrder(id: OrderId, sku: Sku, quantity: int, amount: int) returns (ok: bool)
      modifies tables
      ensures ok == (id !in old(tables.orders))
      ensures tables.S() == Place(old(tables.S()), id, sku, quantity, amount)
    {
      ok := tables.InsertOrder(id, Order(sku, quantity, amount, PLACED));
      if ok {
        tables.Publish(Message.OrderPlaced(id, sku, quantity, amount));
      }
    }
  }

  class ReservationHandler {
    const tables: Tables

    constructor (tables: Tables)
      ensures this.tables == tables
    {
      this.tables := tables;
    }

    method OnOrderPlaced(id: OrderId, sku: Sku, quantity: int, amount: int)
      modifies tables
      ensures tables.S() == Reserve(old(tables.S()), id, sku, quantity, amount)
    {
      var inserted := tables.InsertReservation(id, Reservation(sku, quantity));
      if !inserted {
        return;
      }
      var affected := tables.DecrementStock(sku, quantity);
      if affected == 0 {
        tables.UpdateOrder(id, FAILED_RESERVATION);
        tables.Publish(InventoryReservationFailed(id, sku));
        return;
      }
      tables.UpdateOrder(id, RESERVED);
      tables.Publish(InventoryReserved(id, sku, quantity, amount));
    }
  }

  class PaymentHandler {
    const tables: Tables

    constructor (tables: Tables)
      ensures this.tables == tables
    {
      this.tables := tables;
    }

    method OnInventoryReserved(id: OrderId, sku: Sku, quantity: int, amount: int)
      modifies tables
      ensures tables.S() == Pay(old(tables.S()), id, sku, quantity, amount)
    {
      var willFail := amount >= UNAUTHORISED_AMOUNT;
      var inserted := tables.InsertPayment(id, Payment(amount, if willFail then DECLINED else CHARGED));
      if !inserted {
        return;
      }
      if willFail {
        tables.Publish(PaymentFailed(id, sku, quantity));
        return;
      }
      tables.Publish(PaymentCharged(id, amount));
    }
  }

  class ShipmentHandler {
    const tables: Tables

    constructor (tables: Tables)
      ensures this.tables == tables
    {
      this.tables := tables;
    }

    method OnPaymentCharged(id: OrderId)
      modifies tables
      ensures tables.S() == Ship(old(tables.S()), id)
    {
      var affected := tables.UpdateOrderIf(id, RESERVED, SHIPPED);
      if affected == 0 {
        return;
      }
      tables.Publish(OrderShipped(id));
    }
  }

  class CompensationHandler {
    const tables: Tables

    constructor (tables: Tables)
      ensures this.tables == tables
    {
      this.tables := tables;
    }

    method OnPaymentFailed(id: OrderId, sku: Sku, quantity: int)
      modifies tables
      ensures tables.S() == Compensate(old(tables.S()), id, sku, quantity)
    {
      var affected := tables.UpdateOrderIf(id, RESERVED, FAILED_PAYMENT);
      if affected == 0 {
        return;
      }
      tables.IncrementStock(sku, quantity);
    }
  }

  /** The relay: it hands each message to its topic's handler, in a transaction of
      its own that may abort. */
  class Relay {
    const tables: Tables
    const reservation: ReservationHandler
    const payment: PaymentHandler
    const shipment: ShipmentHandler
    const compensation: CompensationHandler

    constructor (tables: Tables)
      ensures this.tables == tables && Valid()
    {
      this.tables := tables;
      reservation := new ReservationHandler(tables);
      payment := new PaymentHandler(tables);
      shipment := new ShipmentHandler(tables);
      compensation := new CompensationHandler(tables);
    }

    predicate Valid() {
      reservation.tables == payment.tables == shipment.tables == compensation.tables == tables
    }

    method DeliverMessage(index: nat, commits: bool)
      requires Valid()
      modifies tables
      ensures tables.S() == Next(old(tables.S()), Deliver(index, commits))
    {
      if |tables.published| <= index {
        return;
      }
      var before := tables.S();
      match tables.published[index] {
        case OrderPlaced(id, sku, quantity, amount) =>
          reservation.OnOrderPlaced(id, sku, quantity, amount);
        case InventoryReserved(id, sku, quantity, amount) =>
          payment.OnInventoryReserved(id, sku, quantity, amount);
        case InventoryReservationFailed(_, _) =>
        case PaymentCharged(id, _) =>
          shipment.OnPaymentCharged(id);
        case PaymentFailed(id, sku, quantity) =>
          compensation.OnPaymentFailed(id, sku, quantity);
        case OrderShipped(_) =>
      }
      if !commits {
        tables.Restore(before);
      }
    }
  }
}
