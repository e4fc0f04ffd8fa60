/** app/order_service/service.py: order creation and the order's side of the Saga. */
module Orders {
  import opened Events
  import opened StateMachine

  datatype Order = Order(
    key: string,
    customerId: string,
    itemId: string,
    quantity: int,
    amountCents: int,
    status: Status,
    reason: Option<string>,
    correlation: Id)

  datatype Request = Request(customerId: string, itemId: string, quantity: int, amountCents: int)

  /** The bounds that the request schema enforces before `create_order` is called. */
  predicate Admissible(r: Request) {
    r.quantity >= 1 && r.amountCents >= 1
  }

  /** `keys` is the unique index on the idempotency key. */
  datatype OrderDb = OrderDb(
    orders: map<OrderId, Order>,
    keys: map<string, OrderId>,
    processed: set<EventId>,
    outbox: Outbox)

  const EMPTY := OrderDb(map[], map[], {}, map[])

  /** Order, correlation and event identifiers of one `create_order`. */
  const IDS_PER_ORDER: nat := 4

  function NewOrder(r: Request, key: string, correlation: Id): Order {
    Order(key, r.customerId, r.itemId, r.quantity, r.amountCents, PENDING, None, correlation)
  }

  /** The payload that `order.created` carries, and `order.completed` repeats. */
  function OrderPayload(o: OrderId, order: Order): Payload {
    Payload(Some(o), Some(order.itemId), Some(order.quantity), Some(order.customerId), Some(order.amountCents), None,
            None, None)
  }

  function CreatedEvent(o: OrderId, order: Order, id: EventId): Event {
    CreateEvent(OrderCreated, o, OrderPayload(o, order), Some(order.correlation), id)
  }

  /** Inserting the order and its `order.created` row; the caller has checked the unique index. */
  function Insert(db: OrderDb, r: Request, key: string, unused: Id): OrderDb {
    var order := NewOrder(r, key, unused + 1);
    OrderDb(
      db.orders[unused := order],
      db.keys[key := unused],
      db.processed,
      AddOutbox(db.outbox, CreatedEvent(unused, order, unused + 2)))
  }

  datatype Creation = Creation(db: OrderDb, order: OrderId, created: bool, next: Id)

  /** `create_order` without a competing caller: a known key returns its order, a new one inserts. */
  function Create(db: OrderDb, r: Request, key: string, unused: Id): Creation {
    if key in db.keys then Creation(db, db.keys[key], false, unused)
    else Creation(Insert(db, r, key, unused), unused, true, unused + IDS_PER_ORDER)
  }

  function StockPayload(o: OrderId, order: Order): Payload {
    Payload(Some(o), Some(order.itemId), Some(order.quantity), None, None, None, None, None)
  }

  function CommitEvent(o: OrderId, order: Order, id: EventId): Event {
    CreateEvent(InventoryCommit, o, StockPayload(o, order), Some(order.correlation), id)
  }

  function ReleaseEvent(o: OrderId, order: Order, reason: string, id: EventId): Event {
    CreateEvent(InventoryRelease, o, StockPayload(o, order).(reason := Some(reason)), Some(order.correlation), id)
  }

  function CompletedEvent(o: OrderId, order: Order, id: EventId): Event {
    CreateEvent(OrderCompleted, o, OrderPayload(o, order), Some(order.correlation), id)
  }

  function FailedEvent(o: OrderId, order: Order, reason: string, id: EventId): Event {
    CreateEvent(OrderFailed, o, Payload(Some(o), None, None, Some(order.customerId), None, Some(reason), None, None),
                Some(order.correlation), id)
  }

  /** The events that a status change emits, in the order they are added to the outbox. */
  function Announcements(o: OrderId, order: Order, e: Event, unused: Id): (es: seq<Event>)
    ensures |es| <= 2
  {
    match e.kind
    case PaymentSucceeded =>
      [CommitEvent(o, order, unused), CompletedEvent(o, order, unused + IDS_PER_EVENT)]
    case PaymentFailed =>
      var reason := e.payload.reason.GetOr("payment_failed");
      [ReleaseEvent(o, order, reason, unused), FailedEvent(o, order, reason, unused + IDS_PER_EVENT)]
    case InventoryRejected =>
      [FailedEvent(o, order, e.payload.reason.GetOr("inventory_rejected"), unused)]
    case _ => []
  }

  function AddAll(outbox: Outbox, es: seq<Event>): Outbox
    requires |es| <= 2
  {
    match |es|
    case 0 => outbox
    case 1 => AddOutbox(outbox, es[0])
    case _ => AddOutbox(AddOutbox(outbox, es[0]), es[1])
  }

  /** The transaction for an order whose status changes. */
  function Advance(db: OrderDb, e: Event, unused: Id): Tx<OrderDb>
    requires e.aggregate in db.orders
  {
    var o := e.aggregate;
    var order := db.orders[o].(status := NextStatus(db.orders[o].status, e.kind), reason := e.payload.reason);
    var es := Announcements(o, order, e, unused);
    Ok(OrderDb(db.orders[o := order], db.keys, db.processed + {e.id}, AddAll(db.outbox, es)),
       unused + IDS_PER_EVENT * |es|)
  }

  function Handle(db: OrderDb, e: Event, unused: Id): Tx<OrderDb> {
    if e.id in db.processed then Ok(db, unused)
    else if e.aggregate !in db.orders then Raised
    else if NextStatus(db.orders[e.aggregate].status, e.kind) != db.orders[e.aggregate].status then
      Advance(db, e, unused)
    else Ok(db.(processed := db.processed + {e.id}), unused)
  }

  /** The service's session. */
  class OrderStore {
    var orders: map<OrderId, Order>
    var keys: map<string, OrderId>
    var processed: set<EventId>
    var outbox: Outbox
    var next: Id

    ghost function Db(): OrderDb
      reads this
    {
      OrderDb(orders, keys, processed, outbox)
    }

    constructor ()
      ensures Db() == EMPTY && next == 0
    {
      orders, keys, processed, outbox, next := map[], map[], {}, map[], 0;
    }

    method CreateOrder(r: Request, key: string) returns (o: OrderId, created: bool)
      modifies this
      ensures Creation(Db(), o, created, next) == Create(old(Db()), r, key, old(next))
      ensures created <==> key !in old(keys)
      ensures created ==>
                && o in orders && key in keys && keys[key] == o
                && orders[o].customerId == r.customerId && orders[o].itemId == r.itemId
                && orders[o].quantity == r.quantity && orders[o].amountCents == r.amountCents
                && orders[o].key == key && orders[o].status == PENDING && orders[o].reason == None
      ensures !created ==> o == old(keys)[key] && Db() == old(Db())
    {
      if key in keys {
        return keys[key], false;
      }
      o := next;
      var order := NewOrder(r, key, next + 1);
      var event := CreateEvent(OrderCreated, o, OrderPayload(o, order), Some(order.correlation), next + 2);
      orders := orders[o := order];
      keys := keys[key := o];
      outbox := AddOutbox(outbox, event);
      next := next + IDS_PER_ORDER;
      created := true;
    }

    method Emit(e: Event)
      requires e.id == next
      modifies this`outbox, this`next
      ensures outbox == AddOutbox(old(outbox), e) && next == old(next) + IDS_PER_EVENT
    {
      outbox := AddOutbox(outbox, e);
      next := next + IDS_PER_EVENT;
    }

    method HandleDomainEvent(e: Event) returns (ok: bool)
      modifies this
      ensures ok == Handle(old(Db()), e, old(next)).Ok?
      ensures ok ==> Ok(Db(), next) == Handle(old(Db()), e, old(next))
      ensures !ok ==> Db() == old(Db()) && next == old(next)
    {
      if e.id in processed {
        return true;
      }
      var o := e.aggregate;
      if o !in orders {
        return false;
      }
      var order := orders[o];
      var oldStatus := order.status;
      var newStatus := NextStatus(oldStatus, e.kind);
      if newStatus != oldStatus {
        order := order.(status := newStatus);
        order := order.(reason := e.payload.reason);
        orders := orders[o := order];
        if e.kind.PaymentSucceeded? {
          Emit(CommitEvent(o, order, next));
          Emit(CompletedEvent(o, order, next));
        }
        if e.kind.PaymentFailed? {
          var reason := e.payload.reason.GetOr("payment_failed");
          Emit(ReleaseEvent(o, order, reason, next));
          Emit(FailedEvent(o, order, reason, next));
        }
        if e.kind.InventoryRejected? {
          Emit(FailedEvent(o, order, e.payload.reason.GetOr("inventory_rejected"), next));
        }
      }
      processed := processed + {e.id};
      ok := true;
    }
  }
}
