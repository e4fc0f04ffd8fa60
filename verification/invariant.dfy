/** The inductive invariant of the Saga.

    `Core` is about the databases alone: each order agrees with its trace, and nothing else is in any
    table. `Transport` is about the broker: no event that left an outbox is lost. */
module Invariant {
  import opened Events
  import opened Orders
  import opened Ledger
  import opened Saga
  import opened History

  // ----- the databases -----

  /** Which service emits an event type. */
  function Producer(kind: EventType): Service {
    match kind
    case OrderCreated | OrderCompleted | OrderFailed | InventoryCommit | InventoryRelease => OrderService
    case InventoryReserved | InventoryRejected | InventoryCommitted | InventoryReleased => InventoryService
    case PaymentSucceeded | PaymentFailed => PaymentService
    case Other(_) => NotificationService
  }

  /** The place an event has in its order's trace. */
  predicate InTrace(t: Trace, e: Event) {
    match e.kind
    case OrderCreated => t.created == e.id
    case OrderCompleted | OrderFailed => t.final == Some(e.id)
    case InventoryCommit | InventoryRelease => t.settle == Some(e.id)
    case InventoryReserved => t.verdict == Some(e.id) && t.granted
    case InventoryRejected => t.verdict == Some(e.id) && !t.granted
    case PaymentSucceeded | PaymentFailed => t.charge == Some(e.id)
    case InventoryCommitted | InventoryReleased => t.settle.Some?
    case Other(_) => false
  }

  /** `inventory.committed` and `inventory.released`, which no service listens to. */
  function OutcomeEvent(o: OrderId, order: Order, kind: EventType, id: EventId): Event {
    CreateEvent(kind, o, StockPayload(o, order), Some(order.correlation), id)
  }

  predicate KnownOrder(w: World, o: OrderId) {
    o in w.h && o in w.s.orders.orders && o < w.s.next
  }

  /** A row carries an event of a known order, and the order's trace knows the event. */
  predicate RowOk(w: World, svc: Service, id: EventId)
    requires id in OutboxOf(w.s, svc)
  {
    var e := OutboxOf(w.s, svc)[id].event;
    && e.id == id && id < w.s.next
    && Producer(e.kind) == svc
    && KnownOrder(w, e.aggregate) && InTrace(w.h[e.aggregate], e)
    && (e.kind.InventoryCommitted? || e.kind.InventoryReleased? ==>
          && e == OutcomeEvent(e.aggregate, w.s.orders.orders[e.aggregate], e.kind, id)
          && (e.kind.InventoryReleased? <==> Declines(w.s.orders.orders[e.aggregate])))
  }

  predicate KeyOk(db: OrderDb, o: OrderId)
    requires o in db.orders
  {
    db.orders[o].key in db.keys && db.keys[db.orders[o].key] == o
  }

  predicate FinalOf(w: World, id: EventId, o: OrderId) {
    o in w.h && w.h[o].final == Some(id)
  }

  ghost predicate NoteKnown(w: World, id: EventId) {
    exists o :: FinalOf(w, id, o)
  }

  ghost predicate KnownOrders(w: World) {
    && (forall o {:trigger KnownOrder(w, o)} :: o in w.h || o in w.s.orders.orders ==> KnownOrder(w, o))
    && (forall o {:trigger KnownOrder(w, o)} :: o in w.s.inventory.reservations || o in w.s.payments.payments ==>
          KnownOrder(w, o))
    && (forall k {:trigger w.s.orders.keys[k]} :: k in w.s.orders.keys ==>
          w.s.orders.keys[k] in w.s.orders.orders && w.s.orders.orders[w.s.orders.keys[k]].key == k)
    && (forall o {:trigger KeyOk(w.s.orders, o)} :: o in w.s.orders.orders ==> KeyOk(w.s.orders, o))
    && (forall id {:trigger NoteKnown(w, id)} :: id in w.s.notes ==> NoteKnown(w, id))
  }

  ghost predicate OrdersOk(w: World) {
    forall o {:trigger OrderOk(w.s, o, w.h[o])} :: o in w.h && o in w.s.orders.orders ==> OrderOk(w.s, o, w.h[o])
  }

  ghost predicate RowsOk(w: World) {
    forall svc, id {:trigger RowOk(w, svc, id)} :: id in OutboxOf(w.s, svc) ==> RowOk(w, svc, id)
  }

  predicate Apart(s: State, id: EventId) {
    && !(id in s.orders.outbox && id in s.inventory.outbox)
    && !(id in s.orders.outbox && id in s.payments.outbox)
    && !(id in s.inventory.outbox && id in s.payments.outbox)
  }

  predicate Old(s: State, id: EventId) {
    id < s.next
  }

  /** Identifiers are never shared between outboxes, and those at or above the counter are unused. */
  ghost predicate IdsOk(s: State) {
    && (forall id {:trigger Apart(s, id)} :: Apart(s, id))
    && (forall svc, id {:trigger id in Done(s, svc)} :: id in Done(s, svc) ==> Old(s, id))
    && (forall id {:trigger id in s.sent} :: id in s.sent ==> Old(s, id))
  }

  ghost predicate Core(w: World) {
    KnownOrders(w) && OrdersOk(w) && RowsOk(w) && IdsOk(w.s) && Balanced(w.s.inventory)
  }

  // ----- the broker -----

  predicate Emitted(s: State, e: Event) {
    Carries(OutboxOf(s, Producer(e.kind)), e.id, e)
  }

  predicate CopyOk(s: State, c: Copy) {
    Emitted(s, c.event) && Bound(c.dest, c.event.kind)
  }

  predicate IsCopy(s: State, svc: Service, id: EventId, c: Copy) {
    c in s.flight && c.dest == svc && c.event.id == id
  }

  /** A consumer has processed the event, or a copy for it is still in one of its queues. */
  ghost predicate Accounted(s: State, svc: Service, id: EventId) {
    id in Done(s, svc) || exists c :: IsCopy(s, svc, id, c)
  }

  /** A row that the broker accepted is accounted for at every bound queue. */
  ghost predicate DeliveryOk(s: State, source: Service, id: EventId)
    requires id in OutboxOf(s, source)
  {
    OutboxOf(s, source)[id].published || id in s.sent ==>
      forall svc {:trigger Accounted(s, svc, id)} :: Bound(svc, OutboxOf(s, source)[id].event.kind) ==>
            Accounted(s, svc, id)
  }

  ghost predicate Transport(s: State) {
    && (forall c {:trigger CopyOk(s, c)} :: c in s.flight ==> CopyOk(s, c))
    && (forall source, id {:trigger DeliveryOk(s, source, id)} :: id in OutboxOf(s, source) ==>
          DeliveryOk(s, source, id))
  }

  ghost predicate Inv(w: World) {
    Core(w) && Transport(w.s)
  }

  // ----- framing -----

  /** Rows are added and marked, but no row is removed and no event is changed. */
  predicate Extends(a: Outbox, b: Outbox) {
    forall id {:trigger id in b} {:trigger id in a} :: id in a ==> id in b && b[id].event == a[id].event
  }

  function Ids(t: Trace): set<EventId> {
    {t.created}
    + (if t.verdict.Some? then {t.verdict.value} else {})
    + (if t.charge.Some? then {t.charge.value} else {})
    + (if t.settle.Some? then {t.settle.value} else {})
    + (if t.final.Some? then {t.final.value} else {})
  }

  predicate SameEntry<V(==)>(a: map<nat, V>, b: map<nat, V>, k: nat) {
    (k in a <==> k in b) && (k in a ==> a[k] == b[k])
  }

  predicate SameMark(s: State, s': State, id: EventId) {
    && (id in s.orders.processed <==> id in s'.orders.processed)
    && (id in s.inventory.processed <==> id in s'.inventory.processed)
    && (id in s.payments.processed <==> id in s'.payments.processed)
    && SameEntry(s.notes, s'.notes, id)
  }

  /** Nothing that an order's state depends on has changed. */
  ghost predicate Undisturbed(s: State, s': State, o: OrderId, t: Trace) {
    && SameEntry(s.orders.orders, s'.orders.orders, o)
    && SameEntry(s.inventory.reservations, s'.inventory.reservations, o)
    && SameEntry(s.payments.payments, s'.payments.payments, o)
    && Extends(s.orders.outbox, s'.orders.outbox)
    && Extends(s.inventory.outbox, s'.inventory.outbox)
    && Extends(s.payments.outbox, s'.payments.outbox)
    && (forall id {:trigger SameMark(s, s', id)} :: id in Ids(t) ==> SameMark(s, s', id))
  }

  lemma UndisturbedOrder(s: State, s': State, o: OrderId, t: Trace)
    requires o in s.orders.orders && OrderOk(s, o, t) && Undisturbed(s, s', o, t)
    ensures o in s'.orders.orders && OrderOk(s', o, t)
  {
    assert SameMark(s, s', t.created);
    if t.verdict.Some? { assert SameMark(s, s', t.verdict.value); }
    if t.charge.Some? { assert SameMark(s, s', t.charge.value); }
    if t.settle.Some? { assert SameMark(s, s', t.settle.value); }
    if t.final.Some? { assert SameMark(s, s', t.final.value); }
  }

  /** The rows behind a trace belong to its order, so an event of another order is none of them. */
  lemma ForeignEvent(w: World, o: OrderId, e: Event)
    requires RowsOk(w) && IdsOk(w.s)
    requires o in w.h && o in w.s.orders.orders && OrderOk(w.s, o, w.h[o])
    requires Emitted(w.s, e) && e.aggregate != o
    ensures e.id !in Ids(w.h[o])
  {
    var t := w.h[o];
    assert Apart(w.s, e.id);
    assert RowOk(w, Producer(e.kind), e.id);
  }
}
