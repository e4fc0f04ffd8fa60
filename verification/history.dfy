/** An auxiliary record of each order's past, and what it says about the four databases.

    No step of the Saga reads the record. It names, for each order, the events that the services have
    emitted for it, so that the invariant can be stated one order at a time. */
module History {
  import opened Events
  import opened StateMachine
  import opened Orders
  import opened Inventory
  import opened Payments
  import opened Notifications
  import opened Saga

  datatype Trace = Trace(
    created: EventId,
    /** the inventory service's answer, and whether it was a reservation */
    verdict: Option<EventId>,
    granted: bool,
    /** the payment service's result */
    charge: Option<EventId>,
    /** `inventory.commit` or `inventory.release` */
    settle: Option<EventId>,
    /** `order.completed` or `order.failed` */
    final: Option<EventId>,
    /** a stock reset deleted the order's reservation */
    erased: bool)

  type Traces = map<OrderId, Trace>

  datatype World = World(s: State, h: Traces)

  const START := World(INIT, map[])

  /** What a handler's transaction, on an event it has not processed, adds to its order's trace. */
  function TraceAfter(s: State, t: Trace, dest: Service, e: Event): Trace {
    match dest
    case InventoryService =>
      if e.kind.OrderCreated? then
        var tx := Inventory.Handle(s.inventory, e, s.next);
        t.(verdict := Some(s.next), granted := tx.Ok? && e.aggregate in tx.db.reservations)
      else t
    case PaymentService => t.(charge := Some(s.next))
    case OrderService =>
      if e.aggregate !in s.orders.orders then t
      else
        var status := s.orders.orders[e.aggregate].status;
        if NextStatus(status, e.kind) == status then t
        else if e.kind.PaymentSucceeded? || e.kind.PaymentFailed? then
          t.(settle := Some(s.next), final := Some(s.next + IDS_PER_EVENT))
        else if e.kind.InventoryRejected? then t.(final := Some(s.next))
        else t
    case NotificationService => t
  }

  function TracesAfterHandling(w: World, dest: Service, e: Event): Traces {
    if e.id in Done(w.s, dest) || e.aggregate !in w.h then w.h
    else w.h[e.aggregate := TraceAfter(w.s, w.h[e.aggregate], dest, e)]
  }

  predicate Erases(db: InventoryDb, itemId: string, quantity: int, o: OrderId) {
    o in db.reservations && o !in WithStock(db, itemId, quantity).reservations
  }

  function TracesAfterReset(w: World, itemId: string, quantity: int): Traces {
    map o | o in w.h :: if Erases(w.s.inventory, itemId, quantity, o) then w.h[o].(erased := true) else w.h[o]
  }

  function TracesAfter(w: World, l: Label): Traces
    requires Enabled(w.s, l)
  {
    match l
    case Place(r, key) =>
      if key in w.s.orders.keys then w.h
      else w.h[w.s.next := Trace(w.s.next + 2, None, false, None, None, None, false)]
    case SetStock(itemId, quantity) => TracesAfterReset(w, itemId, quantity)
    case Consume(c, committed, _) => if committed then TracesAfterHandling(w, c.dest, c.event) else w.h
    case _ => w.h
  }

  function After(w: World, l: Label): World
    requires Enabled(w.s, l)
  {
    World(Step(w.s, l), TracesAfter(w, l))
  }

  /** A run: every step is enabled where it is taken. */
  predicate IsRun(w: World, ls: seq<Label>)
    decreases |ls|
  {
    ls == [] || (Enabled(w.s, ls[0]) && IsRun(After(w, ls[0]), ls[1..]))
  }

  function Exec(w: World, ls: seq<Label>): World
    requires IsRun(w, ls)
    decreases |ls|
  {
    if ls == [] then w else Exec(After(w, ls[0]), ls[1..])
  }

  // ----- what a trace says about its order -----

  /** The row of `id`, by the event it carries. */
  predicate Carries(outbox: Outbox, id: EventId, e: Event) {
    id in outbox && outbox[id].event == e
  }

  predicate Declines(order: Order) {
    ShouldFailPayment(order.customerId, order.amountCents)
  }

  predicate Paid(t: Trace, db: OrderDb) {
    t.charge.Some? && t.charge.value in db.processed
  }

  predicate Heard(t: Trace, db: OrderDb) {
    t.verdict.Some? && t.verdict.value in db.processed
  }

  predicate Settled(t: Trace, db: InventoryDb) {
    t.settle.Some? && t.settle.value in db.processed
  }

  function StatusOf(order: Order, t: Trace, db: OrderDb): Status {
    if Paid(t, db) then if Declines(order) then PAYMENT_FAILED else COMPLETED
    else if Heard(t, db) then if t.granted then INVENTORY_RESERVED else REJECTED
    else PENDING
  }

  function ReservedEvent(o: OrderId, order: Order, id: EventId): Event {
    CreateEvent(InventoryReserved, o, OrderPayload(o, order).(reservationStatus := Some("RESERVED")),
                Some(order.correlation), id)
  }

  function RejectedEvent(o: OrderId, order: Order, reason: string, id: EventId): Event {
    CreateEvent(InventoryRejected, o, OrderPayload(o, order).(reason := Some(reason)), Some(order.correlation), id)
  }

  function SucceededEvent(o: OrderId, order: Order, reference: Id, id: EventId): Event {
    var payload := OrderPayload(o, order).(reservationStatus := Some("RESERVED"), providerReference := Some(reference));
    CreateEvent(PaymentSucceeded, o, payload, Some(order.correlation), id)
  }

  function DeclinedEvent(o: OrderId, order: Order, id: EventId): Event {
    var payload := OrderPayload(o, order).(reservationStatus := Some("RESERVED"), reason := Some(DECLINE_REASON));
    CreateEvent(PaymentFailed, o, payload, Some(order.correlation), id)
  }

  predicate RejectReason(reason: string) {
    reason == "item_not_found" || reason == "insufficient_stock"
  }

  predicate CreatedOk(o: OrderId, order: Order, t: Trace, db: OrderDb) {
    && Carries(db.outbox, t.created, CreatedEvent(o, order, t.created))
    && order.quantity >= 1 && order.amountCents >= 1
  }

  predicate VerdictOk(o: OrderId, order: Order, t: Trace, db: InventoryDb) {
    && (t.verdict.Some? <==> t.created in db.processed)
    && (t.granted ==> t.verdict.Some? && Carries(db.outbox, t.verdict.value, ReservedEvent(o, order, t.verdict.value)))
    && (t.verdict.Some? && !t.granted ==> RejectionOk(o, order, t.verdict.value, db))
  }

  predicate RejectionOk(o: OrderId, order: Order, id: EventId, db: InventoryDb) {
    && id in db.outbox
    && var reason := db.outbox[id].event.payload.reason.GetOr("");
    && RejectReason(reason)
    && db.outbox[id].event == RejectedEvent(o, order, reason, id)
  }

  function ReservationOf(order: Order, t: Trace, db: InventoryDb): Reservation {
    Reservation(order.itemId, order.quantity,
                if !Settled(t, db) then RESERVED else if Declines(order) then RELEASED else COMMITTED)
  }

  predicate ReservationOk(o: OrderId, order: Order, t: Trace, db: InventoryDb) {
    && (t.erased ==> t.granted)
    && (o in db.reservations <==> t.granted && !t.erased)
    && (o in db.reservations ==> db.reservations[o] == ReservationOf(order, t, db))
  }

  predicate ChargeOk(o: OrderId, order: Order, t: Trace, db: PaymentDb) {
    && (t.charge.Some? <==> t.granted && t.verdict.Some? && t.verdict.value in db.processed)
    && (o in db.payments <==> t.charge.Some?)
    && (o in db.payments ==> PaymentOk(o, order, t.charge.value, db))
  }

  predicate PaymentOk(o: OrderId, order: Order, id: EventId, db: PaymentDb)
    requires o in db.payments
  {
    && db.payments[o].customerId == order.customerId && db.payments[o].amountCents == order.amountCents
    && (Declines(order) ==>
          && db.payments[o].status == FAILED
          && db.payments[o].providerReference == None && db.payments[o].failureReason == Some(DECLINE_REASON)
          && Carries(db.outbox, id, DeclinedEvent(o, order, id)))
    && (!Declines(order) ==>
          && db.payments[o].status == SUCCEEDED
          && db.payments[o].providerReference.Some? && db.payments[o].failureReason == None
          && Carries(db.outbox, id, SucceededEvent(o, order, db.payments[o].providerReference.value, id)))
  }

  predicate StatusOk(order: Order, t: Trace, db: OrderDb) {
    && order.status == StatusOf(order, t, db)
    && match order.status
       case PAYMENT_FAILED => order.reason == Some(DECLINE_REASON)
       case REJECTED => order.reason.Some? && RejectReason(order.reason.value)
       case _ => order.reason == None
  }

  /** The announcement that a terminal order has made. */
  function FinalEvent(o: OrderId, order: Order, id: EventId): Event {
    if order.status == COMPLETED then CompletedEvent(o, order, id)
    else FailedEvent(o, order, order.reason.GetOr(""), id)
  }

  function SettleEvent(o: OrderId, order: Order, id: EventId): Event {
    if Declines(order) then ReleaseEvent(o, order, DECLINE_REASON, id) else CommitEvent(o, order, id)
  }

  predicate AnnouncedOk(o: OrderId, order: Order, t: Trace, db: OrderDb) {
    && (t.settle.Some? <==> Paid(t, db))
    && (t.settle.Some? ==> Carries(db.outbox, t.settle.value, SettleEvent(o, order, t.settle.value)))
    && (t.final.Some? <==> order.status in TERMINAL)
    && (t.final.Some? ==> Carries(db.outbox, t.final.value, FinalEvent(o, order, t.final.value)))
  }

  predicate NotifiedOk(o: OrderId, order: Order, t: Trace, notes: NotificationDb) {
    t.final.Some? && t.final.value in notes ==>
          notes[t.final.value] == NotificationFor(FinalEvent(o, order, t.final.value))
  }

  predicate OrderOk(s: State, o: OrderId, t: Trace)
    requires o in s.orders.orders
  {
    var order := s.orders.orders[o];
    && CreatedOk(o, order, t, s.orders)
    && VerdictOk(o, order, t, s.inventory)
    && ReservationOk(o, order, t, s.inventory)
    && ChargeOk(o, order, t, s.payments)
    && StatusOk(order, t, s.orders)
    && AnnouncedOk(o, order, t, s.orders)
    && NotifiedOk(o, order, t, s.notes)
  }
}
