/** Every handler keeps `Core`, whichever emitted event it is given and however often. */
module Handling {
  import opened Events
  import opened StateMachine
  import opened Orders
  import opened Inventory
  import opened Payments
  import opened Ledger
  import opened Saga
  import opened History
  import opened Invariant

  /** What an emitted event says about its order: all of it. */
  predicate Canonical(o: OrderId, order: Order, e: Event) {
    match e.kind
    case OrderCreated => e == CreatedEvent(o, order, e.id)
    case OrderCompleted => e == CompletedEvent(o, order, e.id) && order.status == COMPLETED
    case OrderFailed =>
      && order.status in {REJECTED, PAYMENT_FAILED} && order.reason.Some?
      && e == FailedEvent(o, order, order.reason.value, e.id)
    case InventoryCommit => e == CommitEvent(o, order, e.id) && order.status == COMPLETED
    case InventoryRelease => e == ReleaseEvent(o, order, DECLINE_REASON, e.id) && order.status == PAYMENT_FAILED
    case InventoryReserved => e == ReservedEvent(o, order, e.id)
    case InventoryRejected =>
      && e.payload.reason.Some? && RejectReason(e.payload.reason.value)
      && e == RejectedEvent(o, order, e.payload.reason.value, e.id)
    case InventoryCommitted | InventoryReleased => e == OutcomeEvent(o, order, e.kind, e.id)
    case PaymentSucceeded =>
      && !Declines(order) && e.payload.providerReference.Some?
      && e == SucceededEvent(o, order, e.payload.providerReference.value, e.id)
    case PaymentFailed => Declines(order) && e == DeclinedEvent(o, order, e.id)
    case Other(_) => false
  }

  predicate Known(w: World, e: Event) {
    && KnownOrder(w, e.aggregate)
    && OrderOk(w.s, e.aggregate, w.h[e.aggregate])
    && InTrace(w.h[e.aggregate], e)
    && Canonical(e.aggregate, w.s.orders.orders[e.aggregate], e)
  }

  lemma EmittedIsKnown(w: World, e: Event)
    requires OrdersOk(w) && RowsOk(w) && Emitted(w.s, e)
    ensures Known(w, e)
  {
    assert RowOk(w, Producer(e.kind), e.id);
    var o := e.aggregate;
    assert OrderOk(w.s, o, w.h[o]);
  }

  // ----- the order that an event is about -----

  /** No table mentions the identifier. */
  predicate Unused(s: State, id: Id) {
    && id !in s.orders.outbox && id !in s.inventory.outbox && id !in s.payments.outbox
    && id !in s.orders.processed && id !in s.inventory.processed && id !in s.payments.processed && id !in s.notes
  }

  lemma CounterIsUnused(w: World, id: Id)
    requires RowsOk(w) && IdsOk(w.s) && id >= w.s.next
    ensures Unused(w.s, id)
  {
    assert !Old(w.s, id);
    assert id in w.s.orders.outbox ==> RowOk(w, OrderService, id);
    assert id in w.s.inventory.outbox ==> RowOk(w, InventoryService, id);
    assert id in w.s.payments.outbox ==> RowOk(w, PaymentService, id);
    assert id !in Done(w.s, OrderService) && id !in Done(w.s, InventoryService);
    assert id !in Done(w.s, PaymentService) && id !in Done(w.s, NotificationService);
  }

  /** A service that has not processed the event yet. */
  predicate Hears(w: World, svc: Service, e: Event) {
    && Known(w, e) && Bound(svc, e.kind) && e.id !in Done(w.s, svc)
    && Apart(w.s, e.id) && !Unused(w.s, e.id)
    && Unused(w.s, w.s.next) && Unused(w.s, w.s.next + IDS_PER_EVENT)
  }

  /** The handler commits, and the order agrees with its new trace. */
  predicate HandledWell(w: World, svc: Service, e: Event) {
    var tx := Handled(w.s, svc, e);
    && tx.Ok?
    && e.aggregate in w.h && e.aggregate in tx.db.orders.orders
    && OrderOk(tx.db, e.aggregate, TraceAfter(w.s, w.h[e.aggregate], svc, e))
  }

  lemma InventoryHearsCreated(w: World, e: Event)
    requires Hears(w, InventoryService, e) && e.kind.OrderCreated?
    ensures HandledWell(w, InventoryService, e)
  {
  }

  lemma InventoryHearsSettle(w: World, e: Event)
    requires Hears(w, InventoryService, e) && !e.kind.OrderCreated? && Balanced(w.s.inventory)
    ensures HandledWell(w, InventoryService, e)
  {
    var o := e.aggregate;
    if o in w.s.inventory.reservations {
      assert ReservationSound(w.s.inventory, o);
    }
  }

  lemma PaymentHearsReserved(w: World, e: Event)
    requires Hears(w, PaymentService, e)
    ensures HandledWell(w, PaymentService, e)
  {
  }

  lemma OrderHearsReserved(w: World, e: Event)
    requires Hears(w, OrderService, e) && e.kind.InventoryReserved?
    ensures HandledWell(w, OrderService, e)
  {
  }

  lemma OrderHearsRejected(w: World, e: Event)
    requires Hears(w, OrderService, e) && e.kind.InventoryRejected?
    ensures HandledWell(w, OrderService, e)
  {
  }

  /** The part of an order's state that the order service's tables hold. */
  predicate OrderSide(w: World, e: Event) {
    var tx := Handled(w.s, OrderService, e);
    && tx.Ok?
    && e.aggregate in w.h && e.aggregate in tx.db.orders.orders
    && var (o, order, t) := (e.aggregate,
        tx.db.orders.orders[e.aggregate], TraceAfter(w.s, w.h[e.aggregate], OrderService, e));
    CreatedOk(o, order, t, tx.db.orders) && StatusOk(order, t, tx.db.orders) && AnnouncedOk(o, order, t, tx.db.orders)
  }

  predicate OtherSides(w: World, e: Event) {
    var tx := Handled(w.s, OrderService, e);
    && tx.Ok?
    && e.aggregate in w.h && e.aggregate in tx.db.orders.orders
    && var (o, order, t, s) := (e.aggregate,
        tx.db.orders.orders[e.aggregate], TraceAfter(w.s, w.h[e.aggregate], OrderService, e), tx.db);
    && VerdictOk(o, order, t, s.inventory) && ReservationOk(o, order, t, s.inventory)
    && ChargeOk(o, order, t, s.payments)
    && NotifiedOk(o, order, t, s.notes)
  }

  /** The first result of an order's payment finds it undecided. */
  lemma ResultDecides(w: World, e: Event)
    requires Hears(w, OrderService, e) && (e.kind.PaymentSucceeded? || e.kind.PaymentFailed?)
    ensures e.aggregate in w.s.orders.orders && w.s.orders.orders[e.aggregate].status in {PENDING, INVENTORY_RESERVED}
    ensures Orders.Handle(w.s.orders, e, w.s.next) == Advance(w.s.orders, e, w.s.next)
    ensures w.s.orders.orders[e.aggregate].reason == None
  {
  }

  lemma SucceededOrderSide(w: World, e: Event)
    requires Hears(w, OrderService, e) && e.kind.PaymentSucceeded?
    ensures OrderSide(w, e)
  {
    ResultDecides(w, e);
  }

  lemma FailedOrderSide(w: World, e: Event)
    requires Hears(w, OrderService, e) && e.kind.PaymentFailed?
    ensures OrderSide(w, e)
  {
    ResultDecides(w, e);
  }

  lemma ResultOtherSides(w: World, e: Event)
    requires Hears(w, OrderService, e) && (e.kind.PaymentSucceeded? || e.kind.PaymentFailed?)
    ensures OtherSides(w, e)
  {
  }

  lemma OrderHearsResult(w: World, e: Event)
    requires Hears(w, OrderService, e) && (e.kind.PaymentSucceeded? || e.kind.PaymentFailed?)
    ensures HandledWell(w, OrderService, e)
  {
    if e.kind.PaymentSucceeded? { SucceededOrderSide(w, e); } else { FailedOrderSide(w, e); }
    ResultOtherSides(w, e);
  }

  lemma NotificationHears(w: World, e: Event)
    requires Hears(w, NotificationService, e)
    ensures HandledWell(w, NotificationService, e)
  {
  }

  lemma HandlesWell(w: World, svc: Service, e: Event)
    requires Hears(w, svc, e) && Balanced(w.s.inventory)
    ensures HandledWell(w, svc, e)
  {
    match svc
    case InventoryService =>
      if e.kind.OrderCreated? { InventoryHearsCreated(w, e); } else { InventoryHearsSettle(w, e); }
    case PaymentService => PaymentHearsReserved(w, e);
    case NotificationService => NotificationHears(w, e);
    case OrderService =>
      if e.kind.InventoryReserved? { OrderHearsReserved(w, e); }
      else if e.kind.InventoryRejected? { OrderHearsRejected(w, e); }
      else { OrderHearsResult(w, e); }
  }

  // ----- every other order -----

  predicate SameOrder(s: State, s': State, o: OrderId) {
    && SameEntry(s.orders.orders, s'.orders.orders, o)
    && SameEntry(s.inventory.reservations, s'.inventory.reservations, o)
    && SameEntry(s.payments.payments, s'.payments.payments, o)
  }

  /** A handler changes the rows of one order, marks one event, and only ever adds to the outboxes. */
  ghost predicate TouchesOnly(s: State, s': State, o: OrderId, id: EventId) {
    && (forall x {:trigger SameOrder(s, s', x)} :: x != o ==> SameOrder(s, s', x))
    && (forall x {:trigger SameMark(s, s', x)} :: x != id ==> SameMark(s, s', x))
    && Extends(s.orders.outbox, s'.orders.outbox)
    && Extends(s.inventory.outbox, s'.inventory.outbox)
    && Extends(s.payments.outbox, s'.payments.outbox)
    && s'.orders.keys == s.orders.keys && s'.flight == s.flight && s'.sent == s.sent
    && s.next <= s'.next
  }

  lemma OrdersTouchOnly(s: State, e: Event)
    requires Handled(s, OrderService, e).Ok? && s.next !in s.orders.outbox && s.next + IDS_PER_EVENT !in s.orders.outbox
    ensures TouchesOnly(s, Handled(s, OrderService, e).db, e.aggregate, e.id)
  {
  }

  lemma InventoryTouchesOnly(s: State, e: Event)
    requires Handled(s, InventoryService, e).Ok? && s.next !in s.inventory.outbox && OrderIdOf(e) == e.aggregate
    ensures TouchesOnly(s, Handled(s, InventoryService, e).db, e.aggregate, e.id)
  {
  }

  lemma PaymentsTouchOnly(s: State, e: Event)
    requires Handled(s, PaymentService, e).Ok? && s.next !in s.payments.outbox && OrderIdOf(e) == e.aggregate
    ensures TouchesOnly(s, Handled(s, PaymentService, e).db, e.aggregate, e.id)
  {
  }

  lemma HandlerTouchesOnly(s: State, svc: Service, e: Event)
    requires Handled(s, svc, e).Ok? && OrderIdOf(e) == e.aggregate
    requires Unused(s, s.next) && Unused(s, s.next + IDS_PER_EVENT)
    ensures TouchesOnly(s, Handled(s, svc, e).db, e.aggregate, e.id)
  {
    match svc
    case OrderService => OrdersTouchOnly(s, e);
    case InventoryService => InventoryTouchesOnly(s, e);
    case PaymentService => PaymentsTouchOnly(s, e);
    case NotificationService =>
  }

  lemma OtherOrder(w: World, s': State, e: Event, o: OrderId)
    requires RowsOk(w) && IdsOk(w.s) && Emitted(w.s, e)
    requires o in w.h && o in w.s.orders.orders && OrderOk(w.s, o, w.h[o])
    requires o != e.aggregate && TouchesOnly(w.s, s', e.aggregate, e.id)
    ensures o in s'.orders.orders && OrderOk(s', o, w.h[o])
  {
    ForeignEvent(w, o, e);
    assert SameOrder(w.s, s', o);
    UndisturbedOrder(w.s, s', o, w.h[o]);
  }

  // ----- the outboxes -----

  predicate Kept(a: Option<EventId>, b: Option<EventId>) {
    a.Some? ==> b == a
  }

  predicate Grows(t: Trace, t': Trace) {
    && t'.created == t.created
    && Kept(t.verdict, t'.verdict) && (t.verdict.Some? ==> t'.granted == t.granted)
    && Kept(t.charge, t'.charge) && Kept(t.settle, t'.settle) && Kept(t.final, t'.final)
  }

  predicate SameRequest(a: Order, b: Order) {
    b == a.(status := b.status, reason := b.reason)
  }

  lemma TraceGrows(w: World, svc: Service, e: Event)
    requires Hears(w, svc, e)
    ensures Grows(w.h[e.aggregate], TraceAfter(w.s, w.h[e.aggregate], svc, e))
  {
  }

  /** The rows behind the identifiers in a trace are rows as they should be. */
  lemma AnnouncedRow(w: World, o: OrderId, id: EventId)
    requires KnownOrder(w, o) && AnnouncedOk(o, w.s.orders.orders[o], w.h[o], w.s.orders) && id < w.s.next
    requires Some(id) == w.h[o].settle || Some(id) == w.h[o].final
    ensures id in w.s.orders.outbox && RowOk(w, OrderService, id)
  {
  }

  lemma VerdictRow(w: World, o: OrderId, id: EventId)
    requires KnownOrder(w, o) && VerdictOk(o, w.s.orders.orders[o], w.h[o], w.s.inventory) && id < w.s.next
    requires Some(id) == w.h[o].verdict
    ensures id in w.s.inventory.outbox && RowOk(w, InventoryService, id)
  {
  }

  lemma ChargeRow(w: World, o: OrderId, id: EventId)
    requires KnownOrder(w, o) && ChargeOk(o, w.s.orders.orders[o], w.h[o], w.s.payments) && id < w.s.next
    requires Some(id) == w.h[o].charge
    ensures id in w.s.payments.outbox && RowOk(w, PaymentService, id)
  {
  }

  /** The identifiers that the order service's handler gives to new rows are those it adds to the trace. */
  lemma OrderRowIds(s: State, e: Event, t: Trace, id: EventId)
    requires Handled(s, OrderService, e).Ok? && e.id !in s.orders.processed
    requires id !in s.orders.outbox && id in Handled(s, OrderService, e).db.orders.outbox
    ensures var t' := TraceAfter(s, t, OrderService, e);
            (Some(id) == t'.settle || Some(id) == t'.final) && id < Handled(s, OrderService, e).db.next
  {
  }

  lemma PaymentRowIds(s: State, e: Event, t: Trace, id: EventId)
    requires Handled(s, PaymentService, e).Ok? && e.id !in s.payments.processed
    requires id !in s.payments.outbox && id in Handled(s, PaymentService, e).db.payments.outbox
    ensures Some(id) == TraceAfter(s, t, PaymentService, e).charge && id < Handled(s, PaymentService, e).db.next
  {
  }

  lemma InventoryRowIds(s: State, e: Event, t: Trace, id: EventId)
    requires Handled(s, InventoryService, e).Ok? && e.id !in s.inventory.processed
    requires id !in s.inventory.outbox && id in Handled(s, InventoryService, e).db.inventory.outbox
    ensures id == s.next && id < Handled(s, InventoryService, e).db.next
    ensures e.kind.OrderCreated? ==> Some(id) == TraceAfter(s, t, InventoryService, e).verdict
  {
  }

  lemma SettleEmits(db: InventoryDb, e: Event, unused: Id)
    requires e.kind.InventoryRelease? || e.kind.InventoryCommit?
    requires Inventory.Handle(db, e, unused).Ok? && unused !in db.outbox
    requires unused in Inventory.Handle(db, e, unused).db.outbox
    ensures var o, tx := OrderIdOf(e), Inventory.Handle(db, e, unused);
            && o in db.reservations && tx.next == unused + IDS_PER_EVENT
            && tx.db.outbox[unused].event ==
               CreateEvent(if e.kind.InventoryRelease? then InventoryReleased else InventoryCommitted, o,
                           OutcomePayload(o, db.reservations[o]), e.correlation, unused)
  {
  }

  lemma SettleEventIsOutcome(o: OrderId, order: Order, r: Reservation, kind: EventType, correlation: Option<Id>,
      id: EventId)
    requires r.itemId == order.itemId && r.quantity == order.quantity && correlation == Some(order.correlation)
    ensures CreateEvent(kind, o, OutcomePayload(o, r), correlation, id) == OutcomeEvent(o, order, kind, id)
  {
  }

  /** The row that settling a reservation adds. */
  lemma SettleRow(w: World, e: Event, w': World)
    requires Hears(w, InventoryService, e) && !e.kind.OrderCreated? && Handled(w.s, InventoryService, e).Ok?
    requires w'.s == Handled(w.s, InventoryService, e).db && w'.h == w.h
    requires w.s.next in w'.s.inventory.outbox
    ensures RowOk(w', InventoryService, w.s.next)
  {
    var o := e.aggregate;
    SettleEmits(w.s.inventory, e, w.s.next);
    var kind := if e.kind.InventoryRelease? then InventoryReleased else InventoryCommitted;
    SettleEventIsOutcome(o, w.s.orders.orders[o], w.s.inventory.reservations[o], kind, e.correlation, w.s.next);
    assert w'.s.inventory.outbox[w.s.next].event == OutcomeEvent(o, w.s.orders.orders[o], kind, w.s.next);
  }

  lemma NewRow(w: World, svc: Service, e: Event, w': World, t: Trace, id: EventId)
    requires KnownOrder(w', e.aggregate) && OrderOk(w'.s, e.aggregate, w'.h[e.aggregate])
    requires Handled(w.s, svc, e).Ok? && w'.s == Handled(w.s, svc, e).db && e.id !in Done(w.s, svc)
    requires w'.h[e.aggregate] == TraceAfter(w.s, t, svc, e)
    requires svc == InventoryService ==> e.kind.OrderCreated?
    requires id in OutboxOf(w'.s, svc) && id !in OutboxOf(w.s, svc)
    ensures RowOk(w', svc, id)
  {
    var o := e.aggregate;
    match svc
    case OrderService => OrderRowIds(w.s, e, t, id); AnnouncedRow(w', o, id);
    case PaymentService => PaymentRowIds(w.s, e, t, id); ChargeRow(w', o, id);
    case InventoryService => InventoryRowIds(w.s, e, t, id); VerdictRow(w', o, id);
    case NotificationService =>
  }

  lemma OtherOutboxes(s: State, svc: Service, e: Event, from: Service)
    requires Handled(s, svc, e).Ok? && from != svc
    ensures OutboxOf(Handled(s, svc, e).db, from) == OutboxOf(s, from)
  {
  }

  // ----- putting the parts together -----

  predicate SameStatic(s: State, s': State, o: OrderId) {
    o in s.orders.orders && o in s'.orders.orders && SameRequest(s.orders.orders[o], s'.orders.orders[o])
  }

  lemma RequestsNeverChange(s: State, svc: Service, e: Event, o: OrderId)
    requires Handled(s, svc, e).Ok? && o in s.orders.orders
    ensures SameStatic(s, Handled(s, svc, e).db, o)
  {
  }

  /** What a handled event changes, as the remaining parts of the invariant need it. */
  ghost predicate HandlingEffect(w: World, w': World, e: Event) {
    && Known(w, e)
    && e.aggregate in w'.h && w'.h == w.h[e.aggregate := w'.h[e.aggregate]]
    && Grows(w.h[e.aggregate], w'.h[e.aggregate])
    && TouchesOnly(w.s, w'.s, e.aggregate, e.id)
    && (forall o {:trigger SameStatic(w.s, w'.s, o)} :: o in w.s.orders.orders ==> SameStatic(w.s, w'.s, o))
  }

  lemma StillKnown(w: World, w': World, e: Event, o: OrderId)
    requires HandlingEffect(w, w', e) && KnownOrder(w, o)
    ensures KnownOrder(w', o) && SameRequest(w.s.orders.orders[o], w'.s.orders.orders[o])
  {
    assert SameStatic(w.s, w'.s, o);
  }

  lemma RowAddedByHandler(w: World, w': World, svc: Service, e: Event, from: Service, id: EventId)
    requires Hears(w, svc, e) && Handled(w.s, svc, e).Ok? && KnownOrder(w', e.aggregate)
    requires w'.h == w.h[e.aggregate := w'.h[e.aggregate]]
    requires w'.s == Handled(w.s, svc, e).db && w'.h[e.aggregate] == TraceAfter(w.s, w.h[e.aggregate], svc, e)
    requires OrderOk(w'.s, e.aggregate, w'.h[e.aggregate])
    requires id in OutboxOf(w'.s, from) && id !in OutboxOf(w.s, from)
    ensures RowOk(w', from, id)
  {
    if from != svc {
      OtherOutboxes(w.s, svc, e, from);
    } else if svc == InventoryService && !e.kind.OrderCreated? {
      InventoryRowIds(w.s, e, w.h[e.aggregate], id);
      SettleRow(w, e, w');
    } else {
      NewRow(w, svc, e, w', w.h[e.aggregate], id);
    }
  }

  lemma RowsKept(w: World, w': World, svc: Service, e: Event)
    requires RowsOk(w) && Hears(w, svc, e) && Handled(w.s, svc, e).Ok? && HandlingEffect(w, w', e)
    requires w'.s == Handled(w.s, svc, e).db && w'.h[e.aggregate] == TraceAfter(w.s, w.h[e.aggregate], svc, e)
    requires OrderOk(w'.s, e.aggregate, w'.h[e.aggregate])
    ensures RowsOk(w')
  {
    StillKnown(w, w', e, e.aggregate);
    forall from, id | id in OutboxOf(w'.s, from) ensures RowOk(w', from, id) {
      if id in OutboxOf(w.s, from) {
        assert RowOk(w, from, id);
        StillKnown(w, w', e, OutboxOf(w.s, from)[id].event.aggregate);
        KeptRow(w, w', e, from, id);
      } else {
        RowAddedByHandler(w, w', svc, e, from, id);
      }
    }
  }

  /** A row that was there before is still as it should be. */
  lemma KeptRow(w: World, w': World, e: Event, from: Service, id: EventId)
    requires TouchesOnly(w.s, w'.s, e.aggregate, e.id)
    requires e.aggregate in w.h && e.aggregate in w'.h && w'.h == w.h[e.aggregate := w'.h[e.aggregate]]
    requires Grows(w.h[e.aggregate], w'.h[e.aggregate])
    requires id in OutboxOf(w.s, from) && RowOk(w, from, id)
    requires var o := OutboxOf(w.s, from)[id].event.aggregate;
             KnownOrder(w', o) && SameRequest(w.s.orders.orders[o], w'.s.orders.orders[o])
    ensures id in OutboxOf(w'.s, from) && RowOk(w', from, id)
  {
  }

  lemma OrdersKept(w: World, w': World, e: Event)
    requires RowsOk(w) && IdsOk(w.s) && OrdersOk(w) && Emitted(w.s, e) && HandlingEffect(w, w', e)
    requires forall o {:trigger KnownOrder(w, o)} :: o in w.h || o in w.s.orders.orders ==> KnownOrder(w, o)
    requires e.aggregate in w'.s.orders.orders && OrderOk(w'.s, e.aggregate, w'.h[e.aggregate])
    ensures OrdersOk(w')
  {
    forall o | o in w'.h && o in w'.s.orders.orders ensures OrderOk(w'.s, o, w'.h[o]) {
      if o != e.aggregate {
        assert KnownOrder(w, o);
        assert OrderOk(w.s, o, w.h[o]);
        OtherOrder(w, w'.s, e, o);
      }
    }
  }

  lemma KnownOrdersKept(w: World, w': World, e: Event)
    requires KnownOrders(w) && HandlingEffect(w, w', e)
    requires e.id in w'.s.notes && e.id !in w.s.notes ==> w.h[e.aggregate].final == Some(e.id)
    ensures KnownOrders(w')
  {
    var s, s' := w.s, w'.s;
    forall o | o in w'.h || o in s'.orders.orders || o in s'.inventory.reservations || o in s'.payments.payments
      ensures KnownOrder(w', o)
    {
      assert o != e.aggregate ==> SameOrder(s, s', o);
      assert KnownOrder(w, o);
      StillKnown(w, w', e, o);
    }
    forall k | k in s'.orders.keys
      ensures s'.orders.keys[k] in s'.orders.orders && s'.orders.orders[s'.orders.keys[k]].key == k {
      assert SameStatic(s, s', s.orders.keys[k]);
    }
    forall o | o in s'.orders.orders ensures KeyOk(s'.orders, o) {
      assert o != e.aggregate ==> SameOrder(s, s', o);
      assert KeyOk(s.orders, o) && SameStatic(s, s', o);
    }
    forall id | id in s'.notes ensures NoteKnown(w', id) {
      NoteStillKnown(w, w', e, id);
    }
  }

  lemma NoteStillKnown(w: World, w': World, e: Event, id: EventId)
    requires HandlingEffect(w, w', e) && id in w'.s.notes
    requires id in w.s.notes ==> NoteKnown(w, id)
    requires e.id in w'.s.notes && e.id !in w.s.notes ==> w.h[e.aggregate].final == Some(e.id)
    ensures NoteKnown(w', id)
  {
    if id in w.s.notes {
      var o :| FinalOf(w, id, o);
      assert FinalOf(w', id, o);
    } else {
      assert id != e.id ==> SameMark(w.s, w'.s, id);
      assert FinalOf(w', id, e.aggregate);
    }
  }

  lemma IdsKept(w: World, w': World, svc: Service, e: Event)
    requires RowsOk(w) && IdsOk(w.s) && HandlingEffect(w, w', e) && Emitted(w.s, e)
    requires Handled(w.s, svc, e).Ok? && w'.s == Handled(w.s, svc, e).db && e.id !in Done(w.s, svc)
    ensures IdsOk(w'.s)
  {
    var s, s' := w.s, w'.s;
    assert RowOk(w, Producer(e.kind), e.id);
    forall id ensures Apart(s', id) {
      assert Apart(s, id);
      NewIdsAreFresh(w, svc, e, id);
    }
    forall from, id | id in Done(s', from) ensures Old(s', id) {
      if id != e.id {
        assert SameMark(s, s', id);
        assert id in Done(s, from);
      }
      assert Old(s, id);
    }
    forall id | id in s'.sent ensures Old(s', id) {
      assert Old(s, id);
    }
  }

  lemma NewIdsAreFresh(w: World, svc: Service, e: Event, id: EventId)
    requires RowsOk(w) && Apart(w.s, id)
    requires Handled(w.s, svc, e).Ok? && e.id !in Done(w.s, svc)
    ensures Apart(Handled(w.s, svc, e).db, id)
  {
    var s' := Handled(w.s, svc, e).db;
    forall from | from != svc ensures OutboxOf(s', from) == OutboxOf(w.s, from) {
      OtherOutboxes(w.s, svc, e, from);
    }
    if id in OutboxOf(s', svc) && id !in OutboxOf(w.s, svc) {
      assert id >= w.s.next by {
        var t := Trace(0, None, false, None, None, None, false);
        match svc
        case OrderService => OrderRowIds(w.s, e, t, id);
        case PaymentService => PaymentRowIds(w.s, e, t, id);
        case InventoryService => InventoryRowIds(w.s, e, t, id);
        case NotificationService =>
      }
      CounterNotInOutbox(w, id);
    }
    assert OutboxOf(s', OrderService) == s'.orders.outbox && OutboxOf(s', InventoryService) == s'.inventory.outbox
        && OutboxOf(s', PaymentService) == s'.payments.outbox;
  }

  lemma CounterNotInOutbox(w: World, id: Id)
    requires RowsOk(w) && id >= w.s.next
    ensures forall svc :: id !in OutboxOf(w.s, svc)
  {
    forall svc ensures id !in OutboxOf(w.s, svc) {
      assert id in OutboxOf(w.s, svc) ==> RowOk(w, svc, id);
    }
  }

  lemma EmittedIsHeard(w: World, svc: Service, e: Event)
    requires RowsOk(w) && IdsOk(w.s) && OrdersOk(w)
    requires Emitted(w.s, e) && Bound(svc, e.kind) && e.id !in Done(w.s, svc)
    ensures Hears(w, svc, e)
  {
    EmittedIsKnown(w, e);
    assert Apart(w.s, e.id);
    CounterIsUnused(w, w.s.next);
    CounterIsUnused(w, w.s.next + IDS_PER_EVENT);
  }

  lemma HandlingHolds(w: World, w': World, svc: Service, e: Event)
    requires Hears(w, svc, e) && Handled(w.s, svc, e).Ok?
    requires w' == World(Handled(w.s, svc, e).db, TracesAfterHandling(w, svc, e))
    ensures HandlingEffect(w, w', e)
  {
    TraceGrows(w, svc, e);
    HandlerTouchesOnly(w.s, svc, e);
    forall o | o in w.s.orders.orders ensures SameStatic(w.s, w'.s, o) {
      RequestsNeverChange(w.s, svc, e, o);
    }
  }

  lemma StockKept(s: State, svc: Service, e: Event)
    requires Balanced(s.inventory) && Handled(s, svc, e).Ok?
    ensures Balanced(Handled(s, svc, e).db.inventory)
  {
    if svc == InventoryService {
      HandleConserves(s.inventory, e, s.next);
    }
  }

  lemma NewNoteIsFinal(w: World, svc: Service, e: Event)
    requires Hears(w, svc, e) && Handled(w.s, svc, e).Ok?
    ensures e.id in Handled(w.s, svc, e).db.notes && e.id !in w.s.notes ==> w.h[e.aggregate].final == Some(e.id)
  {
  }

  /** Handling an emitted event never fails and keeps `Core`. */
  lemma HandlingKeepsCore(w: World, svc: Service, e: Event)
    requires Core(w) && Emitted(w.s, e) && Bound(svc, e.kind)
    ensures Handled(w.s, svc, e).Ok?
    ensures Core(World(Handled(w.s, svc, e).db, TracesAfterHandling(w, svc, e)))
  {
    if e.id in Done(w.s, svc) {
      HandledTwice(w.s, svc, e);
    } else {
      EmittedIsHeard(w, svc, e);
      HandlesWell(w, svc, e);
      FreshHandlingKeepsCore(w, svc, e, World(Handled(w.s, svc, e).db, TracesAfterHandling(w, svc, e)));
    }
  }

  /** A redelivered event changes nothing. */
  lemma HandledTwice(s: State, svc: Service, e: Event)
    requires e.id in Done(s, svc)
    ensures Handled(s, svc, e) == Ok(s, s.next)
  {
  }

  lemma FreshHandlingKeepsCore(w: World, svc: Service, e: Event, w': World)
    requires Core(w) && Emitted(w.s, e) && Hears(w, svc, e) && HandledWell(w, svc, e)
    requires w' == World(Handled(w.s, svc, e).db, TracesAfterHandling(w, svc, e))
    ensures Core(w')
  {
    HandlingHolds(w, w', svc, e);
    RowsKept(w, w', svc, e);
    OrdersKept(w, w', e);
    NewNoteIsFinal(w, svc, e);
    KnownOrdersKept(w, w', e);
    IdsKept(w, w', svc, e);
    StockKept(w.s, svc, e);
  }
}
