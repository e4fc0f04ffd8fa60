/** What the four services agree on: in every reachable state, and once nothing is left to deliver. */
module Agreement {
  import opened Events
  import opened Sums
  import opened StateMachine
  import opened Orders
  import opened Inventory
  import opened Payments
  import opened Notifications
  import opened Ledger
  import opened Saga
  import opened History
  import opened Invariant
  import opened Handling
  import opened Steps

  /** The state that a run from the empty system ends in, with the record of its past. */
  function Reached(ls: seq<Label>): World
    requires IsRun(START, ls)
  {
    Exec(START, ls)
  }

  // ----- safety: in every reachable state -----

  /** No delivery is ever answered with an error by a handler: its order exists and its payload is complete. */
  lemma HandlersNeverRaise(ls: seq<Label>, c: Copy)
    requires IsRun(START, ls) && c in Reached(ls).s.flight
    ensures Handled(Reached(ls).s, c.dest, c.event).Ok?
  {
    ReachableHolds(ls);
    var w := Reached(ls);
    assert CopyOk(w.s, c);
    HandlingKeepsCore(w, c.dest, c.event);
  }

  /** An accepted event waits in a queue of each bound service until that service has processed it. */
  lemma NoEventIsLost(ls: seq<Label>, source: Service, id: EventId, svc: Service)
    requires IsRun(START, ls)
    requires var s := Reached(ls).s;
             && id in OutboxOf(s, source) && OutboxOf(s, source)[id].published
             && Bound(svc, OutboxOf(s, source)[id].event.kind)
    ensures var s := Reached(ls).s;
            id in Done(s, svc) || exists c :: c in s.flight && c.dest == svc && c.event == OutboxOf(s, source)[id].event
  {
    ReachableHolds(ls);
    var w := Reached(ls);
    assert DeliveryOk(w.s, source, id);
    assert Accounted(w.s, svc, id);
    if id !in Done(w.s, svc) {
      var c :| IsCopy(w.s, svc, id, c);
      assert CopyOk(w.s, c);
      assert RowOk(w, source, id) && RowOk(w, Producer(c.event.kind), id);
      assert Apart(w.s, id);
    }
  }

  /** Which of an order's facts each event type carries. */
  predicate CarriesStock(kind: EventType) {
    kind != OrderFailed
  }

  predicate CarriesCustomer(kind: EventType) {
    kind !in {InventoryCommit, InventoryRelease, InventoryCommitted, InventoryReleased}
  }

  predicate CarriesAmount(kind: EventType) {
    CarriesStock(kind) && CarriesCustomer(kind)
  }

  predicate CarriesReservation(kind: EventType) {
    kind in {InventoryReserved, PaymentSucceeded, PaymentFailed}
  }

  /** The reason that an event gives, and why. */
  predicate ReasonAgrees(order: Order, e: Event) {
    match e.kind
    case OrderFailed => e.payload.reason.Some? && e.payload.reason == order.reason
    case InventoryRejected => e.payload.reason in {Some("item_not_found"), Some("insufficient_stock")}
    case PaymentFailed | InventoryRelease => e.payload.reason == Some("simulated_provider_decline")
    case _ => e.payload.reason == None
  }

  /** An event's type agrees with what has become of its order. */
  predicate KindAgrees(s: State, order: Order, e: Event) {
    match e.kind
    case OrderCompleted | InventoryCommit | InventoryCommitted => order.status == COMPLETED
    case InventoryRelease | InventoryReleased => order.status == PAYMENT_FAILED
    case OrderFailed => order.status in {REJECTED, PAYMENT_FAILED}
    case InventoryReserved => order.status != REJECTED
    case InventoryRejected => order.status in {PENDING, REJECTED} && e.aggregate !in s.inventory.reservations
    case PaymentSucceeded =>
      && !ShouldFailPayment(order.customerId, order.amountCents)
      && e.aggregate in s.payments.payments && s.payments.payments[e.aggregate].status == SUCCEEDED
    case PaymentFailed =>
      && ShouldFailPayment(order.customerId, order.amountCents)
      && e.aggregate in s.payments.payments && s.payments.payments[e.aggregate].status == FAILED
    case OrderCreated => true
    case Other(_) => false
  }

  /** The fields of an event, apart from its reason. */
  predicate FieldsAgree(s: State, order: Order, e: Event) {
    var p := e.payload;
    && e.correlation == Some(order.correlation)
    && p.orderId == Some(e.aggregate)
    && p.itemId == (if CarriesStock(e.kind) then Some(order.itemId) else None)
    && p.quantity == (if CarriesStock(e.kind) then Some(order.quantity) else None)
    && p.customerId == (if CarriesCustomer(e.kind) then Some(order.customerId) else None)
    && p.amountCents == (if CarriesAmount(e.kind) then Some(order.amountCents) else None)
    && p.reservationStatus == (if CarriesReservation(e.kind) then Some("RESERVED") else None)
    && (p.providerReference.Some? <==> e.kind.PaymentSucceeded?)
    && (e.kind.PaymentSucceeded? ==>
          && e.aggregate in s.payments.payments
          && p.providerReference == s.payments.payments[e.aggregate].providerReference)
  }

  /** Field by field: what an event says is what its order says, and it says nothing else. */
  predicate Tells(s: State, e: Event) {
    && e.aggregate in s.orders.orders
    && var order := s.orders.orders[e.aggregate];
    FieldsAgree(s, order, e) && ReasonAgrees(order, e) && KindAgrees(s, order, e)
  }

  lemma FieldsTell(w: World, e: Event)
    requires Known(w, e) && Emitted(w.s, e)
    ensures FieldsAgree(w.s, w.s.orders.orders[e.aggregate], e)
  {
  }

  lemma ReasonTells(w: World, e: Event)
    requires Known(w, e)
    ensures ReasonAgrees(w.s.orders.orders[e.aggregate], e)
  {
  }

  lemma KindTells(w: World, e: Event)
    requires Known(w, e)
    requires e.kind.InventoryReleased? || e.kind.InventoryCommitted? ==>
               (e.kind.InventoryReleased? <==> Declines(w.s.orders.orders[e.aggregate]))
    ensures KindAgrees(w.s, w.s.orders.orders[e.aggregate], e)
  {
  }

  lemma EmittedTells(w: World, e: Event)
    requires OrdersOk(w) && RowsOk(w) && Emitted(w.s, e)
    ensures Tells(w.s, e)
  {
    EmittedIsKnown(w, e);
    assert RowOk(w, Producer(e.kind), e.id);
    FieldsTell(w, e);
    ReasonTells(w, e);
    KindTells(w, e);
  }

  /** Every event in an outbox carries its order's correlation, item, quantity, customer and amount, as far as its
      type carries them, with the right reason, and its type agrees with the order's status. */
  lemma EventsAgreeWithOrders(ls: seq<Label>, source: Service, id: EventId)
    requires IsRun(START, ls) && id in OutboxOf(Reached(ls).s, source)
    ensures OutboxOf(Reached(ls).s, source)[id].event.id == id
    ensures Tells(Reached(ls).s, OutboxOf(Reached(ls).s, source)[id].event)
  {
    ReachableHolds(ls);
    assert RowOk(Reached(ls), source, id);
    EmittedTells(Reached(ls), OutboxOf(Reached(ls).s, source)[id].event);
  }

  /** So does every copy in any main, retry or dead-letter queue. */
  lemma CopiesAgreeWithOrders(ls: seq<Label>, c: Copy)
    requires IsRun(START, ls) && c in Reached(ls).s.flight
    ensures Tells(Reached(ls).s, c.event)
  {
    ReachableHolds(ls);
    assert CopyOk(Reached(ls).s, c);
    EmittedTells(Reached(ls), c.event);
  }

  /** What the inventory and payment tables may say about an order, given its status. */
  predicate RowsFollowStatus(s: State, o: OrderId)
    requires o in s.orders.orders
  {
    var order := s.orders.orders[o];
    && (o in s.inventory.reservations ==>
          var r := s.inventory.reservations[o];
          && r.itemId == order.itemId && r.quantity == order.quantity
          && (order.status !in TERMINAL ==> r.status == RESERVED)
          && (r.status == COMMITTED ==> order.status == COMPLETED)
          && (r.status == RELEASED ==> order.status == PAYMENT_FAILED))
    && (o in s.payments.payments ==>
          var p := s.payments.payments[o];
          && p.customerId == order.customerId && p.amountCents == order.amountCents
          && (p.status == FAILED <==> ShouldFailPayment(order.customerId, order.amountCents))
          && (p.status == SUCCEEDED ==> p.failureReason == None && p.providerReference.Some?)
          && (p.status == FAILED ==>
                p.providerReference == None && p.failureReason == Some("simulated_provider_decline"))
          && (p.status == SUCCEEDED ==>
                && order.status !in {REJECTED, PAYMENT_FAILED}
                && (o in s.inventory.reservations ==> s.inventory.reservations[o].status != RELEASED))
          && (p.status == FAILED ==>
                && order.status !in {REJECTED, COMPLETED}
                && (o in s.inventory.reservations ==> s.inventory.reservations[o].status != COMMITTED)))
    && (order.reason.Some? <==> order.status in {REJECTED, PAYMENT_FAILED})
    && (order.status == PAYMENT_FAILED ==> order.reason == Some("simulated_provider_decline"))
    && (order.status == REJECTED ==> order.reason in {Some("item_not_found"), Some("insufficient_stock")})
    && (order.status == COMPLETED ==> o in s.payments.payments && s.payments.payments[o].status == SUCCEEDED)
    && (order.status == PAYMENT_FAILED ==> o in s.payments.payments && s.payments.payments[o].status == FAILED)
    && (order.status == REJECTED ==> o !in s.payments.payments && o !in s.inventory.reservations)
  }

  lemma OrderRowsFollowStatus(s: State, o: OrderId, t: Trace)
    requires o in s.orders.orders && OrderOk(s, o, t)
    ensures RowsFollowStatus(s, o)
    ensures o in s.payments.payments ==> t.granted && (t.erased || o in s.inventory.reservations)
    ensures s.orders.orders[o].status !in TERMINAL && t.granted && !t.erased ==>
              o in s.inventory.reservations && s.inventory.reservations[o].status == RESERVED
  {
  }

  /** A reservation is held until the order is decided, and then settled the way it was decided.
      A payment is only ever made for an order that was granted a reservation. */
  lemma HeldUntilDecided(ls: seq<Label>, o: OrderId)
    requires IsRun(START, ls) && o in Reached(ls).s.orders.orders
    ensures var w := Reached(ls);
            && RowsFollowStatus(w.s, o)
            && o in w.h
            && (o in w.s.payments.payments ==> w.h[o].granted && (w.h[o].erased || o in w.s.inventory.reservations))
            && (w.s.orders.orders[o].status !in TERMINAL && w.h[o].granted && !w.h[o].erased ==>
                  o in w.s.inventory.reservations && w.s.inventory.reservations[o].status == RESERVED)
  {
    ReachableHolds(ls);
    var w := Reached(ls);
    assert KnownOrder(w, o);
    assert OrderOk(w.s, o, w.h[o]);
    OrderRowsFollowStatus(w.s, o, w.h[o]);
  }

  /** Reservations and payments are never made for anything but an order. */
  lemma NoStrayRows(ls: seq<Label>, o: OrderId)
    requires IsRun(START, ls)
    requires o in Reached(ls).s.inventory.reservations || o in Reached(ls).s.payments.payments
    ensures o in Reached(ls).s.orders.orders
  {
    ReachableHolds(ls);
    assert KnownOrder(Reached(ls), o);
  }

  /** A notification tells the outcome of a terminal order, in these words, to the customer who placed it. */
  predicate TellsOutcome(s: State, n: Notification) {
    && n.order in s.orders.orders
    && var order := s.orders.orders[n.order];
    && order.status in TERMINAL
    && n.customerId == order.customerId
    && (n.kind == ORDER_CONFIRMED <==> order.status == COMPLETED)
    && (order.status == COMPLETED ==>
          n.message == [Text("Order "), Quoted(n.order), Text(" was completed successfully.")])
    && (order.status != COMPLETED ==>
          && order.reason.Some?
          && n.message == [Text("Order "), Quoted(n.order), Text(" failed: " + order.reason.value + ".")])
  }

  lemma NoteTellsOutcome(w: World, id: EventId)
    requires Core(w) && id in w.s.notes
    ensures TellsOutcome(w.s, w.s.notes[id])
    ensures w.s.notes[id].order in w.h && w.h[w.s.notes[id].order].final == Some(id)
  {
    assert NoteKnown(w, id);
    var o :| FinalOf(w, id, o);
    assert KnownOrder(w, o);
    assert OrderOk(w.s, o, w.h[o]);
  }

  /** Every notification is right, and no order has two. */
  lemma NotificationsAgree(ls: seq<Label>, a: EventId, b: EventId)
    requires IsRun(START, ls) && a in Reached(ls).s.notes && b in Reached(ls).s.notes
    ensures var notes := Reached(ls).s.notes;
            && TellsOutcome(Reached(ls).s, notes[a])
            && (notes[a].order == notes[b].order ==> a == b)
  {
    ReachableHolds(ls);
    NoteTellsOutcome(Reached(ls), a);
    NoteTellsOutcome(Reached(ls), b);
  }

  // ----- agreement: when nothing is left to deliver -----

  /** Every outbox row is published and every queue of every service is empty. */
  ghost predicate Quiescent(s: State) {
    && (forall svc, id :: id in OutboxOf(s, svc) ==> OutboxOf(s, svc)[id].published)
    && s.flight == multiset{}
  }

  lemma QuietMeansProcessed(s: State, source: Service, id: EventId, svc: Service)
    requires Transport(s) && Quiescent(s)
    requires id in OutboxOf(s, source) && Bound(svc, OutboxOf(s, source)[id].event.kind)
    ensures id in Done(s, svc)
  {
    assert DeliveryOk(s, source, id);
    assert Accounted(s, svc, id);
    assert forall c :: !IsCopy(s, svc, id, c);
  }

  /** The order has run its course. */
  predicate Finished(s: State, t: Trace) {
    && t.verdict.Some? && t.verdict.value in s.orders.processed
    && (t.granted ==> t.charge.Some? && Paid(t, s.orders) && t.settle.Some? && t.settle.value in s.inventory.processed)
    && t.final.Some? && t.final.value in s.notes
  }

  lemma QuietMeansFinished(w: World, o: OrderId)
    requires Inv(w) && Quiescent(w.s) && o in w.s.orders.orders
    ensures o in w.h && OrderOk(w.s, o, w.h[o]) && Finished(w.s, w.h[o])
  {
    assert KnownOrder(w, o);
    assert OrderOk(w.s, o, w.h[o]);
    var s, t := w.s, w.h[o];
    QuietMeansProcessed(s, OrderService, t.created, InventoryService);
    QuietMeansProcessed(s, InventoryService, t.verdict.value, OrderService);
    if t.granted {
      QuietMeansProcessed(s, InventoryService, t.verdict.value, PaymentService);
      QuietMeansProcessed(s, PaymentService, t.charge.value, OrderService);
      QuietMeansProcessed(s, OrderService, t.settle.value, InventoryService);
    }
    QuietMeansProcessed(s, OrderService, t.final.value, NotificationService);
  }

  /** The three services tell the same story about a finished order. */
  predicate Agree(s: State, o: OrderId, erased: bool)
    requires o in s.orders.orders
  {
    var status := s.orders.orders[o].status;
    var declined := ShouldFailPayment(s.orders.orders[o].customerId, s.orders.orders[o].amountCents);
    && status in TERMINAL
    && (status == COMPLETED <==> o in s.payments.payments && s.payments.payments[o].status == SUCCEEDED)
    && (status == PAYMENT_FAILED <==> o in s.payments.payments && s.payments.payments[o].status == FAILED)
    && (status == REJECTED <==> o !in s.payments.payments)
    && (status != REJECTED ==> (status == PAYMENT_FAILED <==> declined))
    && (erased ==> o !in s.inventory.reservations && status != REJECTED)
    && (!erased ==>
          && (status == COMPLETED <==> o in s.inventory.reservations && s.inventory.reservations[o].status == COMMITTED)
          && (status == PAYMENT_FAILED <==>
                o in s.inventory.reservations && s.inventory.reservations[o].status == RELEASED)
          && (status == REJECTED <==> o !in s.inventory.reservations))
  }

  lemma FinishedOrdersAgree(s: State, o: OrderId, t: Trace)
    requires o in s.orders.orders && OrderOk(s, o, t) && Finished(s, t)
    ensures Agree(s, o, t.erased)
  {
  }

  /** The quantity of each order on an item that completed and was not reset away. */
  function Sales(w: World, itemId: string): map<nat, int> {
    map o | o in w.s.orders.orders ::
      var order := w.s.orders.orders[o];
      if order.itemId == itemId && order.status == COMPLETED && o in w.h && !w.h[o].erased then order.quantity else 0
  }

  lemma SoldIsSales(w: World, itemId: string)
    requires Inv(w) && Quiescent(w.s)
    ensures Held(w.s.inventory.reservations, itemId, RESERVED) == 0
    ensures Held(w.s.inventory.reservations, itemId, COMMITTED) == Sum(Sales(w, itemId))
  {
    var rs := w.s.inventory.reservations;
    forall o
      ensures At(Shares(rs, itemId, RESERVED), o) == 0
      ensures At(Shares(rs, itemId, COMMITTED), o) == At(Sales(w, itemId), o)
    {
      if o in rs {
        assert KnownOrder(w, o);
      }
      if o in w.s.orders.orders {
        QuietMeansFinished(w, o);
        FinishedOrdersAgree(w.s, o, w.h[o]);
        OrderRowsFollowStatus(w.s, o, w.h[o]);
      }
    }
    SumAgree(Shares(rs, itemId, RESERVED), map[]);
    SumAgree(Shares(rs, itemId, COMMITTED), Sales(w, itemId));
  }

  /** Quiescent agreement: with nothing left to deliver, the services agree on every order, every
      order has exactly one notification, and the stock of every item is exactly accounted for. */
  lemma QuiescentAgreement(ls: seq<Label>)
    requires IsRun(START, ls) && Quiescent(Reached(ls).s)
    ensures var w := Reached(ls);
            && (forall o :: o in w.s.orders.orders ==> o in w.h && Agree(w.s, o, w.h[o].erased))
            && (forall o :: o in w.s.orders.orders ==> exists id :: id in w.s.notes && w.s.notes[id].order == o)
            && (forall i :: i in w.s.inventory.items ==>
                  w.s.inventory.items[i].reserved == 0 && w.s.inventory.items[i].sold == Sum(Sales(w, i)))
  {
    ReachableHolds(ls);
    var w := Reached(ls);
    forall o | o in w.s.orders.orders
      ensures o in w.h && Agree(w.s, o, w.h[o].erased)
      ensures exists id :: id in w.s.notes && w.s.notes[id].order == o
    {
      QuietMeansFinished(w, o);
      FinishedOrdersAgree(w.s, o, w.h[o]);
      var id := w.h[o].final.value;
      assert id in w.s.notes && w.s.notes[id].order == o;
    }
    forall i | i in w.s.inventory.items
      ensures w.s.inventory.items[i].reserved == 0 && w.s.inventory.items[i].sold == Sum(Sales(w, i))
    {
      assert ItemBalanced(w.s.inventory, i);
      SoldIsSales(w, i);
    }
  }
}
