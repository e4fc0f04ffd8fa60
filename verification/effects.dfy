/** The handlers' decision tables: for every event, well formed or not, and every database, what each service's
    transaction leaves behind, written out down to the rows and the fields of what it emits. */
module Effects {
  import opened Events
  import opened StateMachine
  import Orders
  import Inventory
  import Payments
  import Notifications

  // ----- the order service -----

  lemma OrderRepeat(db: Orders.OrderDb, e: Event, unused: Id)
    ensures e.id in db.processed ==> Orders.Handle(db, e, unused) == Ok(db, unused)
    ensures e.id !in db.processed && e.aggregate !in db.orders <==> Orders.Handle(db, e, unused) == Raised
  {
  }

  /** A terminal order, an event of no concern to it, or inventory news about an order that holds a reservation. */
  lemma OrderUnmoved(db: Orders.OrderDb, e: Event, unused: Id)
    requires e.id !in db.processed && e.aggregate in db.orders
    requires var status := db.orders[e.aggregate].status;
             || status in {COMPLETED, REJECTED, PAYMENT_FAILED}
             || !(e.kind.InventoryReserved? || e.kind.InventoryRejected?
                 || e.kind.PaymentSucceeded? || e.kind.PaymentFailed?)
             || (status == INVENTORY_RESERVED && (e.kind.InventoryReserved? || e.kind.InventoryRejected?))
    ensures Orders.Handle(db, e, unused) ==
              Ok(Orders.OrderDb(db.orders, db.keys, db.processed + {e.id}, db.outbox), unused)
  {
  }

  lemma OrderReserved(db: Orders.OrderDb, e: Event, unused: Id)
    requires e.id !in db.processed && e.aggregate in db.orders
    requires db.orders[e.aggregate].status == PENDING && e.kind.InventoryReserved?
    ensures var o, order := e.aggregate, db.orders[e.aggregate];
            Orders.Handle(db, e, unused) == Ok(
              Orders.OrderDb(
                db.orders[o := order.(status := INVENTORY_RESERVED, reason := e.payload.reason)],
                db.keys, db.processed + {e.id}, db.outbox),
              unused)
  {
  }

  lemma OrderRejected(db: Orders.OrderDb, e: Event, unused: Id)
    requires e.id !in db.processed && e.aggregate in db.orders
    requires db.orders[e.aggregate].status == PENDING && e.kind.InventoryRejected?
    ensures var o, order := e.aggregate, db.orders[e.aggregate];
            var reason := if e.payload.reason.Some? then e.payload.reason.value else "inventory_rejected";
            var failed := Payload(Some(o), None, None, Some(order.customerId), None, Some(reason), None, None);
            Orders.Handle(db, e, unused) == Ok(
              Orders.OrderDb(
                db.orders[o := order.(status := REJECTED, reason := e.payload.reason)],
                db.keys, db.processed + {e.id},
                db.outbox[unused := Row(Event(unused, OrderFailed, o, Some(order.correlation), failed), 0, false)]),
              unused + 2)
  {
  }

  lemma OrderPaid(db: Orders.OrderDb, e: Event, unused: Id)
    requires e.id !in db.processed && e.aggregate in db.orders
    requires db.orders[e.aggregate].status in {PENDING, INVENTORY_RESERVED} && e.kind.PaymentSucceeded?
    ensures var o, order := e.aggregate, db.orders[e.aggregate];
            var commit := Payload(Some(o), Some(order.itemId), Some(order.quantity), None, None, None, None, None);
            var completed := Payload(Some(o), Some(order.itemId), Some(order.quantity), Some(order.customerId),
                                     Some(order.amountCents), None, None, None);
            Orders.Handle(db, e, unused) == Ok(
              Orders.OrderDb(
                db.orders[o := order.(status := COMPLETED, reason := e.payload.reason)],
                db.keys, db.processed + {e.id},
                db.outbox[unused := Row(Event(unused, InventoryCommit, o, Some(order.correlation), commit), 0, false)]
                         [unused + 2 :=
                           Row(Event(unused + 2, OrderCompleted, o, Some(order.correlation), completed), 0, false)]),
              unused + 4)
  {
  }

  lemma OrderDeclined(db: Orders.OrderDb, e: Event, unused: Id)
    requires e.id !in db.processed && e.aggregate in db.orders
    requires db.orders[e.aggregate].status in {PENDING, INVENTORY_RESERVED} && e.kind.PaymentFailed?
    ensures var o, order := e.aggregate, db.orders[e.aggregate];
            var reason := if e.payload.reason.Some? then e.payload.reason.value else "payment_failed";
            var release :=
              Payload(Some(o), Some(order.itemId), Some(order.quantity), None, None, Some(reason), None, None);
            var failed := Payload(Some(o), None, None, Some(order.customerId), None, Some(reason), None, None);
            Orders.Handle(db, e, unused) == Ok(
              Orders.OrderDb(
                db.orders[o := order.(status := PAYMENT_FAILED, reason := e.payload.reason)],
                db.keys, db.processed + {e.id},
                db.outbox[unused := Row(Event(unused, InventoryRelease, o, Some(order.correlation), release), 0, false)]
                         [unused + 2 :=
                           Row(Event(unused + 2, OrderFailed, o, Some(order.correlation), failed), 0, false)]),
              unused + 4)
  {
  }

  /** `create_order` with a key that is not known yet. */
  lemma OrderCreation(db: Orders.OrderDb, r: Orders.Request, key: string, unused: Id)
    requires key !in db.keys
    ensures var correlation := unused + 1;
            var created := Payload(Some(unused), Some(r.itemId), Some(r.quantity),
                                   Some(r.customerId), Some(r.amountCents),
                                   None, None, None);
            Orders.Create(db, r, key, unused) == Orders.Creation(
              Orders.OrderDb(
                db.orders[unused :=
                  Orders.Order(key, r.customerId, r.itemId, r.quantity, r.amountCents, PENDING, None, correlation)],
                db.keys[key := unused], db.processed,
                db.outbox[unused + 2 :=
                  Row(Event(unused + 2, OrderCreated, unused, Some(correlation), created), 0, false)]),
              unused, true, unused + 4)
  {
  }

  // ----- the inventory service -----

  /** The order that an event is about, for the services that trust its payload first. */
  predicate About(e: Event, o: OrderId) {
    o == if e.payload.orderId.Some? then e.payload.orderId.value else e.aggregate
  }

  function Passed(e: Event, unused: Id): Option<Id> {
    if e.correlation.Some? then e.correlation else Some(unused + 1)
  }

  lemma StockReserved(db: Inventory.InventoryDb, e: Event, o: OrderId, itemId: string, quantity: int, unused: Id)
    requires About(e, o) && e.id !in db.processed && e.kind.OrderCreated? && o !in db.reservations
    requires e.payload.itemId == Some(itemId) && e.payload.quantity == Some(quantity)
    requires itemId in db.items && quantity > 0 && db.items[itemId].available >= quantity
    ensures var item := db.items[itemId];
            var answer := Event(unused, InventoryReserved, o, Passed(e, unused),
                                e.payload.(reservationStatus := Some("RESERVED")));
            Inventory.Handle(db, e, unused) == Ok(
              Inventory.InventoryDb(
                db.items[itemId := Inventory.Item(item.available - quantity, item.reserved + quantity, item.sold)],
                db.reservations[o := Inventory.Reservation(itemId, quantity, Inventory.RESERVED)],
                db.processed + {e.id},
                db.outbox[unused := Row(answer, 0, false)]),
              unused + 2)
  {
  }

  lemma StockRefused(db: Inventory.InventoryDb, e: Event, o: OrderId, itemId: string, quantity: int, unused: Id)
    requires About(e, o) && e.id !in db.processed && e.kind.OrderCreated? && o !in db.reservations
    requires e.payload.itemId == Some(itemId) && e.payload.quantity == Some(quantity)
    requires itemId !in db.items || quantity <= 0 || db.items[itemId].available < quantity
    ensures var reason := if itemId in db.items then "insufficient_stock" else "item_not_found";
            var answer := Event(unused, InventoryRejected, o, Passed(e, unused), e.payload.(reason := Some(reason)));
            Inventory.Handle(db, e, unused) == Ok(
              Inventory.InventoryDb(
                db.items, db.reservations, db.processed + {e.id}, db.outbox[unused := Row(answer, 0, false)]),
              unused + 2)
  {
  }

  lemma StockSettled(db: Inventory.InventoryDb, e: Event, o: OrderId, unused: Id)
    requires About(e, o) && e.id !in db.processed && (e.kind.InventoryCommit? || e.kind.InventoryRelease?)
    requires o in db.reservations && db.reservations[o].status == Inventory.RESERVED
             && db.reservations[o].itemId in db.items
    ensures var row := db.reservations[o];
            var item, sold := db.items[row.itemId], e.kind.InventoryCommit?;
            var outcome := Payload(Some(o), Some(row.itemId), Some(row.quantity), None, None, None, None, None);
            var answer := Event(unused, if sold then InventoryCommitted else InventoryReleased, o,
                                Passed(e, unused), outcome);
            Inventory.Handle(db, e, unused) == Ok(
              Inventory.InventoryDb(
                db.items[row.itemId :=
                  if sold then Inventory.Item(item.available, item.reserved - row.quantity, item.sold + row.quantity)
                  else Inventory.Item(item.available + row.quantity, item.reserved - row.quantity, item.sold)],
                db.reservations[o :=
                  Inventory.Reservation(row.itemId, row.quantity,
                                        if sold then Inventory.COMMITTED else Inventory.RELEASED)],
                db.processed + {e.id},
                db.outbox[unused := Row(answer, 0, false)]),
              unused + 2)
  {
  }

  /** A known reservation for a new order, no open reservation to settle, or an event of another type. */
  lemma StockUnmoved(db: Inventory.InventoryDb, e: Event, o: OrderId, unused: Id)
    requires About(e, o) && e.id !in db.processed
    requires e.kind.OrderCreated? ==> o in db.reservations
    requires e.kind.InventoryCommit? || e.kind.InventoryRelease? ==>
               o !in db.reservations || db.reservations[o].status in {Inventory.COMMITTED, Inventory.RELEASED}
    ensures Inventory.Handle(db, e, unused)
         == Ok(Inventory.InventoryDb(db.items, db.reservations, db.processed + {e.id}, db.outbox), unused)
  {
  }

  lemma StockRepeat(db: Inventory.InventoryDb, e: Event, o: OrderId, unused: Id)
    requires About(e, o)
    ensures e.id in db.processed ==> Inventory.Handle(db, e, unused) == Ok(db, unused)
    ensures Inventory.Handle(db, e, unused) == Raised <==>
              && e.id !in db.processed
              && (|| (e.kind.OrderCreated? && o !in db.reservations
                      && (e.payload.itemId.None? || e.payload.quantity.None?))
                  || (&& (e.kind.InventoryCommit? || e.kind.InventoryRelease?)
                      && o in db.reservations && db.reservations[o].status == Inventory.RESERVED
                      && db.reservations[o].itemId !in db.items))
  {
  }

  /** `set_stock`: one item starts over; of an item that was there before, exactly its reservations go. */
  lemma StockReset(db: Inventory.InventoryDb, itemId: string, quantity: int, o: OrderId)
    ensures var db' := Inventory.WithStock(db, itemId, quantity);
            && db'.items == db.items[itemId := Inventory.Item(quantity, 0, 0)]
            && db'.processed == db.processed && db'.outbox == db.outbox
            && (o in db'.reservations <==>
                o in db.reservations && !(itemId in db.items && db.reservations[o].itemId == itemId))
            && (o in db'.reservations ==> db'.reservations[o] == db.reservations[o])
  {
  }

  // ----- the payment service -----

  lemma PaymentMade(db: Payments.PaymentDb, e: Event, o: OrderId, customerId: string, amountCents: int, unused: Id)
    requires About(e, o) && e.id !in db.processed && o !in db.payments
    requires e.payload.customerId == Some(customerId) && e.payload.amountCents == Some(amountCents)
    requires !Payments.ShouldFailPayment(customerId, amountCents)
    ensures var reference := unused + 2;
            var answer := Event(unused, PaymentSucceeded, o, Passed(e, unused),
                                e.payload.(providerReference := Some(reference)));
            Payments.Handle(db, e, unused) == Ok(
              Payments.PaymentDb(
                db.payments[o := Payments.Payment(customerId, amountCents, Payments.SUCCEEDED, Some(reference), None)],
                db.processed + {e.id}, db.outbox[unused := Row(answer, 0, false)]),
              unused + 3)
  {
  }

  lemma PaymentDeclined(db: Payments.PaymentDb, e: Event, o: OrderId, customerId: string, amountCents: int, unused: Id)
    requires About(e, o) && e.id !in db.processed && o !in db.payments
    requires e.payload.customerId == Some(customerId) && e.payload.amountCents == Some(amountCents)
    requires Payments.ShouldFailPayment(customerId, amountCents)
    ensures var reason := Some("simulated_provider_decline");
            var answer := Event(unused, PaymentFailed, o, Passed(e, unused), e.payload.(reason := reason));
            Payments.Handle(db, e, unused) == Ok(
              Payments.PaymentDb(
                db.payments[o := Payments.Payment(customerId, amountCents, Payments.FAILED, None, reason)],
                db.processed + {e.id}, db.outbox[unused := Row(answer, 0, false)]),
              unused + 2)
  {
  }

  lemma PaymentUnmoved(db: Payments.PaymentDb, e: Event, o: OrderId, unused: Id)
    requires About(e, o)
    ensures e.id in db.processed ==> Payments.Handle(db, e, unused) == Ok(db, unused)
    ensures e.id !in db.processed && o in db.payments ==>
              Payments.Handle(db, e, unused) ==
                Ok(Payments.PaymentDb(db.payments, db.processed + {e.id}, db.outbox), unused)
    ensures Payments.Handle(db, e, unused) == Raised <==>
              && e.id !in db.processed && o !in db.payments
              && (e.payload.customerId.None? || e.payload.amountCents.None?)
  {
  }

  // ----- the notification service -----

  lemma NotificationStored(db: Notifications.NotificationDb, e: Event, o: OrderId, unused: Id)
    requires About(e, o) && e.id !in db
    ensures var customerId := if e.payload.customerId.Some? then e.payload.customerId.value else "unknown";
            var reason := if e.payload.reason.Some? then e.payload.reason.value else "unknown_reason";
            var order := Notifications.Quoted(o);
            Notifications.Handle(db, e, unused) == Ok(
              db[e.id :=
                if e.kind.OrderCompleted? then
                  Notifications.Notification(o, customerId, Notifications.ORDER_CONFIRMED,
                    [Notifications.Text("Order "), order, Notifications.Text(" was completed successfully.")])
                else
                  Notifications.Notification(o, customerId, Notifications.ORDER_FAILED,
                    [Notifications.Text("Order "), order, Notifications.Text(" failed: " + reason + ".")])],
              unused)
  {
  }

  lemma NotificationRepeat(db: Notifications.NotificationDb, e: Event, unused: Id)
    requires e.id in db
    ensures Notifications.Handle(db, e, unused) == Ok(db, unused)
  {
  }
}
