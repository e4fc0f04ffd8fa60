/** Why the order service must run its handlers one at a time: they read the order row without a lock.

    A handler is split here into its read of the order and its commit. The commit writes the columns that
    the handler has changed, and fails on an event that has been processed in the meantime. */
module OrderSessions {
  import opened Events
  import opened StateMachine
  import opened Orders

  predicate Changes(status: Status, kind: EventType) {
    NextStatus(status, kind) != status
  }

  /** Only a column whose value differs from the one read is written. */
  function Column<T(==)>(read: T, written: T, current: T): T {
    if written == read then current else written
  }

  /** The commit of a handler that has read the order's row as `read`. */
  function Written(db: OrderDb, e: Event, read: Order, unused: Id): Tx<OrderDb> {
    var o := e.aggregate;
    if e.id in db.processed || o !in db.orders then Raised
    else if !Changes(read.status, e.kind) then Ok(db.(processed := db.processed + {e.id}), unused)
    else
      var order := db.orders[o].(
        status := NextStatus(read.status, e.kind),
        reason := Column(read.reason, e.payload.reason, db.orders[o].reason));
      var es := Announcements(o, order, e, unused);
      Ok(OrderDb(db.orders[o := order], db.keys, db.processed + {e.id}, AddAll(db.outbox, es)),
         unused + IDS_PER_EVENT * |es|)
  }

  predicate Atomic(db: OrderDb, e: Event, read: Order, unused: Id) {
    Written(db, e, read, unused) == Orders.Handle(db, e, unused)
  }

  /** When the read is stale, the commit is still the handler run alone at that moment exactly if the status
      that was read and the present one decide alike, and the reason comes out as it should; or if an
      `inventory.reserved` finds that another one has done its work. */
  lemma AtomicIffReadStillDecides(db: OrderDb, e: Event, read: Order, unused: Id)
    requires e.id !in db.processed && e.aggregate in db.orders
    ensures var current := db.orders[e.aggregate];
            var reason := if e.payload.reason == read.reason then current.reason else e.payload.reason;
            Atomic(db, e, read, unused) <==>
              if !Changes(read.status, e.kind) then !Changes(current.status, e.kind)
              else if Changes(current.status, e.kind) then reason == e.payload.reason
              else e.kind.InventoryReserved? && current.status == INVENTORY_RESERVED && reason == current.reason
  {
    var o := e.aggregate;
    var current := db.orders[o];
    if Changes(read.status, e.kind) {
      var order := current.(status := NextStatus(read.status, e.kind),
                     reason := Column(read.reason, e.payload.reason, current.reason));
      var alone := current.(status := NextStatus(current.status, e.kind), reason := e.payload.reason);
      assert Written(db, e, read, unused).db.orders[o] == order;
      if !Changes(current.status, e.kind) && e.kind.InventoryReserved? && order == current {
        assert db.orders[o := order] == db.orders;
      }
    }
  }

  /** So a handler that no other one overlaps is atomic. */
  lemma UndisturbedReadIsAtomic(db: OrderDb, e: Event, unused: Id)
    requires e.id !in db.processed && e.aggregate in db.orders
    ensures Atomic(db, e, db.orders[e.aggregate], unused)
  {
    AtomicIffReadStillDecides(db, e, db.orders[e.aggregate], unused);
  }

  /** What the primary key of the processed events does prevent: of two handlers of one event, whatever they have
      read, only the first to commit takes effect. */
  lemma OnlyOneCommits(db: OrderDb, e: Event, one: Order, other: Order, unused: Id)
    requires Written(db, e, one, unused).Ok?
    ensures var tx := Written(db, e, one, unused);
            e.id !in db.processed && e.id in tx.db.processed && Written(tx.db, e, other, tx.next) == Raised
  {
  }

  /** With a second consumer the order service can lose a completed order, whatever else its database holds:
      `inventory.reserved` reads the order as PENDING, `payment.succeeded` completes it, and the commit of the
      first handler takes it out of its terminal status again, with the commit of its stock already announced. */
  lemma TerminalStatusCanBeLost(db: OrderDb, unused: Id, reserved: Event, succeeded: Event)
    requires reserved.kind.InventoryReserved? && succeeded.kind.PaymentSucceeded?
    requires reserved.payload.reason == None && succeeded.payload.reason == None
    requires reserved.aggregate == succeeded.aggregate && reserved.aggregate in db.orders
    requires reserved.id != succeeded.id && reserved.id !in db.processed && succeeded.id !in db.processed
    requires db.orders[reserved.aggregate].status == PENDING && db.orders[reserved.aggregate].reason == None
    ensures var o, read := reserved.aggregate, db.orders[reserved.aggregate];
            var completed := Orders.Handle(db, succeeded, unused);
            && completed.Ok? && completed.db.orders[o].status == COMPLETED
            && var after := Written(completed.db, reserved, read, completed.next);
               && after.Ok? && after.db.orders[o].status == INVENTORY_RESERVED
               && unused in after.db.outbox && after.db.outbox[unused].event.kind == InventoryCommit
               && !Atomic(completed.db, reserved, read, completed.next)
  {
    var completed := Orders.Handle(db, succeeded, unused);
    AtomicIffReadStillDecides(completed.db, reserved, db.orders[reserved.aggregate], completed.next);
  }
}
