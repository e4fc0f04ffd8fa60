/** app/inventory_service: the stock ledger and its reservations. */
module Inventory {
  import opened Events

  datatype Item = Item(available: int, reserved: int, sold: int)

  datatype ReservationStatus = RESERVED | RELEASED | COMMITTED

  datatype Reservation = Reservation(itemId: string, quantity: int, status: ReservationStatus)

  datatype InventoryDb = InventoryDb(
    items: map<string, Item>,
    reservations: map<OrderId, Reservation>,
    processed: set<EventId>,
    outbox: Outbox)

  const EMPTY := InventoryDb(map[], map[], {}, map[])

  predicate CanReserve(available: int, requested: int) {
    requested > 0 && available >= requested
  }

  function OutcomePayload(o: OrderId, r: Reservation): Payload {
    Payload(Some(o), Some(r.itemId), Some(r.quantity), None, None, None, None, None)
  }

  /** The `order.created` branch, for an order that has no reservation yet. */
  function Reserve(db: InventoryDb, e: Event, o: OrderId, unused: Id): Tx<InventoryDb>
    requires o !in db.reservations
  {
    if e.payload.itemId.None? || e.payload.quantity.None? then Raised
    else
      var itemId, quantity := e.payload.itemId.value, e.payload.quantity.value;
      if itemId in db.items && CanReserve(db.items[itemId].available, quantity) then
        var item := db.items[itemId];
        var reserved := CreateEvent(InventoryReserved, o, e.payload.(reservationStatus := Some("RESERVED")),
                                    e.correlation, unused);
        Ok(InventoryDb(
             db.items[itemId := Item(item.available - quantity, item.reserved + quantity, item.sold)],
             db.reservations[o := Reservation(itemId, quantity, RESERVED)],
             db.processed + {e.id},
             AddOutbox(db.outbox, reserved)),
           unused + IDS_PER_EVENT)
      else
        var reason := if itemId !in db.items then "item_not_found" else "insufficient_stock";
        var rejected := CreateEvent(InventoryRejected, o, e.payload.(reason := Some(reason)), e.correlation, unused);
        Ok(db.(processed := db.processed + {e.id}, outbox := AddOutbox(db.outbox, rejected)), unused + IDS_PER_EVENT)
  }

  /** The `inventory.release` and `inventory.commit` branch, for an order whose reservation is still RESERVED. */
  function Settle(db: InventoryDb, e: Event, o: OrderId, unused: Id): Tx<InventoryDb>
    requires o in db.reservations && db.reservations[o].status == RESERVED
  {
    var r := db.reservations[o];
    if r.itemId !in db.items then Raised
    else
      var item := db.items[r.itemId];
      var release := e.kind.InventoryRelease?;
      var outcome := CreateEvent(if release then InventoryReleased else InventoryCommitted, o, OutcomePayload(o, r),
                                 e.correlation, unused);
      var item' :=
        if release then Item(item.available + r.quantity, item.reserved - r.quantity, item.sold)
        else Item(item.available, item.reserved - r.quantity, item.sold + r.quantity);
      Ok(InventoryDb(
           db.items[r.itemId := item'],
           db.reservations[o := r.(status := if release then RELEASED else COMMITTED)],
           db.processed + {e.id},
           AddOutbox(db.outbox, outcome)),
         unused + IDS_PER_EVENT)
  }

  function Handle(db: InventoryDb, e: Event, unused: Id): Tx<InventoryDb> {
    var o := OrderIdOf(e);
    if e.id in db.processed then Ok(db, unused)
    else if e.kind.OrderCreated? && o !in db.reservations then Reserve(db, e, o, unused)
    else if (e.kind.InventoryRelease? || e.kind.InventoryCommit?)
            && o in db.reservations && db.reservations[o].status == RESERVED then
      Settle(db, e, o, unused)
    else Ok(db.(processed := db.processed + {e.id}), unused)
  }

  /** A reset: the item starts over and every reservation on it is deleted. */
  function WithStock(db: InventoryDb, itemId: string, quantity: int): InventoryDb {
    db.(items := db.items[itemId := Item(quantity, 0, 0)],
        reservations :=
          if itemId in db.items then map o | o in db.reservations && db.reservations[o].itemId != itemId ::
                db.reservations[o]
          else db.reservations)
  }

  /** The service's session: rows are changed in place, and a raised exception leaves them as they were. */
  class InventoryStore {
    var items: map<string, Item>
    var reservations: map<OrderId, Reservation>
    var processed: set<EventId>
    var outbox: Outbox
    var next: Id

    ghost function Db(): InventoryDb
      reads this
    {
      InventoryDb(items, reservations, processed, outbox)
    }

    constructor ()
      ensures Db() == EMPTY && next == 0
    {
      items, reservations, processed, outbox, next := map[], map[], {}, map[], 0;
    }

    method SetStock(itemId: string, quantity: int) returns (item: Item)
      modifies this
      ensures Db() == WithStock(old(Db()), itemId, quantity) && next == old(next)
      ensures item == Item(quantity, 0, 0) && itemId in items && items[itemId] == item
    {
      item := Item(quantity, 0, 0);
      if itemId in items {
        reservations := map o | o in reservations && reservations[o].itemId != itemId :: reservations[o];
      }
      items := items[itemId := item];
    }

    method Emit(kind: EventType, o: OrderId, payload: Payload, correlation: Option<Id>)
      modifies this`outbox, this`next
      ensures outbox == AddOutbox(old(outbox), CreateEvent(kind, o, payload, correlation, old(next)))
      ensures next == old(next) + IDS_PER_EVENT
    {
      outbox := AddOutbox(outbox, CreateEvent(kind, o, payload, correlation, next));
      next := next + IDS_PER_EVENT;
    }

    method HandleDomainEvent(e: Event) returns (ok: bool)
      modifies this
      ensures ok == Handle(old(Db()), e, old(next)).Ok?
      ensures ok ==> Ok(Db(), next) == Handle(old(Db()), e, old(next))
      ensures !ok ==> Db() == old(Db()) && next == old(next)
    {
      if e.id in processed {
        return true;
      }
      var o := OrderIdOf(e);
      if e.kind.OrderCreated? {
        if o !in reservations {
          if e.payload.itemId.None? || e.payload.quantity.None? {
            return false;
          }
          var itemId, quantity := e.payload.itemId.value, e.payload.quantity.value;
          if itemId in items && CanReserve(items[itemId].available, quantity) {
            var item := items[itemId];
            item := item.(available := item.available - quantity);
            item := item.(reserved := item.reserved + quantity);
            items := items[itemId := item];
            reservations := reservations[o := Reservation(itemId, quantity, RESERVED)];
            Emit(InventoryReserved, o, e.payload.(reservationStatus := Some("RESERVED")), e.correlation);
          } else {
            var reason := if itemId !in items then "item_not_found" else "insufficient_stock";
            Emit(InventoryRejected, o, e.payload.(reason := Some(reason)), e.correlation);
          }
        }
      } else if e.kind.InventoryRelease? || e.kind.InventoryCommit? {
        if o in reservations && reservations[o].status == RESERVED {
          var r := reservations[o];
          if r.itemId !in items {
            return false;
          }
          var item := items[r.itemId];
          item := item.(reserved := item.reserved - r.quantity);
          var outcome;
          if e.kind.InventoryRelease? {
            item := item.(available := item.available + r.quantity);
            reservations := reservations[o := r.(status := RELEASED)];
            outcome := InventoryReleased;
          } else {
            item := item.(sold := item.sold + r.quantity);
            reservations := reservations[o := r.(status := COMMITTED)];
            outcome := InventoryCommitted;
          }
          items := items[r.itemId := item];
          Emit(outcome, o, OutcomePayload(o, r), e.correlation);
        }
      }
      processed := processed + {e.id};
      ok := true;
    }
  }
}
