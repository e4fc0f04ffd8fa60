/** Stock conservation: what every run of the inventory service keeps, whatever events it is fed. */
module Ledger {
  import opened Events
  import opened Sums
  import opened Inventory

  type Reservations = map<OrderId, Reservation>

  predicate Counts(r: Reservation, itemId: string, status: ReservationStatus) {
    r.itemId == itemId && r.status == status
  }

  /** What one reservation row contributes to a column. */
  function Share(row: Option<Reservation>, itemId: string, status: ReservationStatus): int {
    if row.Some? && Counts(row.value, itemId, status) then row.value.quantity else 0
  }

  function RowAt(rs: Reservations, o: OrderId): Option<Reservation> {
    if o in rs then Some(rs[o]) else None
  }

  /** What each reservation adds to the quantity of an item that is in a given status. */
  function Shares(rs: Reservations, itemId: string, status: ReservationStatus): map<nat, int> {
    map o | o in rs :: Share(Some(rs[o]), itemId, status)
  }

  ghost function Held(rs: Reservations, itemId: string, status: ReservationStatus): int {
    Sum(Shares(rs, itemId, status))
  }

  function Capacity(item: Item): int {
    item.available + item.reserved + item.sold
  }

  ghost predicate ItemBalanced(db: InventoryDb, itemId: string)
    requires itemId in db.items
  {
    && db.items[itemId].available >= 0
    && db.items[itemId].reserved == Held(db.reservations, itemId, RESERVED)
    && db.items[itemId].sold == Held(db.reservations, itemId, COMMITTED)
  }

  predicate ReservationSound(db: InventoryDb, o: OrderId)
    requires o in db.reservations
  {
    db.reservations[o].itemId in db.items && db.reservations[o].quantity > 0
  }

  ghost predicate Balanced(db: InventoryDb) {
    && (forall i {:trigger ItemBalanced(db, i)} :: i in db.items ==> ItemBalanced(db, i))
    && (forall o {:trigger ReservationSound(db, o)} :: o in db.reservations ==> ReservationSound(db, o))
  }

  lemma HeldUpdate(rs: Reservations, o: OrderId, r: Reservation, itemId: string, status: ReservationStatus)
    ensures Held(rs[o := r], itemId, status)
         == Held(rs, itemId, status) - Share(RowAt(rs, o), itemId, status) + Share(Some(r), itemId, status)
  {
    var v := Share(Some(r), itemId, status);
    SumUpdate(Shares(rs, itemId, status), o, v);
    assert Shares(rs[o := r], itemId, status) == Shares(rs, itemId, status)[o := v];
  }

  lemma HeldNonNegative(db: InventoryDb, itemId: string, status: ReservationStatus)
    requires forall o {:trigger ReservationSound(db, o)} :: o in db.reservations ==> ReservationSound(db, o)
    ensures Held(db.reservations, itemId, status) >= 0
  {
    forall o | o in db.reservations ensures Shares(db.reservations, itemId, status)[o] >= 0 {
      assert ReservationSound(db, o);
    }
    SumNonNegative(Shares(db.reservations, itemId, status));
  }

  /** Deleting the reservations of one item leaves nothing held on it and the other items as they were. */
  lemma HeldAfterReset(db: InventoryDb, itemId: string, quantity: int, other: string, status: ReservationStatus)
    requires forall o {:trigger ReservationSound(db, o)} :: o in db.reservations ==> ReservationSound(db, o)
    ensures Held(WithStock(db, itemId, quantity).reservations, other, status)
         == if other == itemId then 0 else Held(db.reservations, other, status)
  {
    var before, after := db.reservations, WithStock(db, itemId, quantity).reservations;
    forall o
      ensures At(Shares(after, other, status), o) == if other == itemId then 0 else At(Shares(before, other, status), o)
    {
      assert o in before ==> ReservationSound(db, o);
    }
    SumAgree(Shares(after, other, status), if other == itemId then map[] else Shares(before, other, status));
  }

  lemma ResetKeepsBalance(db: InventoryDb, itemId: string, quantity: int)
    requires Balanced(db) && quantity >= 0
    ensures Balanced(WithStock(db, itemId, quantity))
    ensures Capacity(WithStock(db, itemId, quantity).items[itemId]) == quantity
  {
    var db' := WithStock(db, itemId, quantity);
    forall i | i in db'.items ensures ItemBalanced(db', i) {
      HeldAfterReset(db, itemId, quantity, i, RESERVED);
      HeldAfterReset(db, itemId, quantity, i, COMMITTED);
      assert i != itemId ==> ItemBalanced(db, i);
    }
    forall o | o in db'.reservations ensures ReservationSound(db', o) {
      assert ReservationSound(db, o);
    }
  }

  /** One reservation row and one item row change together, and they change by the same quantity. */
  predicate Moves(was: Option<Reservation>, r: Reservation, before: Item, after: Item) {
    && r.quantity > 0 && after.available >= 0
    && (was.Some? ==> was.value.itemId == r.itemId && was.value.quantity == r.quantity)
    && after.reserved == before.reserved - Share(was, r.itemId, RESERVED) + Share(Some(r), r.itemId, RESERVED)
    && after.sold == before.sold - Share(was, r.itemId, COMMITTED) + Share(Some(r), r.itemId, COMMITTED)
  }

  lemma MoveKeepsItem(db: InventoryDb, db': InventoryDb, o: OrderId, r: Reservation, i: string)
    requires r.itemId in db.items && i in db.items && ItemBalanced(db, i)
    requires db'.reservations == db.reservations[o := r]
    requires i in db'.items && (i != r.itemId ==> db'.items[i] == db.items[i])
    requires r.itemId in db'.items && Moves(RowAt(db.reservations, o), r, db.items[r.itemId], db'.items[r.itemId])
    ensures ItemBalanced(db', i)
  {
    HeldUpdate(db.reservations, o, r, i, RESERVED);
    HeldUpdate(db.reservations, o, r, i, COMMITTED);
  }

  predicate SameCapacity(db: InventoryDb, db': InventoryDb, i: string) {
    i in db.items && i in db'.items && Capacity(db'.items[i]) == Capacity(db.items[i])
  }

  /** The two databases stock the same items, and of each the same number of units. */
  ghost predicate SameStock(db: InventoryDb, db': InventoryDb) {
    && (forall i :: i in db'.items <==> i in db.items)
    && (forall i {:trigger SameCapacity(db, db', i)} :: i in db.items ==> SameCapacity(db, db', i))
  }

  lemma MoveKeepsBalance(db: InventoryDb, db': InventoryDb, o: OrderId, r: Reservation, item: Item)
    requires Balanced(db)
    requires r.itemId in db.items
    requires db'.items == db.items[r.itemId := item] && db'.reservations == db.reservations[o := r]
    requires Moves(RowAt(db.reservations, o), r, db.items[r.itemId], item)
    ensures Balanced(db')
  {
    forall i | i in db'.items ensures ItemBalanced(db', i) {
      MoveKeepsItem(db, db', o, r, i);
    }
    forall x | x in db'.reservations ensures ReservationSound(db', x) {
      assert x != o ==> ReservationSound(db, x);
    }
  }

  lemma ItemUpdateKeepsStock(db: InventoryDb, db': InventoryDb, i: string, item: Item)
    requires i in db.items && db'.items == db.items[i := item] && Capacity(item) == Capacity(db.items[i])
    ensures SameStock(db, db')
  {
    forall x | x in db.items ensures SameCapacity(db, db', x) {
    }
  }

  lemma SameTablesConserve(db: InventoryDb, db': InventoryDb)
    requires Balanced(db) && db'.items == db.items && db'.reservations == db.reservations
    ensures Balanced(db') && SameStock(db, db')
  {
    forall i | i in db'.items ensures ItemBalanced(db', i) {
      assert ItemBalanced(db, i);
    }
    forall x | x in db'.reservations ensures ReservationSound(db', x) {
      assert ReservationSound(db, x);
    }
  }

  lemma ReserveConserves(db: InventoryDb, e: Event, o: OrderId, unused: Id)
    requires Balanced(db) && o !in db.reservations && Reserve(db, e, o, unused).Ok?
    ensures Balanced(Reserve(db, e, o, unused).db) && SameStock(db, Reserve(db, e, o, unused).db)
  {
    var db' := Reserve(db, e, o, unused).db;
    var itemId, quantity := e.payload.itemId.value, e.payload.quantity.value;
    if itemId in db.items && CanReserve(db.items[itemId].available, quantity) {
      var item := db.items[itemId];
      var item' := Item(item.available - quantity, item.reserved + quantity, item.sold);
      MoveKeepsBalance(db, db', o, Reservation(itemId, quantity, RESERVED), item');
      ItemUpdateKeepsStock(db, db', itemId, item');
    } else {
      SameTablesConserve(db, db');
    }
  }

  lemma SettleConserves(db: InventoryDb, e: Event, o: OrderId, unused: Id)
    requires Balanced(db) && o in db.reservations && db.reservations[o].status == RESERVED
    requires Settle(db, e, o, unused).Ok?
    ensures Balanced(Settle(db, e, o, unused).db) && SameStock(db, Settle(db, e, o, unused).db)
  {
    assert ReservationSound(db, o);
    var r := db.reservations[o];
    var item := db.items[r.itemId];
    assert item.available >= 0 by {
      assert ItemBalanced(db, r.itemId);
    }
    var db' := Settle(db, e, o, unused).db;
    var item' := db'.items[r.itemId];
    MoveKeepsBalance(db, db', o, db'.reservations[o], item');
    ItemUpdateKeepsStock(db, db', r.itemId, item');
  }

  /** No event, well formed or not, unbalances the ledger or creates or destroys stock. */
  lemma HandleConserves(db: InventoryDb, e: Event, unused: Id)
    requires Balanced(db) && Handle(db, e, unused).Ok?
    ensures Balanced(Handle(db, e, unused).db) && SameStock(db, Handle(db, e, unused).db)
  {
    var o := OrderIdOf(e);
    if e.id !in db.processed && e.kind.OrderCreated? && o !in db.reservations {
      ReserveConserves(db, e, o, unused);
    } else if e.id !in db.processed && (e.kind.InventoryRelease? || e.kind.InventoryCommit?)
              && o in db.reservations && db.reservations[o].status == RESERVED {
      SettleConserves(db, e, o, unused);
    } else {
      SameTablesConserve(db, Handle(db, e, unused).db);
    }
  }

  /** The columns of an item row are what the reservation table says they are, and none is negative. */
  ghost predicate ColumnsHold(db: InventoryDb, itemId: string) {
    && itemId in db.items
    && var item := db.items[itemId];
    && item.available >= 0 && item.reserved >= 0 && item.sold >= 0
    && item.reserved == Held(db.reservations, itemId, RESERVED)
    && item.sold == Held(db.reservations, itemId, COMMITTED)
  }

  lemma BalancedColumns(db: InventoryDb, itemId: string)
    requires Balanced(db) && itemId in db.items
    ensures ColumnsHold(db, itemId)
  {
    assert ItemBalanced(db, itemId);
    HeldNonNegative(db, itemId, RESERVED);
    HeldNonNegative(db, itemId, COMMITTED);
  }

  datatype Operation = Stock(itemId: string, quantity: nat) | Deliver(event: Event)

  /** The service's database after a sequence of operations. An event whose handler raises leaves no trace. */
  function Run(ops: seq<Operation>): (r: Tx<InventoryDb>)
    ensures r.Ok?
  {
    if ops == [] then Ok(EMPTY, 0)
    else
      var before := Run(ops[..|ops| - 1]);
      match ops[|ops| - 1]
      case Stock(itemId, quantity) => Ok(WithStock(before.db, itemId, quantity), before.next)
      case Deliver(e) => if Handle(before.db, e, before.next).Ok? then Handle(before.db, e, before.next) else before
  }

  /** The quantity the item was last set to, if it ever was. */
  function LastSet(ops: seq<Operation>, itemId: string): Option<int> {
    if ops == [] then None
    else
      var last := ops[|ops| - 1];
      if last.Stock? && last.itemId == itemId then Some(last.quantity)
      else LastSet(ops[..|ops| - 1], itemId)
  }

  lemma {:induction false} RunIsBalanced(ops: seq<Operation>)
    ensures Balanced(Run(ops).db)
    ensures forall i :: i in Run(ops).db.items <==> LastSet(ops, i).Some?
    ensures forall i :: i in Run(ops).db.items ==> Some(Capacity(Run(ops).db.items[i])) == LastSet(ops, i)
  {
    if ops != [] {
      var prefix := ops[..|ops| - 1];
      RunIsBalanced(prefix);
      var before := Run(prefix);
      match ops[|ops| - 1]
      case Stock(itemId, quantity) => ResetKeepsBalance(before.db, itemId, quantity);
      case Deliver(e) =>
        if Handle(before.db, e, before.next).Ok? {
          HandleConserves(before.db, e, before.next);
          forall i | i in before.db.items
            ensures Capacity(Run(ops).db.items[i]) == Capacity(before.db.items[i])
          {
            assert SameCapacity(before.db, Run(ops).db, i);
          }
        }
    }
  }

  /** Conservation and no oversell, for every sequence of resets and events. */
  lemma ConservationAndNoOversell(ops: seq<Operation>, itemId: string)
    ensures itemId in Run(ops).db.items <==> LastSet(ops, itemId).Some?
    ensures itemId in Run(ops).db.items ==>
              ColumnsHold(Run(ops).db, itemId) && Capacity(Run(ops).db.items[itemId]) == LastSet(ops, itemId).value
  {
    RunIsBalanced(ops);
    var db := Run(ops).db;
    if itemId in db.items {
      BalancedColumns(db, itemId);
    }
  }

  /** `scalar_one()` never fails: once a run has made a reservation, its item row exists until the end. */
  lemma SettlingNeverRaises(ops: seq<Operation>, e: Event)
    requires !e.kind.OrderCreated?
    ensures var tx := Run(ops); Handle(tx.db, e, tx.next).Ok?
  {
    RunIsBalanced(ops);
    var db := Run(ops).db;
    var o := OrderIdOf(e);
    if o in db.reservations {
      assert ReservationSound(db, o);
    }
  }
}
