/** Sequences of atomic handlers and resets of the inventory service, and what may change places in them. */
module InventoryHistories {
  import opened Events
  import opened Inventory
  import opened InventorySessions

  /** A session's effect: what it did, with which identifier, and the steps at which it started and committed. */
  datatype Op = Op(sid: Sid, task: Task, id: Id, start: nat, end: nat)

  // ----- sequences of atomic operations -----

  function Apply(db: InventoryDb, op: Op): Tx<InventoryDb> {
    match op.task
    case OnEvent(e) => Inventory.Handle(db, e, op.id)
    case OnReset(itemId, quantity) => Ok(WithStock(db, itemId, quantity), op.id)
  }

  /** The operation commits, and is not skipped as a repeat. */
  predicate Effective(db: InventoryDb, op: Op) {
    Apply(db, op).Ok? && (op.task.OnEvent? ==> op.task.event.id !in db.processed)
  }

  function Next(db: InventoryDb, op: Op): InventoryDb {
    if Apply(db, op).Ok? then Apply(db, op).db else db
  }

  function Replay(db: InventoryDb, ops: seq<Op>): InventoryDb
    decreases |ops|
  {
    if ops == [] then db else Replay(Next(db, ops[0]), ops[1..])
  }

  /** Every operation takes effect, and the identifiers that it uses are below the bound. */
  predicate IsHistory(db: InventoryDb, ops: seq<Op>, bound: Id)
    decreases |ops|
  {
    ops == []
      || (Effective(db, ops[0]) && Apply(db, ops[0]).next <= bound && IsHistory(Next(db, ops[0]), ops[1..], bound))
  }

  lemma {:induction false} HistoriesJoin(db: InventoryDb, a: seq<Op>, b: seq<Op>, bound: Id)
    ensures Replay(db, a + b) == Replay(Replay(db, a), b)
    ensures IsHistory(db, a + b, bound) <==> IsHistory(db, a, bound) && IsHistory(Replay(db, a), b, bound)
    decreases |a|
  {
    if a == [] {
      assert a + b == b;
    } else {
      assert (a + b)[0] == a[0] && (a + b)[1..] == a[1..] + b;
      HistoriesJoin(Next(db, a[0]), a[1..], b, bound);
    }
  }

  lemma {:induction false} BoundGrows(db: InventoryDb, ops: seq<Op>, bound: Id, more: Id)
    requires IsHistory(db, ops, bound) && bound <= more
    ensures IsHistory(db, ops, more)
    decreases |ops|
  {
    if ops != [] {
      BoundGrows(Next(db, ops[0]), ops[1..], bound, more);
    }
  }

  predicate IsReset(op: Op, itemId: string) {
    op.task.OnReset? && op.task.itemId == itemId
  }

  /** An item is there exactly if it was there or some operation stocked it; what is processed stays processed. */
  lemma {:induction false} ReplayKeys(db: InventoryDb, ops: seq<Op>, bound: Id, itemId: string)
    requires IsHistory(db, ops, bound)
    ensures itemId in Replay(db, ops).items <==>
          itemId in db.items || exists k :: 0 <= k < |ops| && IsReset(ops[k], itemId)
    ensures db.processed <= Replay(db, ops).processed
    decreases |ops|
  {
    if ops != [] {
      ReplayKeys(Next(db, ops[0]), ops[1..], bound, itemId);
      if k :| 0 <= k < |ops| && IsReset(ops[k], itemId) {
        assert k > 0 ==> ops[1..][k - 1] == ops[k];
      }
    }
  }

  /** The Saga emits one `order.created` per order; `created` names it. */
  predicate OpExpected(op: Op, created: map<OrderId, EventId>) {
    op.task.OnEvent? && op.task.event.kind.OrderCreated? ==>
      OrderIdOf(op.task.event) in created && created[OrderIdOf(op.task.event)] == op.task.event.id
  }

  predicate AllExpected(ops: seq<Op>, created: map<OrderId, EventId>) {
    forall k {:trigger ops[k]} :: 0 <= k < |ops| ==> OpExpected(ops[k], created)
  }

  predicate GrantedIn(db: InventoryDb, o: OrderId, created: map<OrderId, EventId>) {
    o in db.reservations ==> o in created && created[o] in db.processed
  }

  lemma {:induction false} ReplayGrants(db: InventoryDb, ops: seq<Op>, bound: Id, o: OrderId,
      created: map<OrderId, EventId>)
    requires IsHistory(db, ops, bound) && AllExpected(ops, created) && GrantedIn(db, o, created)
    ensures GrantedIn(Replay(db, ops), o, created)
    decreases |ops|
  {
    if ops != [] {
      ReplayGrants(Next(db, ops[0]), ops[1..], bound, o, created);
    }
  }

  // ----- a rejection commutes -----

  /** What rejecting an order for a missing item writes. */
  function Rejecting(db: InventoryDb, e: Event, id: Id): InventoryDb {
    var rejected := CreateEvent(InventoryRejected, OrderIdOf(e), e.payload.(reason := Some("item_not_found")),
                                e.correlation, id);
    db.(processed := db.processed + {e.id}, outbox := AddOutbox(db.outbox, rejected))
  }

  lemma OutboxesCommute(outbox: Outbox, a: Event, b: Event)
    requires a.id != b.id
    ensures AddOutbox(AddOutbox(outbox, a), b) == AddOutbox(AddOutbox(outbox, b), a)
  {
  }

  lemma ReserveCommutes(db: InventoryDb, op: Op, e: Event, id: Id)
    requires op.task.OnEvent? && op.task.event.kind.OrderCreated? && op.task.event.id != e.id
    requires Effective(db, op) && Apply(db, op).next <= id
    ensures Effective(Rejecting(db, e, id), op)
    ensures Apply(Rejecting(db, e, id), op) == Ok(Rejecting(Next(db, op), e, id), Apply(db, op).next)
  {
    var a, b := Apply(Rejecting(db, e, id), op).db, Rejecting(Next(db, op), e, id);
    assert a.processed == b.processed;
    if OrderIdOf(op.task.event) !in db.reservations {
      OutboxesCommute(db.outbox, Rejecting(db, e, id).outbox[id].event, Next(db, op).outbox[op.id].event);
    }
  }

  lemma SettleCommutes(db: InventoryDb, op: Op, e: Event, id: Id)
    requires op.task.OnEvent? && !op.task.event.kind.OrderCreated? && op.task.event.id != e.id
    requires Effective(db, op) && Apply(db, op).next <= id
    ensures Effective(Rejecting(db, e, id), op)
    ensures Apply(Rejecting(db, e, id), op) == Ok(Rejecting(Next(db, op), e, id), Apply(db, op).next)
  {
    var a, b := Apply(Rejecting(db, e, id), op).db, Rejecting(Next(db, op), e, id);
    assert a.processed == b.processed;
    assert a.outbox == b.outbox;
  }

  lemma Commutes(db: InventoryDb, op: Op, e: Event, id: Id)
    requires op.task.OnEvent? ==> op.task.event.id != e.id
    requires Effective(db, op) && Apply(db, op).next <= id
    ensures Effective(Rejecting(db, e, id), op)
    ensures Apply(Rejecting(db, e, id), op) == Ok(Rejecting(Next(db, op), e, id), Apply(db, op).next)
  {
    match op.task
    case OnReset(_, _) =>
    case OnEvent(other) =>
      if other.kind.OrderCreated? {
        ReserveCommutes(db, op, e, id);
      } else {
        SettleCommutes(db, op, e, id);
      }
  }

  /** A rejection may be moved before any operations on other events, whatever they do. */
  lemma {:induction false} RejectionMovesBack(db: InventoryDb, ops: seq<Op>, e: Event, id: Id)
    requires IsHistory(db, ops, id) && e.id !in Replay(db, ops).processed
    ensures IsHistory(Rejecting(db, e, id), ops, id)
    ensures Replay(Rejecting(db, e, id), ops) == Rejecting(Replay(db, ops), e, id)
    decreases |ops|
  {
    if ops != [] {
      ReplayKeys(Next(db, ops[0]), ops[1..], id, "");
      Commutes(db, ops[0], e, id);
      RejectionMovesBack(Next(db, ops[0]), ops[1..], e, id);
    }
  }

  /** The rejection of an order for an item that a history stocks is what the atomic handler does just before
      the item is stocked, with every later operation unaffected. */
  lemma StaleRejectionIsEarlier(db: InventoryDb, before: seq<Op>, op: Op, after: seq<Op>)
    requires op.task.OnEvent? && op.task.event.kind.OrderCreated?
    requires op.task.event.payload.itemId.Some? && op.task.event.payload.quantity.Some?
    requires IsHistory(db, before + after, op.id) && op.task.event.id !in Replay(db, before + after).processed
    requires OrderIdOf(op.task.event) !in Replay(db, before).reservations
    requires op.task.event.payload.itemId.value !in Replay(db, before).items
    ensures IsHistory(db, before + [op] + after, op.id + IDS_PER_EVENT)
    ensures Replay(db, before + [op] + after) == Rejecting(Replay(db, before + after), op.task.event, op.id)
  {
    var e, bound, there := op.task.event, op.id + IDS_PER_EVENT, Replay(db, before);
    HistoriesJoin(db, before, after, op.id);
    ReplayKeys(there, after, op.id, "");
    assert Apply(there, op) == Ok(Rejecting(there, e, op.id), bound);
    RejectionMovesBack(there, after, e, op.id);
    BoundGrows(db, before, op.id, bound);
    BoundGrows(Rejecting(there, e, op.id), after, op.id, bound);
    assert IsHistory(there, [op] + after, bound)
      && Replay(there, [op] + after) == Replay(Rejecting(there, e, op.id), after) by {
      assert ([op] + after)[1..] == after;
    }
    HistoriesJoin(db, before, [op] + after, bound);
    assert before + ([op] + after) == before + [op] + after;
  }
}
