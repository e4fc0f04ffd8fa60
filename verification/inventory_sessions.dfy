/** The inventory service under concurrency: handlers and resets split into their reads, locks and
    commits, and interleaved among any number of sessions.

    A locking read of a row waits for the row and returns its committed value; a locking read of a row
    that does not exist returns nothing and locks nothing. A commit fails on a duplicate primary key. */
module InventorySessions {
  import opened Events
  import opened Inventory
  import opened Ledger

  type Sid = nat

  datatype Task = OnEvent(event: Event) | OnReset(itemId: string, quantity: nat)

  /** Where a session is, with the values it has read. */
  datatype Pc =
    | Begun
    /** the event was not among the processed ones */
    | Deduped
    /** `order.created`: no reservation was found */
    | Looked
    /** `order.created`: the item row is locked, if there is one */
    | ItemRead(found: Option<Item>)
    /** commit or release: the reservation row is locked and RESERVED */
    | RowRead(row: Reservation)
    /** commit or release: the item row is locked as well */
    | BothRead(row: Reservation, item: Item)
    /** nothing to do but to mark the event: a reservation was found for `order.created` */
    | SkipFound
    /** no reservation was found for a commit or release */
    | SkipMissing
    /** the reservation row is locked and already settled */
    | SkipSettled(row: Reservation)
    | SkipOther
    /** reset: the item row is locked, if there is one */
    | StockRead(known: bool)
    /** reset: the item's reservation rows are locked and deleted */
    | Cleared(rows: set<OrderId>)
    | Ended

  datatype Session = Session(task: Task, pc: Pc)

  datatype Machine = Machine(
    db: InventoryDb,
    next: Id,
    itemLocks: map<string, Sid>,
    rowLocks: map<OrderId, Sid>,
    sessions: map<Sid, Session>)

  function RowsOn(db: InventoryDb, itemId: string): set<OrderId> {
    set o | o in db.reservations && db.reservations[o].itemId == itemId
  }

  predicate Reading(pc: Pc) {
    pc.Begun? || pc.Deduped? || pc.Looked? || pc.RowRead? || pc == StockRead(true)
  }

  /** Reading waits for the row that it locks. */
  predicate CanRead(m: Machine, sid: Sid) {
    && sid in m.sessions && Reading(m.sessions[sid].pc)
    && match m.sessions[sid]
       case Session(OnEvent(e), Deduped) =>
         (e.kind.InventoryCommit? || e.kind.InventoryRelease?) && OrderIdOf(e) in m.db.reservations ==>
           OrderIdOf(e) !in m.rowLocks
       case Session(OnEvent(e), Looked) =>
         e.payload.itemId.Some? && e.payload.itemId.value in m.db.items ==> e.payload.itemId.value !in m.itemLocks
       case Session(OnEvent(e), RowRead(row)) =>
         row.itemId in m.db.items ==> row.itemId !in m.itemLocks
       case Session(OnReset(itemId, _), Begun) => itemId in m.db.items ==> itemId !in m.itemLocks
       case Session(OnReset(itemId, _), StockRead(_)) =>
         forall o :: o in RowsOn(m.db, itemId) && o in m.rowLocks ==> m.rowLocks[o] == sid
       case _ => true
  }

  function Goto(m: Machine, sid: Sid, pc: Pc): Machine
    requires sid in m.sessions
  {
    m.(sessions := m.sessions[sid := m.sessions[sid].(pc := pc)])
  }

  /** Rolled back or committed: the session's locks are released. */
  function Release(m: Machine, sid: Sid): Machine
    requires sid in m.sessions
  {
    Goto(m, sid, Ended).(
      itemLocks := map i | i in m.itemLocks && m.itemLocks[i] != sid :: m.itemLocks[i],
      rowLocks := map o | o in m.rowLocks && m.rowLocks[o] != sid :: m.rowLocks[o])
  }

  function LockItem(m: Machine, sid: Sid, itemId: string): Machine {
    m.(itemLocks := m.itemLocks[itemId := sid])
  }

  function LockRow(m: Machine, sid: Sid, o: OrderId): Machine {
    m.(rowLocks := m.rowLocks[o := sid])
  }

  function LockRows(m: Machine, sid: Sid, rows: set<OrderId>): Machine {
    m.(rowLocks := m.rowLocks + map o | o in rows :: sid)
  }

  function Read(m: Machine, sid: Sid): Machine
    requires CanRead(m, sid)
  {
    match m.sessions[sid]
    case Session(OnEvent(e), Begun) =>
      if e.id in m.db.processed then Release(m, sid) else Goto(m, sid, Deduped)
    case Session(OnEvent(e), Deduped) =>
      var o := OrderIdOf(e);
      if e.kind.OrderCreated? then
        if o in m.db.reservations then Goto(m, sid, SkipFound) else Goto(m, sid, Looked)
      else if e.kind.InventoryCommit? || e.kind.InventoryRelease? then
        if o !in m.db.reservations then Goto(m, sid, SkipMissing)
        else
          var row := m.db.reservations[o];
          Goto(LockRow(m, sid, o), sid, if row.status == RESERVED then RowRead(row) else SkipSettled(row))
      else Goto(m, sid, SkipOther)
    case Session(OnEvent(e), Looked) =>
      if e.payload.itemId.None? || e.payload.quantity.None? then Release(m, sid)
      else
        var itemId := e.payload.itemId.value;
        if itemId in m.db.items then Goto(LockItem(m, sid, itemId), sid, ItemRead(Some(m.db.items[itemId])))
        else Goto(m, sid, ItemRead(None))
    case Session(OnEvent(e), RowRead(row)) =>
      if row.itemId in m.db.items then Goto(LockItem(m, sid, row.itemId), sid, BothRead(row, m.db.items[row.itemId]))
      else Release(m, sid)
    case Session(OnReset(itemId, _), Begun) =>
      if itemId in m.db.items then Goto(LockItem(m, sid, itemId), sid, StockRead(true))
      else Goto(m, sid, StockRead(false))
    case Session(OnReset(itemId, _), StockRead(_)) =>
      Goto(LockRows(m, sid, RowsOn(m.db, itemId)), sid, Cleared(RowsOn(m.db, itemId)))
    case _ => m
  }

  // ----- commits -----

  function Marked(db: InventoryDb, e: Event): InventoryDb {
    db.(processed := db.processed + {e.id})
  }

  /** What a session that is ready writes, from the values it has read; `Raised` on a duplicate key. */
  function Written(db: InventoryDb, next: Id, session: Session): Tx<InventoryDb> {
    match session
    case Session(OnEvent(e), pc) =>
      var o := OrderIdOf(e);
      if e.id in db.processed then Raised
      else (match pc
        case ItemRead(found) =>
          if e.payload.itemId.None? || e.payload.quantity.None? then Raised
          else
            var itemId, quantity := e.payload.itemId.value, e.payload.quantity.value;
            if found.Some? && CanReserve(found.value.available, quantity) then
              if o in db.reservations then Raised
              else
                var reserved := CreateEvent(InventoryReserved, o, e.payload.(reservationStatus := Some("RESERVED")),
                                            e.correlation, next);
                Ok(InventoryDb(
                     db.items[itemId :=
                         Item(found.value.available - quantity, found.value.reserved + quantity, found.value.sold)],
                     db.reservations[o := Reservation(itemId, quantity, RESERVED)],
                     db.processed + {e.id},
                     AddOutbox(db.outbox, reserved)),
                   next + IDS_PER_EVENT)
            else
              var reason := if found.None? then "item_not_found" else "insufficient_stock";
              var rejected := CreateEvent(InventoryRejected, o, e.payload.(reason := Some(reason)), e.correlation,
                                          next);
              Ok(Marked(db, e).(outbox := AddOutbox(db.outbox, rejected)), next + IDS_PER_EVENT)
        case BothRead(row, item) =>
          var release := e.kind.InventoryRelease?;
          var outcome := CreateEvent(if release then InventoryReleased else InventoryCommitted, o,
                                     OutcomePayload(o, row), e.correlation, next);
          var item' :=
            if release then Item(item.available + row.quantity, item.reserved - row.quantity, item.sold)
            else Item(item.available, item.reserved - row.quantity, item.sold + row.quantity);
          Ok(InventoryDb(
               db.items[row.itemId := item'],
               db.reservations[o := row.(status := if release then RELEASED else COMMITTED)],
               db.processed + {e.id},
               AddOutbox(db.outbox, outcome)),
             next + IDS_PER_EVENT)
        case _ => Ok(Marked(db, e), next))
    case Session(OnReset(itemId, quantity), Cleared(rows)) =>
      Ok(db.(items := db.items[itemId := Item(quantity, 0, 0)], reservations := db.reservations - rows), next)
    case Session(OnReset(itemId, quantity), _) =>
      if itemId in db.items then Raised else Ok(db.(items := db.items[itemId := Item(quantity, 0, 0)]), next)
  }

  predicate Ready(session: Session) {
    match session.task
    case OnEvent(_) =>
      session.pc.ItemRead? || session.pc.BothRead? || session.pc.SkipFound? || session.pc.SkipMissing?
      || session.pc.SkipSettled? || session.pc.SkipOther?
    case OnReset(_, _) => session.pc == StockRead(false) || session.pc.Cleared?
  }

  function Commit(m: Machine, sid: Sid): Machine
    requires sid in m.sessions
  {
    match Written(m.db, m.next, m.sessions[sid])
    case Ok(db, next) => Release(m, sid).(db := db, next := next)
    case Raised => Release(m, sid)
  }

  /** A session can be rolled back at any time, by an error, a deadlock or a crash. */
  datatype Action = Start(sid: Sid, task: Task) | Reads(sid: Sid) | Commits(sid: Sid) | Aborts(sid: Sid)

  predicate Can(m: Machine, a: Action) {
    match a
    case Start(sid, _) => sid !in m.sessions
    case Reads(sid) => CanRead(m, sid)
    case Commits(sid) => sid in m.sessions && Ready(m.sessions[sid])
    case Aborts(sid) => sid in m.sessions
  }

  function Do(m: Machine, a: Action): Machine
    requires Can(m, a)
  {
    match a
    case Start(sid, task) => m.(sessions := m.sessions[sid := Session(task, Begun)])
    case Reads(sid) => Read(m, sid)
    case Commits(sid) => Commit(m, sid)
    case Aborts(sid) => Release(m, sid)
  }

  // ----- what locks protect -----

  predicate HoldsItem(m: Machine, sid: Sid, itemId: string) {
    itemId in m.itemLocks && m.itemLocks[itemId] == sid && itemId in m.db.items
  }

  predicate HoldsRow(m: Machine, sid: Sid, o: OrderId) {
    o in m.rowLocks && m.rowLocks[o] == sid && o in m.db.reservations
  }

  /** What a session read under a lock is still what the table says. */
  predicate ReadsHold(m: Machine, sid: Sid)
    requires sid in m.sessions
  {
    match m.sessions[sid]
    case Session(OnEvent(e), ItemRead(found)) =>
      && e.kind.OrderCreated? && e.payload.itemId.Some? && e.payload.quantity.Some?
      && (found.Some? ==>
            HoldsItem(m, sid, e.payload.itemId.value) && m.db.items[e.payload.itemId.value] == found.value)
    case Session(OnEvent(e), RowRead(row)) =>
      && (e.kind.InventoryCommit? || e.kind.InventoryRelease?) && row.status == RESERVED
      && HoldsRow(m, sid, OrderIdOf(e)) && m.db.reservations[OrderIdOf(e)] == row
    case Session(OnEvent(e), BothRead(row, item)) =>
      && (e.kind.InventoryCommit? || e.kind.InventoryRelease?) && row.status == RESERVED
      && HoldsRow(m, sid, OrderIdOf(e)) && m.db.reservations[OrderIdOf(e)] == row
      && HoldsItem(m, sid, row.itemId) && m.db.items[row.itemId] == item
    case Session(OnEvent(e), SkipSettled(row)) =>
      && (e.kind.InventoryCommit? || e.kind.InventoryRelease?) && row.status != RESERVED
      && HoldsRow(m, sid, OrderIdOf(e)) && m.db.reservations[OrderIdOf(e)] == row
    case Session(OnEvent(e), Looked) => e.kind.OrderCreated?
    case Session(OnEvent(e), SkipFound) => e.kind.OrderCreated?
    case Session(OnEvent(e), SkipMissing) => e.kind.InventoryCommit? || e.kind.InventoryRelease?
    case Session(OnEvent(e), SkipOther) =>
      !e.kind.OrderCreated? && !e.kind.InventoryCommit? && !e.kind.InventoryRelease?
    case Session(OnReset(itemId, _), StockRead(known)) => known ==> HoldsItem(m, sid, itemId)
    case Session(OnReset(itemId, _), Cleared(rows)) =>
      && HoldsItem(m, sid, itemId)
      && rows == RowsOn(m.db, itemId)
      && (forall o {:trigger HoldsRow(m, sid, o)} :: o in rows ==> HoldsRow(m, sid, o))
    case _ => true
  }

  ghost predicate LocksHold(m: Machine) {
    forall sid {:trigger ReadsHold(m, sid)} :: sid in m.sessions ==> ReadsHold(m, sid)
  }

  ghost predicate Sound(m: Machine) {
    LocksHold(m) && Balanced(m.db)
  }

  // ----- other sessions are not disturbed -----

  predicate ItemKept(m: Machine, m': Machine, sid: Sid, i: string) {
    HoldsItem(m, sid, i) ==>
          HoldsItem(m', sid, i) && m'.db.items[i] == m.db.items[i] && RowsOn(m'.db, i) == RowsOn(m.db, i)
  }

  predicate RowKept(m: Machine, m': Machine, sid: Sid, o: OrderId) {
    HoldsRow(m, sid, o) ==> HoldsRow(m', sid, o) && m'.db.reservations[o] == m.db.reservations[o]
  }

  /** The rows that a session has locked, and their locks, are as they were. */
  ghost predicate LeavesAlone(m: Machine, m': Machine, sid: Sid) {
    && (sid in m.sessions <==> sid in m'.sessions) && (sid in m.sessions ==> m'.sessions[sid] == m.sessions[sid])
    && (forall i {:trigger ItemKept(m, m', sid, i)} :: ItemKept(m, m', sid, i))
    && (forall o {:trigger RowKept(m, m', sid, o)} :: RowKept(m, m', sid, o))
  }

  lemma LeftAloneKeepsReads(m: Machine, m': Machine, sid: Sid)
    requires sid in m.sessions && ReadsHold(m, sid) && LeavesAlone(m, m', sid)
    ensures sid in m'.sessions && ReadsHold(m', sid)
  {
    match m.sessions[sid]
    case Session(OnEvent(e), pc) =>
      assert RowKept(m, m', sid, OrderIdOf(e));
      if pc.ItemRead? { assert ItemKept(m, m', sid, e.payload.itemId.value); }
      if pc.BothRead? { assert ItemKept(m, m', sid, pc.row.itemId); }
    case Session(OnReset(itemId, _), pc) =>
      assert ItemKept(m, m', sid, itemId);
      if pc.Cleared? {
        forall o | o in pc.rows ensures HoldsRow(m', sid, o) {
          assert HoldsRow(m, sid, o) && RowKept(m, m', sid, o);
        }
      }
  }

  lemma ReadLeavesAlone(m: Machine, sid: Sid, other: Sid)
    requires CanRead(m, sid) && other != sid
    ensures LeavesAlone(m, Read(m, sid), other)
  {
  }

  lemma ReleaseLeavesAlone(m: Machine, sid: Sid, other: Sid)
    requires sid in m.sessions && other != sid
    ensures LeavesAlone(m, Release(m, sid), other)
  {
  }

  lemma ClearKeepsOwnReads(m: Machine, sid: Sid)
    requires CanRead(m, sid) && ReadsHold(m, sid) && m.sessions[sid].task.OnReset? && m.sessions[sid].pc.StockRead?
    ensures sid in Read(m, sid).sessions && ReadsHold(Read(m, sid), sid)
  {
    var m' := Read(m, sid);
    var rows := RowsOn(m.db, m.sessions[sid].task.itemId);
    assert m'.sessions[sid].pc == Cleared(rows);
    forall o | o in rows ensures HoldsRow(m', sid, o) {
    }
  }

  lemma FirstReadsKeepOwnReads(m: Machine, sid: Sid)
    requires CanRead(m, sid) && ReadsHold(m, sid) && m.sessions[sid].task.OnEvent?
    requires m.sessions[sid].pc.Begun? || m.sessions[sid].pc.Deduped?
    ensures sid in Read(m, sid).sessions && ReadsHold(Read(m, sid), sid)
  {
  }

  lemma LaterReadsKeepOwnReads(m: Machine, sid: Sid)
    requires CanRead(m, sid) && ReadsHold(m, sid) && m.sessions[sid].task.OnEvent?
    requires m.sessions[sid].pc.Looked? || m.sessions[sid].pc.RowRead?
    ensures sid in Read(m, sid).sessions && ReadsHold(Read(m, sid), sid)
  {
  }

  lemma ReadKeepsOwnReads(m: Machine, sid: Sid)
    requires CanRead(m, sid) && ReadsHold(m, sid)
    ensures sid in Read(m, sid).sessions && ReadsHold(Read(m, sid), sid)
  {
    if m.sessions[sid].task.OnEvent? {
      if m.sessions[sid].pc.Begun? || m.sessions[sid].pc.Deduped? {
        FirstReadsKeepOwnReads(m, sid);
      } else if m.sessions[sid].pc.Looked? || m.sessions[sid].pc.RowRead? {
        LaterReadsKeepOwnReads(m, sid);
      }
    } else if m.sessions[sid].pc.StockRead? {
      ClearKeepsOwnReads(m, sid);
    }
  }

  /** What a successful commit writes: rows that the session has locked, and rows that were not there. */
  ghost predicate WritesOwnRows(m: Machine, sid: Sid, db': InventoryDb) {
    && (forall i {:trigger i in db'.items} {:trigger i in m.db.items} ::
          (i in m.db.items ==> i in db'.items && (db'.items[i] == m.db.items[i] || HoldsItem(m, sid, i))))
    && (forall o {:trigger o in db'.reservations} {:trigger o in m.db.reservations} ::
          && (o in m.db.reservations ==>
                HoldsRow(m, sid, o) || (o in db'.reservations && db'.reservations[o] == m.db.reservations[o]))
          && (o in db'.reservations && o !in m.db.reservations ==> HoldsItem(m, sid, db'.reservations[o].itemId))
          && (o in m.db.reservations && o !in db'.reservations ==> HoldsItem(m, sid, m.db.reservations[o].itemId))
          && (o in db'.reservations && o in m.db.reservations ==>
                db'.reservations[o].itemId == m.db.reservations[o].itemId))
  }

  lemma CommitWritesOwnRows(m: Machine, sid: Sid)
    requires sid in m.sessions && Ready(m.sessions[sid]) && ReadsHold(m, sid)
    requires Written(m.db, m.next, m.sessions[sid]).Ok?
    ensures WritesOwnRows(m, sid, Written(m.db, m.next, m.sessions[sid]).db)
  {
  }

  lemma CommitLeavesAlone(m: Machine, sid: Sid, other: Sid)
    requires sid in m.sessions && Ready(m.sessions[sid]) && ReadsHold(m, sid) && other != sid
    ensures LeavesAlone(m, Commit(m, sid), other)
  {
    var tx := Written(m.db, m.next, m.sessions[sid]);
    if tx.Ok? {
      CommitWritesOwnRows(m, sid);
      WritesLeaveAlone(m, sid, other, tx.db, tx.next);
    } else {
      ReleaseLeavesAlone(m, sid, other);
    }
  }

  lemma WritesLeaveAlone(m: Machine, sid: Sid, other: Sid, db': InventoryDb, next': Id)
    requires sid in m.sessions && other != sid && WritesOwnRows(m, sid, db')
    ensures LeavesAlone(m, Release(m, sid).(db := db', next := next'), other)
  {
    var m' := Release(m, sid).(db := db', next := next');
    forall i ensures ItemKept(m, m', other, i) {
      if HoldsItem(m, other, i) {
        assert i in m.db.items;
        RowsOnKept(m, sid, other, db', i);
      }
    }
    forall o ensures RowKept(m, m', other, o) {
      if HoldsRow(m, other, o) {
        assert o in m.db.reservations;
      }
    }
  }

  /** No reservation on an item appears or disappears while another session has the item locked, but
      for those that a session deletes; and that session would need the item's lock. */
  lemma RowsOnKept(m: Machine, sid: Sid, other: Sid, db': InventoryDb, i: string)
    requires other != sid && WritesOwnRows(m, sid, db') && HoldsItem(m, other, i)
    ensures RowsOn(db', i) == RowsOn(m.db, i)
  {
  }
}
