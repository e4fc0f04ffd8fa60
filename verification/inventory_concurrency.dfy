/** What the row locks and primary keys of the inventory service guarantee in every interleaving. */
module InventoryConcurrency {
  import opened Events
  import opened Inventory
  import opened Ledger
  import opened InventorySessions

  // ----- the ledger -----

  lemma ReservingKeepsBalance(m: Machine, sid: Sid, e: Event)
    requires Balanced(m.db) && sid in m.sessions && m.sessions[sid].task == OnEvent(e) && m.sessions[sid].pc.ItemRead?
    requires ReadsHold(m, sid) && Written(m.db, m.next, m.sessions[sid]).Ok?
    ensures Balanced(Written(m.db, m.next, m.sessions[sid]).db)
  {
    var db', found := Written(m.db, m.next, m.sessions[sid]).db, m.sessions[sid].pc.found;
    var itemId, quantity := e.payload.itemId.value, e.payload.quantity.value;
    if found.Some? && CanReserve(found.value.available, quantity) {
      MoveKeepsBalance(m.db, db', OrderIdOf(e), Reservation(itemId, quantity, RESERVED),
                       Item(found.value.available - quantity, found.value.reserved + quantity, found.value.sold));
    } else {
      SameTablesConserve(m.db, db');
    }
  }

  lemma SettlingKeepsBalance(m: Machine, sid: Sid, e: Event)
    requires Balanced(m.db) && sid in m.sessions && m.sessions[sid].task == OnEvent(e) && m.sessions[sid].pc.BothRead?
    requires ReadsHold(m, sid) && Written(m.db, m.next, m.sessions[sid]).Ok?
    ensures Balanced(Written(m.db, m.next, m.sessions[sid]).db)
  {
    var db', o := Written(m.db, m.next, m.sessions[sid]).db, OrderIdOf(e);
    assert ReservationSound(m.db, o);
    var row := m.db.reservations[o];
    assert m.db.items[row.itemId].available >= 0 by {
      assert ItemBalanced(m.db, row.itemId);
    }
    MoveKeepsBalance(m.db, db', o, db'.reservations[o], db'.items[row.itemId]);
  }

  lemma ResettingKeepsBalance(m: Machine, sid: Sid, itemId: string, quantity: nat)
    requires Balanced(m.db) && sid in m.sessions && m.sessions[sid].task == OnReset(itemId, quantity)
    requires Ready(m.sessions[sid])
    requires ReadsHold(m, sid) && Written(m.db, m.next, m.sessions[sid]).Ok?
    ensures Balanced(Written(m.db, m.next, m.sessions[sid]).db)
    ensures Written(m.db, m.next, m.sessions[sid]) == Ok(WithStock(m.db, itemId, quantity), m.next)
  {
    ResetKeepsBalance(m.db, itemId, quantity);
    var db' := Written(m.db, m.next, m.sessions[sid]).db;
    assert db'.reservations == WithStock(m.db, itemId, quantity).reservations;
  }

  lemma CommitKeepsBalance(m: Machine, sid: Sid)
    requires Balanced(m.db) && sid in m.sessions && Ready(m.sessions[sid]) && ReadsHold(m, sid)
    ensures Balanced(Commit(m, sid).db)
  {
    if Written(m.db, m.next, m.sessions[sid]).Ok? {
      match m.sessions[sid].task
      case OnReset(itemId, quantity) => ResettingKeepsBalance(m, sid, itemId, quantity);
      case OnEvent(e) =>
        if m.sessions[sid].pc.ItemRead? {
          ReservingKeepsBalance(m, sid, e);
        } else if m.sessions[sid].pc.BothRead? {
          SettlingKeepsBalance(m, sid, e);
        } else {
          SameTablesConserve(m.db, Written(m.db, m.next, m.sessions[sid]).db);
        }
    }
  }

  lemma StepKeepsSound(m: Machine, a: Action)
    requires Sound(m) && Can(m, a)
    ensures Sound(Do(m, a))
  {
    var m' := Do(m, a);
    if a.Commits? {
      assert ReadsHold(m, a.sid);
      CommitKeepsBalance(m, a.sid);
    }
    forall sid | sid in m'.sessions ensures ReadsHold(m', sid) {
      if sid != a.sid {
        assert ReadsHold(m, sid);
        OthersKeepReads(m, a, sid);
      } else {
        OwnReadsHold(m, a);
      }
    }
  }

  lemma OthersKeepReads(m: Machine, a: Action, sid: Sid)
    requires LocksHold(m) && Can(m, a) && sid != a.sid && sid in m.sessions && ReadsHold(m, sid)
    ensures sid in Do(m, a).sessions && ReadsHold(Do(m, a), sid)
  {
    match a {
      case Start(_, _) =>
      case Reads(actor) => ReadLeavesAlone(m, actor, sid);
      case Commits(actor) => assert ReadsHold(m, actor); CommitLeavesAlone(m, actor, sid);
      case Aborts(actor) => ReleaseLeavesAlone(m, actor, sid);
    }
    LeftAloneKeepsReads(m, Do(m, a), sid);
  }

  lemma OwnReadsHold(m: Machine, a: Action)
    requires LocksHold(m) && Can(m, a)
    ensures a.sid in Do(m, a).sessions && ReadsHold(Do(m, a), a.sid)
  {
    if a.Reads? {
      assert ReadsHold(m, a.sid);
      ReadKeepsOwnReads(m, a.sid);
    }
  }

  predicate IsRun(m: Machine, acts: seq<Action>)
    decreases |acts|
  {
    acts == [] || (Can(m, acts[0]) && IsRun(Do(m, acts[0]), acts[1..]))
  }

  function Exec(m: Machine, acts: seq<Action>): Machine
    requires IsRun(m, acts)
    decreases |acts|
  {
    if acts == [] then m else Exec(Do(m, acts[0]), acts[1..])
  }

  const START := Machine(EMPTY, 0, map[], map[], map[])

  lemma {:induction false} RunKeepsSound(m: Machine, acts: seq<Action>)
    requires Sound(m) && IsRun(m, acts)
    ensures Sound(Exec(m, acts))
    decreases |acts|
  {
    if acts != [] {
      StepKeepsSound(m, acts[0]);
      RunKeepsSound(Do(m, acts[0]), acts[1..]);
    }
  }

  /** No interleaving of any number of handlers and resets, on any events, oversells or unbalances an item. */
  lemma LedgerHoldsUnderInterleaving(acts: seq<Action>, itemId: string)
    requires IsRun(START, acts) && itemId in Exec(START, acts).db.items
    ensures ColumnsHold(Exec(START, acts).db, itemId)
  {
    RunKeepsSound(START, acts);
    BalancedColumns(Exec(START, acts).db, itemId);
  }

  // ----- each event at most once -----

  /** The step commits the effect of the event. */
  predicate TakesEffect(m: Machine, a: Action, id: EventId) {
    && a.Commits? && a.sid in m.sessions && Ready(m.sessions[a.sid])
    && m.sessions[a.sid].task.OnEvent? && m.sessions[a.sid].task.event.id == id
    && Written(m.db, m.next, m.sessions[a.sid]).Ok?
  }

  function Effects(m: Machine, acts: seq<Action>, id: EventId): nat
    requires IsRun(m, acts)
    decreases |acts|
  {
    if acts == [] then 0
    else (if TakesEffect(m, acts[0], id) then 1 else 0) + Effects(Do(m, acts[0]), acts[1..], id)
  }

  lemma WritingProcesses(db: InventoryDb, next: Id, session: Session, id: EventId)
    requires Ready(session) && Written(db, next, session).Ok?
    ensures id in Written(db, next, session).db.processed <==>
              id in db.processed || (session.task.OnEvent? && session.task.event.id == id)
    ensures session.task.OnEvent? ==> session.task.event.id !in db.processed
  {
  }

  lemma ReadingProcessesNothing(m: Machine, sid: Sid)
    requires CanRead(m, sid)
    ensures Read(m, sid).db == m.db
  {
  }

  lemma ProcessedByOneStep(m: Machine, a: Action, id: EventId)
    requires Can(m, a)
    ensures id in Do(m, a).db.processed <==> id in m.db.processed || TakesEffect(m, a, id)
    ensures TakesEffect(m, a, id) ==> id !in m.db.processed
  {
    match a
    case Commits(sid) =>
      if Written(m.db, m.next, m.sessions[sid]).Ok? {
        WritingProcesses(m.db, m.next, m.sessions[sid], id);
      }
    case Reads(sid) => ReadingProcessesNothing(m, sid);
    case _ =>
  }

  /** However many sessions handle copies of an event, and even if they all read that it is not
      processed, it takes effect exactly once if it is processed in the end, and otherwise never. */
  lemma {:induction false} AtMostOnce(m: Machine, acts: seq<Action>, id: EventId)
    requires IsRun(m, acts)
    ensures Effects(m, acts, id) == if id !in m.db.processed && id in Exec(m, acts).db.processed then 1 else 0
    ensures id in m.db.processed ==> id in Exec(m, acts).db.processed
    decreases |acts|
  {
    if acts != [] {
      ProcessedByOneStep(m, acts[0], id);
      AtMostOnce(Do(m, acts[0]), acts[1..], id);
    }
  }

  // ----- when a commit is atomic -----

  /** The commit does what the handler would do if it ran alone, all at once, at this moment. */
  predicate Atomic(m: Machine, sid: Sid)
    requires sid in m.sessions
  {
    match m.sessions[sid].task
    case OnEvent(e) => Written(m.db, m.next, m.sessions[sid]) == Inventory.Handle(m.db, e, m.next)
    case OnReset(itemId, quantity) =>
      Written(m.db, m.next, m.sessions[sid]) == Ok(WithStock(m.db, itemId, quantity), m.next)
  }

  /** The reads that no lock protects, those that found no row and the unlocked one, are still true. */
  predicate UnlockedReadsHold(m: Machine, sid: Sid)
    requires sid in m.sessions
  {
    match m.sessions[sid]
    case Session(OnEvent(e), ItemRead(found)) =>
      && OrderIdOf(e) !in m.db.reservations
      && (found.None? && e.payload.itemId.Some? ==> e.payload.itemId.value !in m.db.items)
    case Session(OnEvent(e), SkipFound) => OrderIdOf(e) in m.db.reservations
    case Session(OnEvent(e), SkipMissing) =>
      OrderIdOf(e) in m.db.reservations ==> m.db.reservations[OrderIdOf(e)].status != RESERVED
    case _ => true
  }

  /** A successful commit is atomic exactly if the reads that no lock protects still hold. */
  lemma AtomicIffUnlockedReadsHold(m: Machine, sid: Sid)
    requires Sound(m) && sid in m.sessions && Ready(m.sessions[sid])
    requires Written(m.db, m.next, m.sessions[sid]).Ok?
    ensures Atomic(m, sid) <==> UnlockedReadsHold(m, sid)
  {
    assert ReadsHold(m, sid);
    match m.sessions[sid].task
    case OnReset(itemId, quantity) => ResettingKeepsBalance(m, sid, itemId, quantity);
    case OnEvent(e) =>
      match m.sessions[sid].pc
      case ItemRead(found) => ReservingAtomic(m, sid, e);
      case BothRead(row, item) => SettlingAtomic(m, sid, e);
      case _ => SkippingAtomic(m, sid, e);
  }

  lemma ReservingAtomic(m: Machine, sid: Sid, e: Event)
    requires sid in m.sessions && m.sessions[sid].task == OnEvent(e) && m.sessions[sid].pc.ItemRead?
    requires ReadsHold(m, sid) && Written(m.db, m.next, m.sessions[sid]).Ok?
    ensures Atomic(m, sid) <==> UnlockedReadsHold(m, sid)
  {
    var o, itemId := OrderIdOf(e), e.payload.itemId.value;
    if m.sessions[sid].pc.found.None? && itemId in m.db.items && o !in m.db.reservations {
      var alone := Inventory.Handle(m.db, e, m.next).db;
      if o !in alone.reservations {
        assert |alone.outbox[m.next].event.payload.reason.value| == |"insufficient_stock"|;
        assert |Written(m.db, m.next, m.sessions[sid]).db.outbox[m.next].event.payload.reason.value|
            == |"item_not_found"|;
      }
    }
  }

  lemma SettlingAtomic(m: Machine, sid: Sid, e: Event)
    requires sid in m.sessions && m.sessions[sid].task == OnEvent(e) && m.sessions[sid].pc.BothRead?
    requires ReadsHold(m, sid) && Written(m.db, m.next, m.sessions[sid]).Ok?
    ensures Atomic(m, sid)
  {
  }

  lemma SkippingAtomic(m: Machine, sid: Sid, e: Event)
    requires sid in m.sessions && m.sessions[sid].task == OnEvent(e)
    requires Ready(m.sessions[sid]) && !m.sessions[sid].pc.ItemRead? && !m.sessions[sid].pc.BothRead?
    requires ReadsHold(m, sid) && Written(m.db, m.next, m.sessions[sid]).Ok?
    ensures Atomic(m, sid) <==> UnlockedReadsHold(m, sid)
  {
  }

  const LATE_STOCK := [Reads(0), Reads(0), Reads(0), Start(1, OnReset("SKU", 5)), Reads(1), Commits(1)]

  function AskFor(itemId: string): Event {
    Event(1, OrderCreated, 0, None, Payload(Some(0), Some(itemId), Some(1), None, None, None, None, None))
  }

  /** A consumer that has found no row for the item it is asked for. */
  lemma FindsNoItem(m: Machine)
    requires m == Machine(EMPTY, 0, map[], map[], map[0 := Session(OnEvent(AskFor("SKU")), Begun)])
    ensures IsRun(m, LATE_STOCK[..3])
    ensures Exec(m, LATE_STOCK[..3]).db == EMPTY && Exec(m, LATE_STOCK[..3]).itemLocks == map[]
    ensures Exec(m, LATE_STOCK[..3]).rowLocks == map[]
    ensures Exec(m, LATE_STOCK[..3]).sessions == map[0 := Session(OnEvent(AskFor("SKU")), ItemRead(None))]
  {
    var m1 := Do(m, Reads(0));
    assert m1.sessions[0] == Session(OnEvent(AskFor("SKU")), Deduped);
    var m2 := Do(m1, Reads(0));
    assert m2.sessions[0] == Session(OnEvent(AskFor("SKU")), Looked);
    assert LATE_STOCK[..3] == [Reads(0), Reads(0), Reads(0)];
    assert IsRun(m2, [Reads(0)]) && IsRun(m1, [Reads(0), Reads(0)]);
  }

  lemma StockArrives(m: Machine)
    requires m.db == EMPTY && m.itemLocks == map[] && m.rowLocks == map[]
    requires m.sessions == map[0 := Session(OnEvent(AskFor("SKU")), ItemRead(None))]
    ensures IsRun(m, LATE_STOCK[3..])
    ensures "SKU" in Exec(m, LATE_STOCK[3..]).db.items && Exec(m, LATE_STOCK[3..]).db.processed == {}
    ensures 0 in Exec(m, LATE_STOCK[3..]).sessions
    ensures Exec(m, LATE_STOCK[3..]).sessions[0] == Session(OnEvent(AskFor("SKU")), ItemRead(None))
  {
    var task := OnReset("SKU", 5);
    var m1 := Do(m, Start(1, task));
    var m2 := Do(m1, Reads(1));
    assert m2.sessions[1] == Session(task, StockRead(false));
    assert LATE_STOCK[3..] == [Start(1, task), Reads(1), Commits(1)];
    assert IsRun(m2, [Commits(1)]) && IsRun(m1, [Reads(1), Commits(1)]);
  }

  lemma {:induction false} RunsJoin(m: Machine, a: seq<Action>, b: seq<Action>)
    requires IsRun(m, a) && IsRun(Exec(m, a), b)
    ensures IsRun(m, a + b) && Exec(m, a + b) == Exec(Exec(m, a), b)
    decreases |a|
  {
    if a == [] {
      assert a + b == b;
    } else {
      assert (a + b)[0] == a[0] && (a + b)[1..] == a[1..] + b;
      RunsJoin(Do(m, a[0]), a[1..], b);
    }
  }

  /** The consumer's whole run: it starts, finds no item, and is about to reject when the item has arrived. */
  lemma StaleRun() returns (acts: seq<Action>)
    ensures IsRun(START, acts)
    ensures var m := Exec(START, acts);
            && "SKU" in m.db.items && m.db.processed == {}
            && 0 in m.sessions && m.sessions[0] == Session(OnEvent(AskFor("SKU")), ItemRead(None))
  {
    var first := Start(0, OnEvent(AskFor("SKU")));
    var m := Do(START, first);
    FindsNoItem(m);
    StockArrives(Exec(m, LATE_STOCK[..3]));
    RunsJoin(m, LATE_STOCK[..3], LATE_STOCK[3..]);
    assert LATE_STOCK[..3] + LATE_STOCK[3..] == LATE_STOCK;
    acts := [first] + LATE_STOCK;
    assert acts[1..] == LATE_STOCK;
  }

  /** It is not always atomic: while a consumer that found no item row decides to reject an order, the
      item can be stocked; the order is then rejected for a missing item that the table has. */
  lemma RejectionCanBeStale()
    ensures exists acts, sid {:trigger IsRun(START, acts), sid in Exec(START, acts).sessions} ::
              && IsRun(START, acts)
              && var m := Exec(START, acts);
              && sid in m.sessions && Ready(m.sessions[sid])
              && Written(m.db, m.next, m.sessions[sid]).Ok? && !Atomic(m, sid)
  {
    var acts := StaleRun();
    var m := Exec(START, acts);
    RunKeepsSound(START, acts);
    assert Written(m.db, m.next, m.sessions[0]).Ok?;
    AtomicIffUnlockedReadsHold(m, 0);
    assert IsRun(START, acts) && 0 in Exec(START, acts).sessions;
  }

  // ----- under the Saga's discipline -----

  /** The Saga emits one `order.created` event per order, and a commit or release only once that event
      was processed. `created` names the event of each order. */
  predicate Expected(m: Machine, task: Task, created: map<OrderId, EventId>) {
    task.OnEvent? ==>
      var e := task.event;
      var o := OrderIdOf(e);
      && (e.kind.OrderCreated? ==> o in created && created[o] == e.id)
      && (e.kind.InventoryCommit? || e.kind.InventoryRelease? ==> o in created && created[o] in m.db.processed)
  }

  predicate Granted(m: Machine, o: OrderId, created: map<OrderId, EventId>) {
    o in m.db.reservations ==> o in created && created[o] in m.db.processed
  }

  predicate SessionExpected(m: Machine, sid: Sid, created: map<OrderId, EventId>)
    requires sid in m.sessions
  {
    && Expected(m, m.sessions[sid].task, created)
    && (m.sessions[sid].task.OnEvent? ==>
          && (m.sessions[sid].pc.SkipFound? ==> m.sessions[sid].task.event.id in m.db.processed)
          && (m.sessions[sid].pc.SkipMissing? ==> OrderIdOf(m.sessions[sid].task.event) !in m.db.reservations))
  }

  ghost predicate Disciplined(m: Machine, created: map<OrderId, EventId>) {
    && (forall o {:trigger Granted(m, o, created)} :: Granted(m, o, created))
    && (forall sid {:trigger SessionExpected(m, sid, created)} :: sid in m.sessions ==>
          SessionExpected(m, sid, created))
  }

  /** Under that discipline the only commit that is not atomic is the stale `item_not_found`. */
  lemma DisciplinedCommitIsAtomic(m: Machine, sid: Sid, created: map<OrderId, EventId>)
    requires Sound(m) && Disciplined(m, created) && sid in m.sessions && Ready(m.sessions[sid])
    requires Written(m.db, m.next, m.sessions[sid]).Ok?
    ensures Atomic(m, sid) <==>
              !(m.sessions[sid].pc == ItemRead(None) && m.sessions[sid].task.OnEvent?
                && m.sessions[sid].task.event.payload.itemId.Some?
                && m.sessions[sid].task.event.payload.itemId.value in m.db.items)
  {
    AtomicIffUnlockedReadsHold(m, sid);
    assert ReadsHold(m, sid) && SessionExpected(m, sid, created);
    if m.sessions[sid].task.OnEvent? {
      assert Granted(m, OrderIdOf(m.sessions[sid].task.event), created);
    }
  }

  /** What no commit undoes, and the reservations that it may add. */
  predicate Progresses(m: Machine, m': Machine, a: Action) {
    && m.db.processed <= m'.db.processed
    && (forall o :: o in m'.db.reservations && o !in m.db.reservations ==>
          && a.Commits? && a.sid in m.sessions && m.sessions[a.sid].task.OnEvent?
          && var e := m.sessions[a.sid].task.event;
             e.kind.OrderCreated? && OrderIdOf(e) == o && e.id !in m.db.processed && e.id in m'.db.processed)
  }

  lemma StepProgresses(m: Machine, a: Action)
    requires LocksHold(m) && Can(m, a)
    ensures Progresses(m, Do(m, a), a)
  {
    if a.Commits? {
      assert ReadsHold(m, a.sid);
    }
  }

  lemma OtherStaysExpected(m: Machine, m': Machine, a: Action, sid: Sid, created: map<OrderId, EventId>)
    requires Progresses(m, m', a) && sid in m.sessions && sid in m'.sessions && m'.sessions[sid] == m.sessions[sid]
    requires ReadsHold(m, sid) && SessionExpected(m, sid, created)
    requires a.Commits? && a.sid in m.sessions ==> SessionExpected(m, a.sid, created)
    ensures SessionExpected(m', sid, created)
  {
  }

  lemma ReaderStaysExpected(m: Machine, sid: Sid, created: map<OrderId, EventId>)
    requires CanRead(m, sid) && SessionExpected(m, sid, created)
    requires m.sessions[sid].task.OnEvent? ==> Granted(m, OrderIdOf(m.sessions[sid].task.event), created)
    ensures sid in Read(m, sid).sessions && SessionExpected(Read(m, sid), sid, created)
  {
  }

  lemma ActorStaysExpected(m: Machine, a: Action, created: map<OrderId, EventId>)
    requires Can(m, a) && (a.Start? ==> Expected(m, a.task, created))
    requires a.sid in m.sessions ==> SessionExpected(m, a.sid, created)
    requires forall o {:trigger Granted(m, o, created)} :: Granted(m, o, created)
    requires m.db.processed <= Do(m, a).db.processed
    ensures a.sid in Do(m, a).sessions && SessionExpected(Do(m, a), a.sid, created)
  {
    if a.Reads? {
      assert m.sessions[a.sid].task.OnEvent? ==> Granted(m, OrderIdOf(m.sessions[a.sid].task.event), created);
      ReaderStaysExpected(m, a.sid, created);
    }
  }

  lemma OthersAreUntouched(m: Machine, a: Action, sid: Sid)
    requires Can(m, a) && sid != a.sid && sid in Do(m, a).sessions
    ensures sid in m.sessions && Do(m, a).sessions[sid] == m.sessions[sid]
  {
  }

  lemma StepKeepsDisciplined(m: Machine, a: Action, created: map<OrderId, EventId>)
    requires Sound(m) && Disciplined(m, created) && Can(m, a)
    requires a.Start? ==> Expected(m, a.task, created)
    ensures Disciplined(Do(m, a), created)
  {
    var m' := Do(m, a);
    StepProgresses(m, a);
    assert a.sid in m.sessions ==> SessionExpected(m, a.sid, created);
    forall o ensures Granted(m', o, created) {
      assert Granted(m, o, created);
    }
    forall sid | sid in m'.sessions ensures SessionExpected(m', sid, created) {
      if sid == a.sid {
        ActorStaysExpected(m, a, created);
      } else {
        OthersAreUntouched(m, a, sid);
        assert SessionExpected(m, sid, created) && ReadsHold(m, sid);
        OtherStaysExpected(m, m', a, sid, created);
      }
    }
  }

  /** Every session that starts in the run was expected when it started. */
  predicate DisciplinedRun(m: Machine, acts: seq<Action>, created: map<OrderId, EventId>)
    requires IsRun(m, acts)
    decreases |acts|
  {
    acts == [] || ((acts[0].Start? ==>
          Expected(m, acts[0].task, created)) && DisciplinedRun(Do(m, acts[0]), acts[1..], created))
  }

  lemma {:induction false} RunKeepsDisciplined(m: Machine, acts: seq<Action>, created: map<OrderId, EventId>)
    requires Sound(m) && Disciplined(m, created) && IsRun(m, acts) && DisciplinedRun(m, acts, created)
    ensures Sound(Exec(m, acts)) && Disciplined(Exec(m, acts), created)
    decreases |acts|
  {
    if acts != [] {
      StepKeepsSound(m, acts[0]);
      StepKeepsDisciplined(m, acts[0], created);
      RunKeepsDisciplined(Do(m, acts[0]), acts[1..], created);
    }
  }

  /** In every interleaving of expected handlers and resets, a commit is the atomic handler at that
      moment, or the rejection of an order for an item whose row was inserted after the handler looked. */
  lemma CommitsAreAtomic(acts: seq<Action>, sid: Sid, created: map<OrderId, EventId>)
    requires IsRun(START, acts) && DisciplinedRun(START, acts, created)
    requires var m := Exec(START, acts);
             sid in m.sessions && Ready(m.sessions[sid]) && Written(m.db, m.next, m.sessions[sid]).Ok?
    ensures var m := Exec(START, acts);
            Atomic(m, sid) || (m.sessions[sid].task.OnEvent? && m.sessions[sid].pc == ItemRead(None))
  {
    assert Disciplined(START, created);
    RunKeepsDisciplined(START, acts, created);
    DisciplinedCommitIsAtomic(Exec(START, acts), sid, created);
  }

  // ----- what is locked, and by whom -----

  /** The item row that a session needs locked from here on. */
  function ItemOf(session: Session): Option<string> {
    match session
    case Session(OnEvent(e), ItemRead(found)) => if found.Some? then e.payload.itemId else None
    case Session(OnEvent(_), BothRead(row, _)) => Some(row.itemId)
    case Session(OnReset(itemId, _), StockRead(known)) => if known then Some(itemId) else None
    case Session(OnReset(itemId, _), Cleared(_)) => Some(itemId)
    case _ => None
  }

  /** The reservation rows that it needs locked. */
  function RowsOf(session: Session): set<OrderId> {
    match session
    case Session(OnEvent(e), RowRead(_)) => {OrderIdOf(e)}
    case Session(OnEvent(e), BothRead(_, _)) => {OrderIdOf(e)}
    case Session(OnEvent(e), SkipSettled(_)) => {OrderIdOf(e)}
    case Session(OnReset(_, _), Cleared(rows)) => rows
    case _ => {}
  }

  predicate ItemOwned(m: Machine, itemId: string) {
    itemId in m.itemLocks ==>
      m.itemLocks[itemId] in m.sessions && ItemOf(m.sessions[m.itemLocks[itemId]]) == Some(itemId)
  }

  predicate RowOwned(m: Machine, o: OrderId) {
    o in m.rowLocks ==> m.rowLocks[o] in m.sessions && o in RowsOf(m.sessions[m.rowLocks[o]])
  }

  ghost predicate LocksOwned(m: Machine) {
    && (forall itemId {:trigger ItemOwned(m, itemId)} :: ItemOwned(m, itemId))
    && (forall o {:trigger RowOwned(m, o)} :: RowOwned(m, o))
  }

  lemma ReadKeepsItemOwned(m: Machine, sid: Sid, itemId: string)
    requires CanRead(m, sid) && ItemOwned(m, itemId)
    ensures ItemOwned(Read(m, sid), itemId)
  {
  }

  lemma ReadKeepsRowOwned(m: Machine, sid: Sid, o: OrderId)
    requires CanRead(m, sid) && RowOwned(m, o)
    ensures RowOwned(Read(m, sid), o)
  {
  }

  lemma StepKeepsOwned(m: Machine, a: Action)
    requires LocksOwned(m) && Can(m, a)
    ensures LocksOwned(Do(m, a))
  {
    forall itemId
      ensures ItemOwned(Do(m, a), itemId)
    {
      assert ItemOwned(m, itemId);
      if a.Reads? {
        ReadKeepsItemOwned(m, a.sid, itemId);
      }
    }
    forall o
      ensures RowOwned(Do(m, a), o)
    {
      assert RowOwned(m, o);
      if a.Reads? {
        ReadKeepsRowOwned(m, a.sid, o);
      }
    }
  }

  lemma {:induction false} RunKeepsOwned(m: Machine, acts: seq<Action>)
    requires LocksOwned(m) && IsRun(m, acts)
    ensures LocksOwned(Exec(m, acts))
    decreases |acts|
  {
    if acts != [] {
      StepKeepsOwned(m, acts[0]);
      RunKeepsOwned(Do(m, acts[0]), acts[1..]);
    }
  }

  predicate Waited(m: Machine, sid: Sid) {
    sid in m.sessions && m.sessions[sid].pc != Ended
  }

  /** No lock outlives the session that took it, and none is held that its session does not need: who waits, waits
      for a session that is still under way, and when all have ended, nothing is locked. */
  lemma LocksAreReleased(acts: seq<Action>)
    requires IsRun(START, acts)
    ensures var m := Exec(START, acts);
            && (forall i :: i in m.itemLocks ==>
                  Waited(m, m.itemLocks[i]) && ItemOf(m.sessions[m.itemLocks[i]]) == Some(i))
            && (forall o :: o in m.rowLocks ==>
                  Waited(m, m.rowLocks[o]) && o in RowsOf(m.sessions[m.rowLocks[o]]))
            && ((forall sid :: !Waited(m, sid)) ==> m.itemLocks == map[] && m.rowLocks == map[])
  {
    RunKeepsOwned(START, acts);
    var m := Exec(START, acts);
    forall i | i in m.itemLocks
      ensures Waited(m, m.itemLocks[i]) && ItemOf(m.sessions[m.itemLocks[i]]) == Some(i)
    {
      assert ItemOwned(m, i);
    }
    forall o | o in m.rowLocks
      ensures Waited(m, m.rowLocks[o]) && o in RowsOf(m.sessions[m.rowLocks[o]])
    {
      assert RowOwned(m, o);
    }
    if forall sid :: !Waited(m, sid) {
      assert forall i :: i !in m.itemLocks;
      assert forall o :: o !in m.rowLocks;
    }
  }

  /** A session for an event that is processed already. */
  predicate Skips(m: Machine, sid: Sid, e: Event) {
    && sid in m.sessions && m.sessions[sid].task == OnEvent(e) && e.id in m.db.processed
    && (m.sessions[sid].pc.Begun? || m.sessions[sid].pc.Ended?)
  }

  lemma StepKeepsSkips(m: Machine, a: Action, sid: Sid, e: Event)
    requires Skips(m, sid, e) && Can(m, a)
    ensures Skips(Do(m, a), sid, e)
  {
    ProcessedByOneStep(m, a, e.id);
    if a.sid != sid && !a.Start? {
      OthersAreUntouched(m, a, sid);
    }
  }

  /** A repeat that arrives after its event was processed ends at its first read: it locks nothing and waits for
      nobody. */
  lemma {:induction false} RepeatsAreSkipped(m: Machine, acts: seq<Action>, sid: Sid, e: Event)
    requires Skips(m, sid, e) && IsRun(m, acts)
    ensures Skips(Exec(m, acts), sid, e)
    decreases |acts|
  {
    if acts != [] {
      StepKeepsSkips(m, acts[0], sid, e);
      RepeatsAreSkipped(Do(m, acts[0]), acts[1..], sid, e);
    }
  }
}
