/** What the split-up machines do when nobody interferes: a session, a caller or a publisher that runs alone comes to
    its end, and does just what the undivided operation does. */
module Undisturbed {
  import opened Events
  import Orders
  import Inventory
  import Payments
  import opened Publisher
  import IS = InventorySessions
  import PS = PaymentSessions
  import CR = CreationRaces
  import Publishers

  // ----- the inventory service -----

  /** The next step of a session that has one: its commit if it is ready, else its next read. */
  function Go(m: IS.Machine, sid: IS.Sid): IS.Machine {
    if sid !in m.sessions || m.sessions[sid].pc.Ended? then m
    else if IS.Ready(m.sessions[sid]) then IS.Do(m, IS.Commits(sid))
    else if IS.CanRead(m, sid) then IS.Do(m, IS.Reads(sid))
    else m
  }

  function Begin(db: Inventory.InventoryDb, next: Id, sid: IS.Sid, task: IS.Task): IS.Machine {
    IS.Do(IS.Machine(db, next, map[], map[], map[]), IS.Start(sid, task))
  }

  /** Four steps are enough for any task. */
  function GoOn(m: IS.Machine, sid: IS.Sid): IS.Machine {
    Go(Go(Go(Go(m, sid), sid), sid), sid)
  }

  /** A machine with one session, which holds all the locks there are. */
  function Solo(
    db: Inventory.InventoryDb, next: Id, sid: IS.Sid, task: IS.Task, pc: IS.Pc,
    items: set<string>, rows: set<OrderId>): IS.Machine
  {
    IS.Machine(
      db, next, map i | i in items :: sid, map o | o in rows :: sid, map[sid := IS.Session(task, pc)])
  }

  /** The session has ended and all its locks are released. */
  function Over(db: Inventory.InventoryDb, next: Id, sid: IS.Sid, task: IS.Task)
    : IS.Machine
  {
    Solo(db, next, sid, task, IS.Ended, {}, {})
  }

  lemma StartsSolo(db: Inventory.InventoryDb, next: Id, sid: IS.Sid, task: IS.Task)
    ensures Begin(db, next, sid, task) == Solo(db, next, sid, task, IS.Begun, {}, {})
  {
    var m := Begin(db, next, sid, task);
    assert m.sessions == map[sid := IS.Session(task, IS.Begun)];
  }

  lemma GotoSolo(
    db: Inventory.InventoryDb, next: Id, sid: IS.Sid, task: IS.Task, pc: IS.Pc,
    items: set<string>, rows: set<OrderId>, pc': IS.Pc)
    ensures IS.Goto(Solo(db, next, sid, task, pc, items, rows), sid, pc')
         == Solo(db, next, sid, task, pc', items, rows)
  {
  }

  lemma ReleaseSolo(
    db: Inventory.InventoryDb, next: Id, sid: IS.Sid, task: IS.Task, pc: IS.Pc,
    items: set<string>, rows: set<OrderId>)
    ensures IS.Release(Solo(db, next, sid, task, pc, items, rows), sid) == Over(db, next, sid, task)
  {
    var m := IS.Release(Solo(db, next, sid, task, pc, items, rows), sid);
    assert m.itemLocks == map[] && m.rowLocks == map[];
    assert m.sessions == map[sid := IS.Session(task, IS.Ended)];
  }

  lemma LockItemSolo(
    db: Inventory.InventoryDb, next: Id, sid: IS.Sid, task: IS.Task, pc: IS.Pc,
    rows: set<OrderId>, itemId: string)
    ensures IS.LockItem(Solo(db, next, sid, task, pc, {}, rows), sid, itemId)
         == Solo(db, next, sid, task, pc, {itemId}, rows)
  {
    var m, m' := Solo(db, next, sid, task, pc, {}, rows), Solo(db, next, sid, task, pc, {itemId}, rows);
    assert IS.LockItem(m, sid, itemId).itemLocks == m'.itemLocks;
  }

  lemma LockRowsSolo(
    db: Inventory.InventoryDb, next: Id, sid: IS.Sid, task: IS.Task, pc: IS.Pc,
    items: set<string>, rows: set<OrderId>)
    ensures IS.LockRows(Solo(db, next, sid, task, pc, items, {}), sid, rows)
         == Solo(db, next, sid, task, pc, items, rows)
  {
    var m, m' := Solo(db, next, sid, task, pc, items, {}), Solo(db, next, sid, task, pc, items, rows);
    assert IS.LockRows(m, sid, rows).rowLocks == m'.rowLocks;
  }

  lemma LockRowSolo(
    db: Inventory.InventoryDb, next: Id, sid: IS.Sid, task: IS.Task, pc: IS.Pc,
    o: OrderId)
    ensures IS.LockRow(Solo(db, next, sid, task, pc, {}, {}), sid, o)
         == Solo(db, next, sid, task, pc, {}, {o})
  {
    var m, m' := Solo(db, next, sid, task, pc, {}, {}), Solo(db, next, sid, task, pc, {}, {o});
    assert IS.LockRow(m, sid, o).rowLocks == m'.rowLocks;
  }

  lemma CommitSolo(
    db: Inventory.InventoryDb, next: Id, sid: IS.Sid, task: IS.Task, pc: IS.Pc,
    items: set<string>, rows: set<OrderId>)
    requires IS.Ready(IS.Session(task, pc)) && !pc.Ended?
    requires IS.Written(db, next, IS.Session(task, pc)).Ok?
    ensures var tx := IS.Written(db, next, IS.Session(task, pc));
            Go(Solo(db, next, sid, task, pc, items, rows), sid) == Over(tx.db, tx.next, sid, task)
  {
    ReleaseSolo(db, next, sid, task, pc, items, rows);
  }

  lemma OverIsOver(db: Inventory.InventoryDb, next: Id, sid: IS.Sid, task: IS.Task)
    ensures Go(Over(db, next, sid, task), sid) == Over(db, next, sid, task)
  {
  }

  lemma FirstRead(db: Inventory.InventoryDb, next: Id, sid: IS.Sid, e: Event)
    ensures Go(Begin(db, next, sid, IS.OnEvent(e)), sid) ==
              if e.id in db.processed then Over(db, next, sid, IS.OnEvent(e))
              else Solo(db, next, sid, IS.OnEvent(e), IS.Deduped, {}, {})
  {
    var task := IS.OnEvent(e);
    StartsSolo(db, next, sid, task);
    GotoSolo(db, next, sid, task, IS.Begun, {}, {}, IS.Deduped);
    ReleaseSolo(db, next, sid, task, IS.Begun, {}, {});
  }

  /** Where the second read of a handler leads. */
  lemma SecondRead(db: Inventory.InventoryDb, next: Id, sid: IS.Sid, e: Event)
    ensures var task, o := IS.OnEvent(e), OrderIdOf(e);
            var after := Go(Solo(db, next, sid, task, IS.Deduped, {}, {}), sid);
            if e.kind.OrderCreated? then
              after == Solo(db, next, sid, task,
                            if o in db.reservations then IS.SkipFound else IS.Looked, {}, {})
            else if !(e.kind.InventoryCommit? || e.kind.InventoryRelease?) then
              after == Solo(db, next, sid, task, IS.SkipOther, {}, {})
            else if o !in db.reservations then after == Solo(db, next, sid, task, IS.SkipMissing, {}, {})
            else if db.reservations[o].status == Inventory.RESERVED then
              after == Solo(db, next, sid, task, IS.RowRead(db.reservations[o]), {}, {o})
            else after == Solo(db, next, sid, task, IS.SkipSettled(db.reservations[o]), {}, {o})
  {
    var task, o := IS.OnEvent(e), OrderIdOf(e);
    LockRowSolo(db, next, sid, task, IS.Deduped, o);
  }

  /** Where the third read leads, of a handler that has one. */
  lemma ThirdRead(db: Inventory.InventoryDb, next: Id, sid: IS.Sid, e: Event)
    ensures var task := IS.OnEvent(e);
            var after := Go(Solo(db, next, sid, task, IS.Looked, {}, {}), sid);
            if e.payload.itemId.None? || e.payload.quantity.None? then after == Over(db, next, sid, task)
            else if e.payload.itemId.value in db.items then
              after == Solo(db, next, sid, task, IS.ItemRead(Some(db.items[e.payload.itemId.value])),
                            {e.payload.itemId.value}, {})
            else after == Solo(db, next, sid, task, IS.ItemRead(None), {}, {})
  {
    var task := IS.OnEvent(e);
    ReleaseSolo(db, next, sid, task, IS.Looked, {}, {});
    if e.payload.itemId.Some? {
      LockItemSolo(db, next, sid, task, IS.Looked, {}, e.payload.itemId.value);
    }
  }

  lemma ItemReadOfRow(db: Inventory.InventoryDb, next: Id, sid: IS.Sid, e: Event, row: Inventory.Reservation)
    ensures var task, o := IS.OnEvent(e), OrderIdOf(e);
            var after := Go(Solo(db, next, sid, task, IS.RowRead(row), {}, {o}), sid);
            if row.itemId in db.items then
              after == Solo(db, next, sid, task, IS.BothRead(row, db.items[row.itemId]), {row.itemId}, {o})
            else after == Over(db, next, sid, task)
  {
    var task, o := IS.OnEvent(e), OrderIdOf(e);
    ReleaseSolo(db, next, sid, task, IS.RowRead(row), {}, {o});
    LockItemSolo(db, next, sid, task, IS.RowRead(row), {o}, row.itemId);
  }

  lemma AskedAlone(db: Inventory.InventoryDb, next: Id, sid: IS.Sid, e: Event)
    requires e.kind.OrderCreated? && e.id !in db.processed && OrderIdOf(e) !in db.reservations
    ensures Go(Go(Solo(db, next, sid, IS.OnEvent(e), IS.Looked, {}, {}), sid), sid)
         == AfterHandler(db, next, sid, e)
  {
    var task := IS.OnEvent(e);
    ThirdRead(db, next, sid, e);
    if e.payload.itemId.Some? && e.payload.quantity.Some? {
      var itemId := e.payload.itemId.value;
      if itemId in db.items {
        CommitSolo(db, next, sid, task, IS.ItemRead(Some(db.items[itemId])), {itemId}, {});
      } else {
        CommitSolo(db, next, sid, task, IS.ItemRead(None), {}, {});
      }
    }
  }

  lemma CreatedAlone(db: Inventory.InventoryDb, next: Id, sid: IS.Sid, e: Event)
    requires e.kind.OrderCreated? && e.id !in db.processed
    ensures GoOn(Begin(db, next, sid, IS.OnEvent(e)), sid) == AfterHandler(db, next, sid, e)
  {
    FirstRead(db, next, sid, e);
    SecondRead(db, next, sid, e);
    if OrderIdOf(e) in db.reservations {
      CommitSolo(db, next, sid, IS.OnEvent(e), IS.SkipFound, {}, {});
    } else {
      AskedAlone(db, next, sid, e);
    }
  }

  lemma SkipAlone(db: Inventory.InventoryDb, next: Id, sid: IS.Sid, e: Event)
    requires !e.kind.OrderCreated? && e.id !in db.processed
    requires e.kind.InventoryCommit? || e.kind.InventoryRelease? ==>
               OrderIdOf(e) !in db.reservations || db.reservations[OrderIdOf(e)].status != Inventory.RESERVED
    ensures GoOn(Begin(db, next, sid, IS.OnEvent(e)), sid) == AfterHandler(db, next, sid, e)
  {
    var task, o := IS.OnEvent(e), OrderIdOf(e);
    FirstRead(db, next, sid, e);
    SecondRead(db, next, sid, e);
    if !(e.kind.InventoryCommit? || e.kind.InventoryRelease?) {
      CommitSolo(db, next, sid, task, IS.SkipOther, {}, {});
    } else if o !in db.reservations {
      CommitSolo(db, next, sid, task, IS.SkipMissing, {}, {});
    } else {
      CommitSolo(db, next, sid, task, IS.SkipSettled(db.reservations[o]), {}, {o});
    }
  }

  lemma FoundAlone(db: Inventory.InventoryDb, next: Id, sid: IS.Sid, e: Event, row: Inventory.Reservation)
    requires (e.kind.InventoryCommit? || e.kind.InventoryRelease?) && e.id !in db.processed
    requires OrderIdOf(e) in db.reservations && db.reservations[OrderIdOf(e)] == row && row.status == Inventory.RESERVED
    ensures Go(Go(Solo(db, next, sid, IS.OnEvent(e), IS.RowRead(row), {}, {OrderIdOf(e)}), sid), sid)
         == AfterHandler(db, next, sid, e)
  {
    ItemReadOfRow(db, next, sid, e, row);
    if row.itemId in db.items {
      CommitSolo(db, next, sid, IS.OnEvent(e), IS.BothRead(row, db.items[row.itemId]), {row.itemId}, {OrderIdOf(e)});
    }
  }

  lemma SettleAlone(db: Inventory.InventoryDb, next: Id, sid: IS.Sid, e: Event)
    requires (e.kind.InventoryCommit? || e.kind.InventoryRelease?) && e.id !in db.processed
    requires OrderIdOf(e) in db.reservations && db.reservations[OrderIdOf(e)].status == Inventory.RESERVED
    ensures GoOn(Begin(db, next, sid, IS.OnEvent(e)), sid) == AfterHandler(db, next, sid, e)
  {
    FirstRead(db, next, sid, e);
    SecondRead(db, next, sid, e);
    FoundAlone(db, next, sid, e, db.reservations[OrderIdOf(e)]);
  }

  /** What the undivided handler leaves, with the session ended and nothing locked. */
  function AfterHandler(db: Inventory.InventoryDb, next: Id, sid: IS.Sid, e: Event): IS.Machine {
    match Inventory.Handle(db, e, next)
    case Ok(db', next') => Over(db', next', sid, IS.OnEvent(e))
    case Raised => Over(db, next, sid, IS.OnEvent(e))
  }

  /** An inventory handler that runs alone ends with no lock held and has done what the undivided handler does, or
      nothing if that raises. */
  lemma HandlerAlone(db: Inventory.InventoryDb, next: Id, sid: IS.Sid, e: Event)
    ensures GoOn(Begin(db, next, sid, IS.OnEvent(e)), sid) == AfterHandler(db, next, sid, e)
  {
    if e.id in db.processed {
      FirstRead(db, next, sid, e);
    } else if e.kind.OrderCreated? {
      CreatedAlone(db, next, sid, e);
    } else if (e.kind.InventoryCommit? || e.kind.InventoryRelease?) && OrderIdOf(e) in db.reservations
        && db.reservations[OrderIdOf(e)].status == Inventory.RESERVED {
      SettleAlone(db, next, sid, e);
    } else {
      SkipAlone(db, next, sid, e);
    }
  }

  lemma ResetReads(db: Inventory.InventoryDb, next: Id, sid: IS.Sid, itemId: string, quantity: nat)
    ensures var task := IS.OnReset(itemId, quantity);
            var first := Go(Begin(db, next, sid, task), sid);
            if itemId in db.items then
              && first == Solo(db, next, sid, task, IS.StockRead(true), {itemId}, {})
              && var rows := IS.RowsOn(db, itemId);
                 Go(first, sid) == Solo(db, next, sid, task, IS.Cleared(rows), {itemId}, rows)
            else first == Solo(db, next, sid, task, IS.StockRead(false), {}, {})
  {
    var task, rows := IS.OnReset(itemId, quantity), IS.RowsOn(db, itemId);
    StartsSolo(db, next, sid, task);
    LockItemSolo(db, next, sid, task, IS.Begun, {}, itemId);
    LockRowsSolo(db, next, sid, task, IS.StockRead(true), {itemId}, rows);
  }

  /** So does a reset. */
  lemma ResetAlone(db: Inventory.InventoryDb, next: Id, sid: IS.Sid, itemId: string, quantity: nat)
    ensures var task := IS.OnReset(itemId, quantity);
            GoOn(Begin(db, next, sid, task), sid) == Over(Inventory.WithStock(db, itemId, quantity), next, sid, task)
  {
    var task, rows := IS.OnReset(itemId, quantity), IS.RowsOn(db, itemId);
    ResetReads(db, next, sid, itemId, quantity);
    if itemId in db.items {
      CommitSolo(db, next, sid, task, IS.Cleared(rows), {itemId}, rows);
      assert db.reservations - rows == Inventory.WithStock(db, itemId, quantity).reservations;
    } else {
      CommitSolo(db, next, sid, task, IS.StockRead(false), {}, {});
    }
  }

  // ----- the payment service -----

  function Pay(m: PS.Machine, sid: PS.Sid): PS.Machine {
    if PS.Can(m, PS.Commits(sid)) then PS.Do(m, PS.Commits(sid))
    else if PS.Can(m, PS.Reads(sid)) then PS.Do(m, PS.Reads(sid))
    else m
  }

  lemma PaymentReads(db: Payments.PaymentDb, next: Id, sid: PS.Sid, e: Event)
    requires e.id !in db.processed
    ensures var m0 := PS.Do(PS.Machine(db, next, map[]), PS.Start(sid, e));
            var pc := if OrderIdOf(e) in db.payments then PS.Found else PS.Missing;
            Pay(Pay(m0, sid), sid) == PS.Machine(db, next, map[sid := PS.Session(e, pc)])
  {
    var m0 := PS.Do(PS.Machine(db, next, map[]), PS.Start(sid, e));
    assert m0.sessions == map[sid := PS.Session(e, PS.Begun)];
    var m1 := Pay(m0, sid);
    assert m1 == PS.Machine(db, next, map[sid := PS.Session(e, PS.Deduped)]);
  }

  /** A payment handler that runs alone does what the undivided handler does, or nothing if that raises. */
  lemma PaymentAlone(db: Payments.PaymentDb, next: Id, sid: PS.Sid, e: Event)
    ensures var m0 := PS.Do(PS.Machine(db, next, map[]), PS.Start(sid, e));
            var end, tx := Pay(Pay(Pay(m0, sid), sid), sid), Payments.Handle(db, e, next);
            && end.db == (if tx.Ok? then tx.db else db) && end.next == (if tx.Ok? then tx.next else next)
            && sid in end.sessions && end.sessions[sid].pc.Ended?
  {
    if e.id !in db.processed {
      PaymentReads(db, next, sid, e);
    }
  }

  // ----- creating an order -----

  function Call(a: CR.Arena, x: CR.Action): CR.Arena {
    if CR.Can(a, x) then CR.Do(a, x) else a
  }

  /** A caller who is alone gets what the undivided `create_order` gives: the known order, or a new one. */
  lemma CallerAlone(db: Orders.OrderDb, next: Id, c: CR.CallerId, r: Orders.Request, key: string)
    requires Orders.Admissible(r)
    ensures var asked := Call(CR.Arena(db, next, map[]), CR.Arrive(c, r, key));
            var end, creation := Call(Call(asked, CR.Look(c)), CR.Insert(c)), Orders.Create(db, r, key, next);
            && end.db == creation.db && end.next == creation.next
            && c in end.callers && end.callers[c].progress == CR.Told(creation.order, creation.created)
  {
  }

  /** A caller whose commit finds that another has inserted the key's order gets that order with the next read. */
  lemma LoserGetsTheOrder(a: CR.Arena, c: CR.CallerId)
    requires CR.At(a, c, CR.Missed) && a.callers[c].key in a.db.keys
    ensures var end := Call(Call(a, CR.Insert(c)), CR.LookAgain(c));
            && end.db == a.db && end.next == a.next
            && c in end.callers && end.callers[c].progress == CR.Told(a.db.keys[a.callers[c].key], false)
  {
  }

  // ----- publishing a batch -----

  function Sends(p: Publishers.PublisherId, n: nat): seq<Publishers.Action> {
    if n == 0 then [] else [Publishers.Send(p)] + Sends(p, n - 1)
  }

  /** The pool in which `p` has sent the first `sent` of its rows. */
  function Partway(pool: Publishers.Pool, p: Publishers.PublisherId, rows: seq<nat>, sent: nat): Publishers.Pool
    requires sent <= |rows|
  {
    pool.(sessions := pool.sessions[p := Publishers.Session(rows, sent)],
          accepted := pool.accepted + multiset(rows[..sent]))
  }

  lemma SendAlone(pool: Publishers.Pool, p: Publishers.PublisherId, rows: seq<nat>, sent: nat)
    requires sent < |rows|
    ensures Publishers.Enabled(Partway(pool, p, rows, sent), Publishers.Send(p))
    ensures Publishers.Step(Partway(pool, p, rows, sent), Publishers.Send(p)) == Partway(pool, p, rows, sent + 1)
  {
    assert rows[..sent + 1] == rows[..sent] + [rows[sent]];
  }

  lemma RunFrom(pool: Publishers.Pool, a: Publishers.Action, rest: seq<Publishers.Action>)
    requires Publishers.Enabled(pool, a) && Publishers.IsRun(Publishers.Step(pool, a), rest)
    ensures Publishers.IsRun(pool, [a] + rest)
    ensures Publishers.Outcome(pool, [a] + rest) == Publishers.Outcome(Publishers.Step(pool, a), rest)
  {
    assert ([a] + rest)[1..] == rest;
  }

  lemma {:induction false} SendsAlone(pool: Publishers.Pool, p: Publishers.PublisherId, rows: seq<nat>, sent: nat)
    requires sent <= |rows|
    ensures Publishers.IsRun(Partway(pool, p, rows, sent), Sends(p, |rows| - sent))
    ensures Publishers.Outcome(Partway(pool, p, rows, sent), Sends(p, |rows| - sent)) == Partway(pool, p, rows, |rows|)
    decreases |rows| - sent
  {
    if sent < |rows| {
      SendAlone(pool, p, rows, sent);
      SendsAlone(pool, p, rows, sent + 1);
      RunFrom(Partway(pool, p, rows, sent), Publishers.Send(p), Sends(p, |rows| - sent - 1));
    }
  }

  lemma BeginAlone(pool: Publishers.Pool, p: Publishers.PublisherId, rows: seq<nat>)
    requires Publishers.Enabled(pool, Publishers.Begin(p, rows))
    ensures Publishers.Step(pool, Publishers.Begin(p, rows)) == Partway(pool, p, rows, 0)
  {
    assert rows[..0] == [];
  }

  lemma CommitAlone(pool: Publishers.Pool, p: Publishers.PublisherId, rows: seq<nat>)
    requires p !in pool.sessions
    ensures Publishers.Enabled(Partway(pool, p, rows, |rows|), Publishers.Commit(p))
    ensures Publishers.Step(Partway(pool, p, rows, |rows|), Publishers.Commit(p)) ==
              pool.(table := Mark(pool.table, rows), accepted := pool.accepted + multiset(rows))
  {
    assert rows[..|rows|] == rows;
    assert Partway(pool, p, rows, |rows|).sessions - {p} == pool.sessions;
  }

  /** `p` takes these rows, sends them all and commits, and nobody interferes. */
  ghost predicate Publishes(pool: Publishers.Pool, p: Publishers.PublisherId, rows: seq<nat>, end: Publishers.Pool) {
    && Publishers.Enabled(pool, Publishers.Begin(p, rows))
    && var begun := Publishers.Step(pool, Publishers.Begin(p, rows));
    && Publishers.IsRun(begun, Sends(p, |rows|))
    && var sent := Publishers.Outcome(begun, Sends(p, |rows|));
    && Publishers.Enabled(sent, Publishers.Commit(p))
    && end == Publishers.Step(sent, Publishers.Commit(p))
  }

  lemma RowsAlone(pool: Publishers.Pool, p: Publishers.PublisherId, rows: seq<nat>)
    requires Publishers.Enabled(pool, Publishers.Begin(p, rows))
    ensures Publishes(pool, p, rows, pool.(table := Mark(pool.table, rows), accepted := pool.accepted + multiset(rows)))
  {
    BeginAlone(pool, p, rows);
    SendsAlone(pool, p, rows, 0);
    CommitAlone(pool, p, rows);
  }

  /** A publisher whose batch nothing disturbs marks and sends it, each row once: what `publish_batch` does. */
  lemma BatchAlone(pool: Publishers.Pool, p: Publishers.PublisherId, size: nat)
    requires p !in pool.sessions
    ensures var batch := Batch(pool.table, Publishers.Locked(pool), size);
            Publishes(pool, p, batch,
                      pool.(table := Mark(pool.table, batch), accepted := pool.accepted + multiset(batch)))
  {
    Publishers.BatchIsAvailable(pool.table, Publishers.Locked(pool), size);
    RowsAlone(pool, p, Batch(pool.table, Publishers.Locked(pool), size));
  }
}
