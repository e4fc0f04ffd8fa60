/** The Saga refines an atomic checkout ledger: every step, with its duplicates, reorderings, crashes
    and retries, is either invisible or exactly one step of a ledger that one process could keep. */
module Refinement {
  import opened Events
  import opened Orders
  import opened Inventory
  import opened Payments
  import opened Ledger
  import opened Saga
  import opened History
  import opened Invariant
  import opened Handling
  import opened Steps

  // ----- the atomic ledger -----

  datatype Phase = NEW | HELD | SOLD | RETURNED | REFUSED | ERASED

  datatype Entry = Entry(itemId: string, quantity: int, declined: bool, phase: Phase)

  datatype Checkout = Checkout(free: map<string, int>, entries: map<OrderId, Entry>)

  datatype Move =
    | Stutter
    | Open(o: OrderId, itemId: string, quantity: int, declined: bool)
    | Hold(o: OrderId)
    | Refuse(o: OrderId)
    | Sell(o: OrderId)
    | Return(o: OrderId)
    | Reset(itemId: string, quantity: int)

  predicate InPhase(a: Checkout, o: OrderId, phase: Phase) {
    o in a.entries && a.entries[o].phase == phase
  }

  /** Units are held for a new order exactly if they are there, sold exactly if the payment is
      accepted, and returned exactly if it is declined. */
  predicate Allowed(a: Checkout, m: Move) {
    match m
    case Stutter => true
    case Open(o, _, quantity, _) => o !in a.entries && quantity >= 1
    case Hold(o) =>
      InPhase(a, o, NEW) && a.entries[o].itemId in a.free && a.entries[o].quantity <= a.free[a.entries[o].itemId]
    case Refuse(o) => InPhase(a, o, NEW) && (a.entries[o].itemId in a.free ==>
          a.entries[o].quantity > a.free[a.entries[o].itemId])
    case Sell(o) => InPhase(a, o, HELD) && !a.entries[o].declined
    case Return(o) => InPhase(a, o, HELD) && a.entries[o].declined && a.entries[o].itemId in a.free
    case Reset(_, quantity) => quantity >= 0
  }

  function ToPhase(a: Checkout, o: OrderId, phase: Phase): map<OrderId, Entry>
    requires o in a.entries
  {
    a.entries[o := a.entries[o].(phase := phase)]
  }

  function Apply(a: Checkout, m: Move): Checkout
    requires Allowed(a, m)
  {
    match m
    case Stutter => a
    case Open(o, itemId, quantity, declined) => a.(entries := a.entries[o := Entry(itemId, quantity, declined, NEW)])
    case Hold(o) =>
      var e := a.entries[o];
      Checkout(a.free[e.itemId := a.free[e.itemId] - e.quantity], ToPhase(a, o, HELD))
    case Refuse(o) => a.(entries := ToPhase(a, o, REFUSED))
    case Sell(o) => a.(entries := ToPhase(a, o, SOLD))
    case Return(o) =>
      var e := a.entries[o];
      Checkout(a.free[e.itemId := a.free[e.itemId] + e.quantity], ToPhase(a, o, RETURNED))
    case Reset(itemId, quantity) =>
      Checkout(a.free[itemId := quantity],
               map o | o in a.entries ::
                 if a.entries[o].itemId == itemId && a.entries[o].phase in {HELD, SOLD, RETURNED}
                 then a.entries[o].(phase := ERASED) else a.entries[o])
  }

  // ----- what the ledger sees of the Saga -----

  function PhaseOf(w: World, o: OrderId): Phase
    requires o in w.h
  {
    if w.h[o].erased then ERASED
    else if o in w.s.inventory.reservations then
      match w.s.inventory.reservations[o].status
      case RESERVED => HELD
      case COMMITTED => SOLD
      case RELEASED => RETURNED
    else if w.h[o].verdict.Some? then REFUSED
    else NEW
  }

  function EntryOf(w: World, o: OrderId): Entry
    requires o in w.h && o in w.s.orders.orders
  {
    var order := w.s.orders.orders[o];
    Entry(order.itemId, order.quantity, Declines(order), PhaseOf(w, o))
  }

  function Entries(w: World): map<OrderId, Entry> {
    map o | o in w.s.orders.orders && o in w.h :: EntryOf(w, o)
  }

  function Free(db: InventoryDb): map<string, int> {
    map i | i in db.items :: db.items[i].available
  }

  function Abstraction(w: World): Checkout {
    Checkout(Free(w.s.inventory), Entries(w))
  }

  /** The move that a step is. */
  function MoveOf(w: World, l: Label): Move
    requires Enabled(w.s, l)
  {
    match l
    case Place(r, key) =>
      if key in w.s.orders.keys then Stutter
      else Open(w.s.next, r.itemId, r.quantity, ShouldFailPayment(r.customerId, r.amountCents))
    case SetStock(itemId, quantity) => Reset(itemId, quantity)
    case Consume(c, true, _) =>
      if c.dest != InventoryService || c.event.id in w.s.inventory.processed then Stutter
      else
        var o := c.event.aggregate;
        if c.event.kind.OrderCreated? then
          if o in Step(w.s, l).inventory.reservations then Hold(o) else Refuse(o)
        else if o !in w.s.inventory.reservations then Stutter
        else if c.event.kind.InventoryCommit? then Sell(o)
        else Return(o)
    case _ => Stutter
  }

  // ----- every step is its move -----

  ghost predicate Simulates(w: World, w': World, m: Move) {
    Allowed(Abstraction(w), m) && Abstraction(w') == Apply(Abstraction(w), m)
  }

  lemma PlaceSimulates(w: World, r: Request, key: string)
    requires KnownOrders(w) && Admissible(r)
    ensures Simulates(w, After(w, Place(r, key)), MoveOf(w, Place(r, key)))
  {
    var w' := After(w, Place(r, key));
    if key !in w.s.orders.keys {
      assert !KnownOrder(w, w.s.next);
      assert Entries(w') == Entries(w)[w.s.next := EntryOf(w', w.s.next)];
    }
  }

  lemma ResetSimulatesOrder(w: World, itemId: string, quantity: nat, o: OrderId)
    requires o in w.s.orders.orders && o in w.h
    requires ReservationOk(o, w.s.orders.orders[o], w.h[o], w.s.inventory)
    requires o in w.s.inventory.reservations ==> w.s.inventory.reservations[o].itemId in w.s.inventory.items
    ensures var entry, w' := EntryOf(w, o), After(w, SetStock(itemId, quantity));
            EntryOf(w', o) ==
              if entry.itemId == itemId && entry.phase in {HELD, SOLD, RETURNED} then entry.(phase := ERASED) else entry
  {
  }

  lemma ResetSimulates(w: World, itemId: string, quantity: nat)
    requires OrdersOk(w) && Balanced(w.s.inventory)
    ensures Simulates(w, After(w, SetStock(itemId, quantity)), Reset(itemId, quantity))
  {
    var w' := After(w, SetStock(itemId, quantity));
    var a' := Apply(Abstraction(w), Reset(itemId, quantity));
    assert Free(w'.s.inventory) == a'.free;
    forall o | o in w.s.orders.orders && o in w.h ensures EntryOf(w', o) == a'.entries[o] {
      assert OrderOk(w.s, o, w.h[o]);
      assert o in w.s.inventory.reservations ==> ReservationSound(w.s.inventory, o);
      ResetSimulatesOrder(w, itemId, quantity, o);
    }
    assert Entries(w') == a'.entries;
  }

  /** An order that a handler is not about stays in its phase. */
  lemma OtherEntry(w: World, w': World, o: OrderId)
    requires SameOrder(w.s, w'.s, o) && o in w.s.orders.orders && o in w.h && o in w'.h && w'.h[o] == w.h[o]
    ensures o in w'.s.orders.orders && EntryOf(w', o) == EntryOf(w, o)
  {
  }

  /** A handler moves at most the entry of the order it is about. */
  lemma EntriesAfterHandling(w: World, w': World, e: Event)
    requires TouchesOnly(w.s, w'.s, e.aggregate, e.id) && SameStatic(w.s, w'.s, e.aggregate)
    requires e.aggregate in w.h && e.aggregate in w'.h && w'.h == w.h[e.aggregate := w'.h[e.aggregate]]
    ensures Entries(w') == Entries(w)[e.aggregate := EntryOf(w', e.aggregate)]
  {
    forall o | o != e.aggregate
      ensures o in w'.s.orders.orders && o in w'.h <==> o in w.s.orders.orders && o in w.h
      ensures o in w.s.orders.orders && o in w.h ==> EntryOf(w', o) == EntryOf(w, o)
    {
      assert SameOrder(w.s, w'.s, o);
      if o in w.s.orders.orders && o in w.h {
        OtherEntry(w, w', o);
      }
    }
  }

  /** The parts of a trace and of the databases that the ledger sees, after another service's handler. */
  lemma OtherServicesLeaveStock(s: State, t: Trace, svc: Service, e: Event)
    requires svc != InventoryService && Handled(s, svc, e).Ok?
    ensures Handled(s, svc, e).db.inventory == s.inventory
    ensures TraceAfter(s, t, svc, e).erased == t.erased && TraceAfter(s, t, svc, e).verdict == t.verdict
  {
  }

  lemma OtherServicesStutter(w: World, w': World, svc: Service, e: Event)
    requires HandlingEffect(w, w', e) && svc != InventoryService && Handled(w.s, svc, e).Ok?
    requires w'.s == Handled(w.s, svc, e).db && w'.h[e.aggregate] == TraceAfter(w.s, w.h[e.aggregate], svc, e)
    ensures Simulates(w, w', Stutter)
  {
    var o := e.aggregate;
    assert SameStatic(w.s, w'.s, o);
    EntriesAfterHandling(w, w', e);
    OtherServicesLeaveStock(w.s, w.h[o], svc, e);
    assert EntryOf(w', o) == EntryOf(w, o);
    assert Entries(w') == Entries(w);
  }

  /** How the inventory service answers a request for units of an item. */
  lemma FreeAfterAnswer(db: InventoryDb, e: Event, o: OrderId, itemId: string, quantity: int, unused: Id)
    requires e.id !in db.processed && e.kind.OrderCreated? && OrderIdOf(e) == o && o !in db.reservations
    requires e.payload.itemId == Some(itemId) && e.payload.quantity == Some(quantity) && quantity >= 1
    ensures Inventory.Handle(db, e, unused).Ok?
    ensures var db' := Inventory.Handle(db, e, unused).db;
            && (o in db'.reservations ==>
                  && db'.reservations[o].status == RESERVED
                  && itemId in db.items && quantity <= db.items[itemId].available
                  && Free(db') == Free(db)[itemId := db.items[itemId].available - quantity])
            && (o !in db'.reservations ==>
                  && (itemId in db.items ==> quantity > db.items[itemId].available)
                  && Free(db') == Free(db))
  {
  }

  /** How it settles a reservation, if the reservation is there. */
  lemma FreeAfterSettling(db: InventoryDb, e: Event, o: OrderId, unused: Id)
    requires e.id !in db.processed && (e.kind.InventoryCommit? || e.kind.InventoryRelease?) && OrderIdOf(e) == o
    requires o in db.reservations ==> db.reservations[o].status == RESERVED && db.reservations[o].itemId in db.items
    ensures Inventory.Handle(db, e, unused).Ok?
    ensures var db' := Inventory.Handle(db, e, unused).db;
            && (o in db'.reservations <==> o in db.reservations)
            && (o !in db.reservations ==> Free(db') == Free(db))
            && (o in db.reservations && e.kind.InventoryCommit? ==>
                  db'.reservations[o].status == COMMITTED && Free(db') == Free(db))
            && (o in db.reservations && e.kind.InventoryRelease? ==>
                  && db'.reservations[o].status == RELEASED
                  && var r := db.reservations[o];
                     Free(db') == Free(db)[r.itemId := db.items[r.itemId].available + r.quantity])
  {
  }

  /** What the ledger knows about an order whose `order.created` the inventory service hears. */
  lemma AskedFacts(w: World, e: Event)
    requires Hears(w, InventoryService, e) && e.kind.OrderCreated?
    ensures var o, order := e.aggregate, w.s.orders.orders[e.aggregate];
            && OrderIdOf(e) == o && o !in w.s.inventory.reservations && PhaseOf(w, o) == NEW
            && e.payload.itemId == Some(order.itemId) && e.payload.quantity == Some(order.quantity)
            && order.quantity >= 1
            && !w.h[o].erased
  {
  }

  /** And about one whose commit or release it hears. */
  lemma SettledFacts(w: World, e: Event)
    requires Hears(w, InventoryService, e) && !e.kind.OrderCreated? && Balanced(w.s.inventory)
    ensures var o, order, db := e.aggregate, w.s.orders.orders[e.aggregate], w.s.inventory;
            && OrderIdOf(e) == o && (e.kind.InventoryCommit? || e.kind.InventoryRelease?)
            && (o in db.reservations ==>
                  && db.reservations[o] == Reservation(order.itemId, order.quantity, RESERVED)
                  && order.itemId in db.items && PhaseOf(w, o) == HELD && !w.h[o].erased
                  && (e.kind.InventoryRelease? <==> Declines(order)))
  {
    assert e.aggregate in w.s.inventory.reservations ==> ReservationSound(w.s.inventory, e.aggregate);
  }

  /** The world after a handler, as far as the ledger can tell. */
  predicate EntryMoved(w: World, w': World, o: OrderId) {
    && o in w.h && o in w'.h && w'.h[o].erased == w.h[o].erased
    && SameStatic(w.s, w'.s, o)
    && Entries(w') == Entries(w)[o := EntryOf(w', o)]
  }

  lemma AnswerSimulates(w: World, w': World, e: Event, o: OrderId)
    requires EntryMoved(w, w', o) && OrderIdOf(e) == o && e.kind.OrderCreated? && e.id !in w.s.inventory.processed
    requires Inventory.Handle(w.s.inventory, e, w.s.next).Ok?
    requires w'.s.inventory == Inventory.Handle(w.s.inventory, e, w.s.next).db
    requires w'.h[o].verdict.Some?
    requires var order := w.s.orders.orders[o];
             && o !in w.s.inventory.reservations && PhaseOf(w, o) == NEW
             && e.payload.itemId == Some(order.itemId) && e.payload.quantity == Some(order.quantity)
             && order.quantity >= 1
    ensures Simulates(w, w', if o in w'.s.inventory.reservations then Hold(o) else Refuse(o))
  {
    var order := w.s.orders.orders[o];
    FreeAfterAnswer(w.s.inventory, e, o, order.itemId, order.quantity, w.s.next);
  }

  lemma SettlingSimulates(w: World, w': World, e: Event, o: OrderId)
    requires EntryMoved(w, w', o) && OrderIdOf(e) == o && (e.kind.InventoryCommit? || e.kind.InventoryRelease?)
    requires e.id !in w.s.inventory.processed
    requires Inventory.Handle(w.s.inventory, e, w.s.next).Ok?
    requires w'.s.inventory == Inventory.Handle(w.s.inventory, e, w.s.next).db
    requires var order, db := w.s.orders.orders[o], w.s.inventory;
             && o in db.reservations && db.reservations[o] == Reservation(order.itemId, order.quantity, RESERVED)
             && order.itemId in db.items && PhaseOf(w, o) == HELD
             && (e.kind.InventoryRelease? <==> Declines(order))
    ensures Simulates(w, w', if e.kind.InventoryCommit? then Sell(o) else Return(o))
  {
    FreeAfterSettling(w.s.inventory, e, o, w.s.next);
  }

  /** The reservation was reset away: there is nothing to settle. */
  lemma SettlingNothing(w: World, w': World, e: Event, o: OrderId)
    requires EntryMoved(w, w', o) && OrderIdOf(e) == o && (e.kind.InventoryCommit? || e.kind.InventoryRelease?)
    requires e.id !in w.s.inventory.processed && o !in w.s.inventory.reservations && w'.h[o] == w.h[o]
    requires Inventory.Handle(w.s.inventory, e, w.s.next).Ok?
    requires w'.s.inventory == Inventory.Handle(w.s.inventory, e, w.s.next).db
    ensures Simulates(w, w', Stutter)
  {
    FreeAfterSettling(w.s.inventory, e, o, w.s.next);
    assert EntryOf(w', o) == EntryOf(w, o);
    assert Entries(w') == Entries(w);
  }

  lemma InventoryEntryMoved(w: World, w': World, e: Event)
    requires Hears(w, InventoryService, e) && Handled(w.s, InventoryService, e).Ok?
    requires w' == World(Handled(w.s, InventoryService, e).db, TracesAfterHandling(w, InventoryService, e))
    ensures EntryMoved(w, w', e.aggregate)
  {
    HandlingHolds(w, w', InventoryService, e);
    assert SameStatic(w.s, w'.s, e.aggregate);
    EntriesAfterHandling(w, w', e);
  }

  lemma InventorySimulates(w: World, w': World, e: Event)
    requires Balanced(w.s.inventory) && Hears(w, InventoryService, e) && Handled(w.s, InventoryService, e).Ok?
    requires w' == World(Handled(w.s, InventoryService, e).db, TracesAfterHandling(w, InventoryService, e))
    ensures Simulates(w, w', InventoryMove(w, w', e))
  {
    InventoryEntryMoved(w, w', e);
    if e.kind.OrderCreated? {
      AskedFacts(w, e);
      AnswerSimulates(w, w', e, e.aggregate);
    } else {
      SettledFacts(w, e);
      if e.aggregate in w.s.inventory.reservations {
        SettlingSimulates(w, w', e, e.aggregate);
      } else {
        SettlingNothing(w, w', e, e.aggregate);
      }
    }
  }

  /** The move of an event that the inventory service hears. */
  function InventoryMove(w: World, w': World, e: Event): Move {
    var o := e.aggregate;
    if e.kind.OrderCreated? then (if o in w'.s.inventory.reservations then Hold(o) else Refuse(o))
    else if o !in w.s.inventory.reservations then Stutter
    else if e.kind.InventoryCommit? then Sell(o)
    else Return(o)
  }

  /** The ledger sees neither the broker nor the outboxes. */
  lemma SameView(w: World, w': World)
    requires w'.h == w.h && w'.s.orders.orders == w.s.orders.orders
    requires w'.s.inventory.items == w.s.inventory.items && w'.s.inventory.reservations == w.s.inventory.reservations
    ensures Abstraction(w') == Abstraction(w)
  {
    assert Entries(w') == Entries(w);
  }

  lemma BrokerStepKeepsRows(s: State, l: Label)
    requires Enabled(s, l) && AtBroker(l)
    ensures var s' := Step(s, l);
            && s'.orders.orders == s.orders.orders
            && s'.inventory.items == s.inventory.items && s'.inventory.reservations == s.inventory.reservations
  {
  }

  lemma HandlingSimulates(w: World, svc: Service, e: Event)
    requires Inv(w) && Emitted(w.s, e) && Bound(svc, e.kind) && Handled(w.s, svc, e).Ok?
    ensures var w1 := World(Handled(w.s, svc, e).db, TracesAfterHandling(w, svc, e));
            var hears := svc == InventoryService && e.id !in w.s.inventory.processed;
            Simulates(w, w1, if hears then InventoryMove(w, w1, e) else Stutter)
  {
    var w1 := World(Handled(w.s, svc, e).db, TracesAfterHandling(w, svc, e));
    if e.id in Done(w.s, svc) {
      HandledTwice(w.s, svc, e);
    } else {
      EmittedIsHeard(w, svc, e);
      if svc == InventoryService {
        InventorySimulates(w, w1, e);
      } else {
        HandlingHolds(w, w1, svc, e);
        OtherServicesStutter(w, w1, svc, e);
      }
    }
  }

  /** Every step of the Saga is a stutter or one move of the atomic ledger. */
  lemma StepRefines(w: World, l: Label)
    requires Inv(w) && Enabled(w.s, l)
    ensures Simulates(w, After(w, l), MoveOf(w, l))
  {
    if AtBroker(l) {
      BrokerStepKeepsRows(w.s, l);
      SameView(w, After(w, l));
    } else {
      match l
      case Place(r, key) => PlaceSimulates(w, r, key);
      case SetStock(itemId, quantity) => ResetSimulates(w, itemId, quantity);
      case Consume(c, committed, answer) =>
        assert CopyOk(w.s, c);
        HandlingSimulates(w, c.dest, c.event);
        var w1 := World(Handled(w.s, c.dest, c.event).db, TracesAfterHandling(w, c.dest, c.event));
        SameView(w1, After(w, l));
    }
  }

  function Moves(w: World, ls: seq<Label>): seq<Move>
    requires IsRun(w, ls)
    decreases |ls|
  {
    if ls == [] then [] else [MoveOf(w, ls[0])] + Moves(After(w, ls[0]), ls[1..])
  }

  predicate IsHistory(a: Checkout, ms: seq<Move>)
    decreases |ms|
  {
    ms == [] || (Allowed(a, ms[0]) && IsHistory(Apply(a, ms[0]), ms[1..]))
  }

  function Replay(a: Checkout, ms: seq<Move>): Checkout
    requires IsHistory(a, ms)
    decreases |ms|
  {
    if ms == [] then a else Replay(Apply(a, ms[0]), ms[1..])
  }

  /** So every run of the Saga is a run of the ledger. */
  lemma {:induction false} RunRefines(w: World, ls: seq<Label>)
    requires Inv(w) && IsRun(w, ls)
    ensures IsHistory(Abstraction(w), Moves(w, ls))
    ensures Replay(Abstraction(w), Moves(w, ls)) == Abstraction(Exec(w, ls))
    decreases |ls|
  {
    if ls != [] {
      StepRefines(w, ls[0]);
      StepKeepsInvariant(w, ls[0]);
      var rest := Moves(After(w, ls[0]), ls[1..]);
      assert Moves(w, ls)[0] == MoveOf(w, ls[0]) && Moves(w, ls)[1..] == rest;
      RunRefines(After(w, ls[0]), ls[1..]);
    }
  }
}
