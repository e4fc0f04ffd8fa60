/** Exact contention: N one-unit orders compete for S units of one item. */
module Contention {
  import opened Events
  import opened Sums
  import opened StateMachine
  import opened Inventory
  import opened Ledger
  import opened Saga
  import opened History
  import opened Invariant
  import opened Handling
  import opened Steps
  import opened Agreement
  import opened StockRuns

  /** An order for one unit whose payment will be accepted. */
  predicate UnitOrder(w: World, o: OrderId, itemId: string) {
    OnItem(w, o, itemId) ==> w.s.orders.orders[o].quantity == 1 && !Declines(w.s.orders.orders[o])
  }

  ghost predicate UnitOrders(w: World, itemId: string) {
    forall o {:trigger UnitOrder(w, o, itemId)} :: UnitOrder(w, o, itemId)
  }

  predicate Refused(w: World, o: OrderId, itemId: string) {
    OnItem(w, o, itemId) && w.h[o].verdict.Some? && !w.h[o].granted
  }

  /** Once an order was refused, the item is exhausted. */
  ghost predicate RefusedOnlyWhenEmpty(w: World, itemId: string) {
    && itemId in w.s.inventory.items
    && (forall o {:trigger Refused(w, o, itemId)} :: Refused(w, o, itemId) ==>
          w.s.inventory.items[itemId].available == 0)
  }

  /** Requests on the item that are one-unit at the end of a run were so all along. */
  lemma UnitOrdersBefore(w: World, l: Label, itemId: string)
    requires Inv(w) && Enabled(w.s, l) && UnitOrders(After(w, l), itemId)
    ensures UnitOrders(w, itemId)
  {
    forall o ensures UnitOrder(w, o, itemId) {
      if OnItem(w, o, itemId) {
        assert KnownOrder(w, o);
        StepKeepsRequest(w, l, o);
        OnlyResetsErase(w, l, o);
        assert OnItem(After(w, l), o, itemId);
        assert UnitOrder(After(w, l), o, itemId);
      }
    }
  }

  /** What the inventory service does to an item on one event. */
  lemma AvailableOnlyShrinks(db: InventoryDb, e: Event, unused: Id, itemId: string)
    requires Inventory.Handle(db, e, unused).Ok? && itemId in db.items
    requires forall o {:trigger ReservationSound(db, o)} :: o in db.reservations ==> ReservationSound(db, o)
    requires e.kind.InventoryRelease? && OrderIdOf(e) in db.reservations ==>
          db.reservations[OrderIdOf(e)].itemId != itemId
    ensures var db' := Inventory.Handle(db, e, unused).db;
            itemId in db'.items && db'.items[itemId].available <= db.items[itemId].available
  {
  }

  /** No unit of the item is ever given back: its orders are never declined. */
  lemma NothingIsReturned(w: World, e: Event, itemId: string)
    requires Core(w) && UnitOrders(w, itemId) && Emitted(w.s, e) && e.kind.InventoryRelease?
    requires OrderIdOf(e) in w.s.inventory.reservations
    ensures w.s.inventory.reservations[OrderIdOf(e)].itemId != itemId
  {
    EmittedIsKnown(w, e);
    var o := e.aggregate;
    assert OrderOk(w.s, o, w.h[o]);
    assert UnitOrder(w, o, itemId);
  }

  lemma StepOnlyTakes(w: World, l: Label, itemId: string)
    requires Inv(w) && Enabled(w.s, l) && !Resets(l, itemId) && UnitOrders(w, itemId) && itemId in w.s.inventory.items
    ensures itemId in Step(w.s, l).inventory.items
    ensures Step(w.s, l).inventory.items[itemId].available <= w.s.inventory.items[itemId].available
  {
    if l.Consume? && l.committed && l.copy.dest == InventoryService {
      var e := l.copy.event;
      assert CopyOk(w.s, l.copy);
      if e.kind.InventoryRelease? && OrderIdOf(e) in w.s.inventory.reservations {
        NothingIsReturned(w, e, itemId);
      }
      AvailableOnlyShrinks(w.s.inventory, e, w.s.next, itemId);
    }
  }

  /** A one-unit order is refused only when no unit is left. */
  lemma RefusalMeansEmpty(w: World, e: Event, itemId: string)
    requires Core(w) && Emitted(w.s, e) && UnitOrders(w, itemId) && itemId in w.s.inventory.items
    requires e.kind.OrderCreated? && e.id !in w.s.inventory.processed && OnItem(w, e.aggregate, itemId)
    requires Handled(w.s, InventoryService, e).Ok?
    requires e.aggregate !in Handled(w.s, InventoryService, e).db.inventory.reservations
    ensures w.s.inventory.items[itemId].available == 0
  {
    EmittedIsKnown(w, e);
    assert UnitOrder(w, e.aggregate, itemId);
    assert ItemBalanced(w.s.inventory, itemId);
  }

  lemma StepKeepsRefusals(w: World, l: Label, itemId: string, stock: int)
    requires Inv(w) && Stocked(w, itemId, stock) && RefusedOnlyWhenEmpty(w, itemId)
    requires Enabled(w.s, l) && !Resets(l, itemId) && UnitOrders(w, itemId)
    ensures RefusedOnlyWhenEmpty(After(w, l), itemId)
  {
    var w' := After(w, l);
    StepOnlyTakes(w, l, itemId);
    StepKeepsInvariant(w, l);
    assert ItemBalanced(w'.s.inventory, itemId);
    forall o | Refused(w', o, itemId) ensures w'.s.inventory.items[itemId].available == 0 {
      WhereOrdersComeFrom(w, l, o);
      if o in w.h && !(l.Place? && o == w.s.next) {
        StepKeepsRequest(w, l, o);
        OnlyAnswersChangeVerdicts(w, l, o);
        if Answers(w, l, o) {
          assert CopyOk(w.s, l.copy);
          RefusalMeansEmpty(w, l.copy.event, itemId);
        } else {
          assert Refused(w, o, itemId);
        }
      }
    }
  }

  lemma {:induction false} RunKeepsRefusals(w: World, ls: seq<Label>, itemId: string, stock: int)
    requires Inv(w) && Stocked(w, itemId, stock) && RefusedOnlyWhenEmpty(w, itemId) && IsRun(w, ls)
    requires forall i {:trigger ls[i]} :: 0 <= i < |ls| ==> !Resets(ls[i], itemId)
    requires UnitOrders(Exec(w, ls), itemId)
    ensures RefusedOnlyWhenEmpty(Exec(w, ls), itemId) && UnitOrders(w, itemId)
    decreases |ls|
  {
    if ls != [] {
      StepKeepsInvariant(w, ls[0]);
      StepKeepsStocked(w, ls[0], itemId, stock);
      UnitOrdersAtStart(After(w, ls[0]), ls[1..], itemId);
      UnitOrdersBefore(w, ls[0], itemId);
      StepKeepsRefusals(w, ls[0], itemId, stock);
      RunKeepsRefusals(After(w, ls[0]), ls[1..], itemId, stock);
    }
  }

  lemma {:induction false} UnitOrdersAtStart(w: World, ls: seq<Label>, itemId: string)
    requires Inv(w) && IsRun(w, ls) && UnitOrders(Exec(w, ls), itemId)
    ensures UnitOrders(w, itemId)
    decreases |ls|
  {
    if ls != [] {
      StepKeepsInvariant(w, ls[0]);
      UnitOrdersAtStart(After(w, ls[0]), ls[1..], itemId);
      UnitOrdersBefore(w, ls[0], itemId);
    }
  }

  // ----- counting -----

  function OrdersOn(s: State, itemId: string): set<OrderId> {
    set o | o in s.orders.orders && s.orders.orders[o].itemId == itemId
  }

  function WithStatus(s: State, itemId: string, status: Status): set<OrderId> {
    set o | o in s.orders.orders && s.orders.orders[o].itemId == itemId && s.orders.orders[o].status == status
  }

  /** A table of ones sums to its size. */
  lemma {:induction false} SumOfOnes(m: map<nat, int>, ones: set<nat>)
    requires forall k :: At(m, k) == if k in ones then 1 else 0
    ensures Sum(m) == |ones|
    decreases ones
  {
    if ones == {} {
      SumAgree(m, map[]);
    } else {
      var k :| k in ones;
      SumAt(m, k);
      assert At(m, k) == 1;
      forall j ensures At(m - {k}, j) == if j in ones - {k} then 1 else 0 {
        assert At(m, j) == if j in ones then 1 else 0;
      }
      SumOfOnes(m - {k}, ones - {k});
    }
  }

  lemma CompletedIsSold(w: World, itemId: string, stock: int)
    requires Inv(w) && Quiescent(w.s) && Stocked(w, itemId, stock) && UnitOrders(w, itemId)
    ensures Sum(Sales(w, itemId)) == |WithStatus(w.s, itemId, COMPLETED)|
  {
    forall o ensures At(Sales(w, itemId), o) == if o in WithStatus(w.s, itemId, COMPLETED) then 1 else 0 {
      if o in WithStatus(w.s, itemId, COMPLETED) {
        assert KnownOrder(w, o);
        assert OnItem(w, o, itemId);
        assert UnitOrder(w, o, itemId);
      }
    }
    SumOfOnes(Sales(w, itemId), WithStatus(w.s, itemId, COMPLETED));
  }

  lemma CompletedOrRejected(w: World, itemId: string)
    requires Inv(w) && Quiescent(w.s) && UnitOrders(w, itemId)
    ensures |WithStatus(w.s, itemId, COMPLETED)| + |WithStatus(w.s, itemId, REJECTED)| == |OrdersOn(w.s, itemId)|
    ensures forall o :: o in WithStatus(w.s, itemId, REJECTED) ==> Refused(w, o, itemId)
  {
    var completed, rejected := WithStatus(w.s, itemId, COMPLETED), WithStatus(w.s, itemId, REJECTED);
    forall o | o in OrdersOn(w.s, itemId)
      ensures o in completed || o in rejected
      ensures o in rejected ==> Refused(w, o, itemId)
    {
      QuietMeansFinished(w, o);
      FinishedOrdersAgree(w.s, o, w.h[o]);
      assert OnItem(w, o, itemId);
      assert UnitOrder(w, o, itemId);
    }
    assert completed + rejected == OrdersOn(w.s, itemId);
    assert completed !! rejected;
  }

  function Min(a: int, b: int): int {
    if a <= b then a else b
  }

  /** Whatever the interleaving, exactly min(N, S) of the orders complete and the others are rejected. */
  lemma ExactContention(pre: seq<Label>, itemId: string, stock: nat, post: seq<Label>)
    requires Scenario(pre, itemId, stock, post)
    requires UnitOrders(Ending(pre, itemId, stock, post), itemId)
    requires Quiescent(Ending(pre, itemId, stock, post).s)
    ensures var s := Ending(pre, itemId, stock, post).s;
            var n := |OrdersOn(s, itemId)|;
            && |WithStatus(s, itemId, COMPLETED)| == Min(n, stock)
            && |WithStatus(s, itemId, REJECTED)| == n - Min(n, stock)
            && itemId in s.inventory.items
            && s.inventory.items[itemId] == Item(stock - Min(n, stock), 0, Min(n, stock))
  {
    OpeningIsStocked(pre, itemId, stock);
    var w0, w := Opening(pre, itemId, stock), Ending(pre, itemId, stock, post);
    RunKeepsStocked(w0, post, itemId, stock);
    RunKeepsRefusals(w0, post, itemId, stock);
    CompletedIsSold(w, itemId, stock);
    CompletedOrRejected(w, itemId);
    SoldIsSales(w, itemId);
    assert ItemBalanced(w.s.inventory, itemId);
    if WithStatus(w.s, itemId, REJECTED) != {} {
      var o :| o in WithStatus(w.s, itemId, REJECTED);
      assert Refused(w, o, itemId);
    }
  }
}
