/** Runs in which an item is stocked before it is ordered and not reset afterwards. */
module StockRuns {
  import opened Events
  import opened Sums
  import opened StateMachine
  import opened Inventory
  import opened Ledger
  import opened Saga
  import opened History
  import opened Invariant
  import opened Handling
  import opened Steps
  import opened Agreement

  predicate Resets(l: Label, itemId: string) {
    l.SetStock? && l.itemId == itemId
  }

  predicate OnItem(w: World, o: OrderId, itemId: string) {
    o in w.s.orders.orders && o in w.h && w.s.orders.orders[o].itemId == itemId
  }

  /** The item was stocked once, with `stock` units, and no reservation on it was ever deleted. */
  ghost predicate Stocked(w: World, itemId: string, stock: int) {
    && itemId in w.s.inventory.items && Capacity(w.s.inventory.items[itemId]) == stock
    && (forall o {:trigger OnItem(w, o, itemId)} :: OnItem(w, o, itemId) ==> !w.h[o].erased)
  }

  /** `pre` has no order for the item, then it is stocked, then `post` never resets it. */
  ghost predicate Scenario(pre: seq<Label>, itemId: string, stock: nat, post: seq<Label>) {
    && IsRun(START, pre)
    && (forall o {:trigger OnItem(Exec(START, pre), o, itemId)} :: !OnItem(Exec(START, pre), o, itemId))
    && IsRun(After(Exec(START, pre), SetStock(itemId, stock)), post)
    && (forall i {:trigger post[i]} :: 0 <= i < |post| ==> !Resets(post[i], itemId))
  }

  function Opening(pre: seq<Label>, itemId: string, stock: nat): World
    requires IsRun(START, pre)
  {
    After(Exec(START, pre), SetStock(itemId, stock))
  }

  function Ending(pre: seq<Label>, itemId: string, stock: nat, post: seq<Label>): World
    requires IsRun(START, pre) && IsRun(Opening(pre, itemId, stock), post)
  {
    Exec(Opening(pre, itemId, stock), post)
  }

  lemma OpeningIsStocked(pre: seq<Label>, itemId: string, stock: nat)
    requires IsRun(START, pre)
    requires forall o {:trigger OnItem(Exec(START, pre), o, itemId)} :: !OnItem(Exec(START, pre), o, itemId)
    ensures Inv(Opening(pre, itemId, stock)) && Stocked(Opening(pre, itemId, stock), itemId, stock)
    ensures forall o {:trigger OnItem(Opening(pre, itemId, stock), o, itemId)} ::
          !OnItem(Opening(pre, itemId, stock), o, itemId)
  {
    ReachableHolds(pre);
    var w, w' := Exec(START, pre), Opening(pre, itemId, stock);
    StepKeepsInvariant(w, SetStock(itemId, stock));
    forall o ensures !OnItem(w', o, itemId) {
      assert !OnItem(w, o, itemId);
    }
  }

  // ----- what one step can do to a trace -----

  /** The delivery on which the inventory service answers an order. */
  predicate Answers(w: World, l: Label, o: OrderId) {
    && l.Consume? && l.committed && l.copy.dest == InventoryService && l.copy.event.kind.OrderCreated?
    && l.copy.event.aggregate == o && l.copy.event.id !in w.s.inventory.processed
  }

  lemma OnlyAnswersChangeVerdicts(w: World, l: Label, o: OrderId)
    requires Enabled(w.s, l) && o in w.h && (l.Place? ==> o != w.s.next)
    ensures o in TracesAfter(w, l)
    ensures Answers(w, l, o) ==> TracesAfter(w, l)[o].granted == (o in Step(w.s, l).inventory.reservations)
    ensures !Answers(w, l, o) ==>
          TracesAfter(w, l)[o].verdict == w.h[o].verdict && TracesAfter(w, l)[o].granted == w.h[o].granted
  {
  }

  lemma OnlyResetsErase(w: World, l: Label, o: OrderId)
    requires Enabled(w.s, l) && o in w.h && (l.Place? ==> o != w.s.next)
    ensures o in TracesAfter(w, l)
    ensures TracesAfter(w, l)[o].erased ==>
              w.h[o].erased || (o in w.s.inventory.reservations && Resets(l, w.s.inventory.reservations[o].itemId))
  {
  }

  /** A request keeps its item, quantity, customer and amount for ever. */
  lemma StepKeepsRequest(w: World, l: Label, o: OrderId)
    requires Enabled(w.s, l) && o in w.s.orders.orders && (l.Place? ==> o != w.s.next)
    ensures SameStatic(w.s, Step(w.s, l), o)
  {
    if l.Consume? && l.committed {
      RequestsNeverChange(w.s, l.copy.dest, l.copy.event, o);
    }
  }

  lemma StepKeepsCapacity(w: World, l: Label, itemId: string)
    requires Inv(w) && Enabled(w.s, l) && !Resets(l, itemId) && itemId in w.s.inventory.items
    ensures SameCapacity(w.s.inventory, Step(w.s, l).inventory, itemId)
  {
    if l.Consume? && l.committed && l.copy.dest == InventoryService {
      HandleConserves(w.s.inventory, l.copy.event, w.s.next);
      assert SameCapacity(w.s.inventory, Inventory.Handle(w.s.inventory, l.copy.event, w.s.next).db, itemId);
    }
  }

  /** An order after a step is an order from before it, or the one that the step placed. */
  lemma WhereOrdersComeFrom(w: World, l: Label, o: OrderId)
    requires Inv(w) && Enabled(w.s, l) && o in After(w, l).s.orders.orders && o in After(w, l).h
    ensures (o in w.s.orders.orders && o in w.h && (l.Place? ==> o != w.s.next))
         || (l.Place? && o == w.s.next && After(w, l).h[o] == Trace(w.s.next + 2, None, false, None, None, None, false))
  {
    if o in w.s.orders.orders || o in w.h {
      assert KnownOrder(w, o);
    }
  }

  lemma StepKeepsStocked(w: World, l: Label, itemId: string, stock: int)
    requires Inv(w) && Stocked(w, itemId, stock) && Enabled(w.s, l) && !Resets(l, itemId)
    ensures Stocked(After(w, l), itemId, stock)
  {
    var w' := After(w, l);
    StepKeepsCapacity(w, l, itemId);
    assert SameCapacity(w.s.inventory, w'.s.inventory, itemId);
    forall o | OnItem(w', o, itemId) ensures !w'.h[o].erased {
      WhereOrdersComeFrom(w, l, o);
      if o in w.h && !(l.Place? && o == w.s.next) {
        StepKeepsRequest(w, l, o);
        assert OnItem(w, o, itemId);
        OnlyResetsErase(w, l, o);
        assert OrderOk(w.s, o, w.h[o]);
      }
    }
  }

  lemma {:induction false} RunKeepsStocked(w: World, ls: seq<Label>, itemId: string, stock: int)
    requires Inv(w) && Stocked(w, itemId, stock) && IsRun(w, ls)
    requires forall i {:trigger ls[i]} :: 0 <= i < |ls| ==> !Resets(ls[i], itemId)
    ensures Inv(Exec(w, ls)) && Stocked(Exec(w, ls), itemId, stock)
    decreases |ls|
  {
    if ls != [] {
      StepKeepsInvariant(w, ls[0]);
      StepKeepsStocked(w, ls[0], itemId, stock);
      RunKeepsStocked(After(w, ls[0]), ls[1..], itemId, stock);
    }
  }

  /** The quantity of each completed order on an item. */
  function Completed(s: State, itemId: string): map<nat, int> {
    map o | o in s.orders.orders ::
      if s.orders.orders[o].itemId == itemId && s.orders.orders[o].status == COMPLETED
      then s.orders.orders[o].quantity else 0
  }

  lemma SalesAreCompleted(w: World, itemId: string, stock: int)
    requires Inv(w) && Quiescent(w.s) && Stocked(w, itemId, stock)
    ensures w.s.inventory.items[itemId] == Item(stock - Sum(Completed(w.s, itemId)), 0, Sum(Completed(w.s, itemId)))
  {
    forall o
      ensures At(Sales(w, itemId), o) == At(Completed(w.s, itemId), o)
    {
      if o in w.s.orders.orders {
        assert KnownOrder(w, o);
        assert w.s.orders.orders[o].itemId == itemId ==> OnItem(w, o, itemId);
      }
    }
    SumAgree(Sales(w, itemId), Completed(w.s, itemId));
    SoldIsSales(w, itemId);
    assert ItemBalanced(w.s.inventory, itemId);
  }

  /** Without a reset of the item after it was stocked, no reservation on it is ever lost: when nothing is left
      to deliver, COMPLETED is COMMITTED, PAYMENT_FAILED is RELEASED and REJECTED is no reservation for each of
      its orders, and its stock is what it was less what the COMPLETED ones bought. */
  lemma AgreementWithoutResets(pre: seq<Label>, itemId: string, stock: nat, post: seq<Label>)
    requires Scenario(pre, itemId, stock, post) && Quiescent(Ending(pre, itemId, stock, post).s)
    ensures var w := Ending(pre, itemId, stock, post);
            && (forall o :: o in w.s.orders.orders && w.s.orders.orders[o].itemId == itemId ==> Agree(w.s, o, false))
            && itemId in w.s.inventory.items
            && w.s.inventory.items[itemId] == Item(stock - Sum(Completed(w.s, itemId)), 0, Sum(Completed(w.s, itemId)))
  {
    OpeningIsStocked(pre, itemId, stock);
    RunKeepsStocked(Opening(pre, itemId, stock), post, itemId, stock);
    var w := Ending(pre, itemId, stock, post);
    forall o | o in w.s.orders.orders && w.s.orders.orders[o].itemId == itemId
      ensures Agree(w.s, o, false)
    {
      QuietMeansFinished(w, o);
      assert OnItem(w, o, itemId);
      FinishedOrdersAgree(w.s, o, w.h[o]);
    }
    SalesAreCompleted(w, itemId, stock);
  }
}
