/** With enough stock for every order, no order is rejected and every interleaving ends the same way. */
module SufficientStock {
  import opened Events
  import opened Sums
  import opened StateMachine
  import opened Orders
  import opened Inventory
  import opened Payments
  import opened Ledger
  import opened Saga
  import opened History
  import opened Invariant
  import opened Handling
  import opened Steps
  import opened Agreement
  import opened StockRuns

  /** The quantity of each order on an item. */
  function Demand(s: State, itemId: string): map<nat, int> {
    map o | o in s.orders.orders :: if s.orders.orders[o].itemId == itemId then s.orders.orders[o].quantity else 0
  }

  /** The units of each order on an item that are reserved or sold. */
  function Taken(rs: Reservations, itemId: string): map<nat, int> {
    map o | o in rs :: if rs[o].itemId == itemId && rs[o].status != RELEASED then rs[o].quantity else 0
  }

  ghost predicate NoneRejected(w: World, itemId: string) {
    forall o {:trigger OnItem(w, o, itemId)} :: OnItem(w, o, itemId) && w.h[o].verdict.Some? ==> w.h[o].granted
  }

  lemma TakenIsHeld(rs: Reservations, itemId: string)
    ensures Sum(Taken(rs, itemId)) == Held(rs, itemId, RESERVED) + Held(rs, itemId, COMMITTED)
  {
    SumAdd(Shares(rs, itemId, RESERVED), Shares(rs, itemId, COMMITTED), Taken(rs, itemId));
  }

  /** What other orders have taken leaves room for one that has no reservation yet. */
  lemma RoomForOneMore(w: World, itemId: string, o: OrderId)
    requires Core(w) && OnItem(w, o, itemId) && o !in w.s.inventory.reservations
    ensures Sum(Taken(w.s.inventory.reservations, itemId)) + w.s.orders.orders[o].quantity <= Sum(Demand(w.s, itemId))
  {
    var rs, demand := w.s.inventory.reservations, Demand(w.s, itemId);
    SumUpdate(demand, o, 0);
    forall x ensures At(Taken(rs, itemId), x) <= At(demand[o := 0], x) {
      TakenIsDemanded(w, itemId, x);
    }
    SumLe(Taken(rs, itemId), demand[o := 0]);
  }

  lemma TakenIsDemanded(w: World, itemId: string, x: OrderId)
    requires Core(w)
    ensures At(Taken(w.s.inventory.reservations, itemId), x) <= At(Demand(w.s, itemId), x)
  {
    if x in w.s.inventory.reservations || x in w.s.orders.orders {
      assert KnownOrder(w, x);
      assert OrderOk(w.s, x, w.h[x]);
    }
  }

  lemma StepKeepsNoneRejected(w: World, l: Label, itemId: string, stock: int)
    requires Inv(w) && Stocked(w, itemId, stock) && NoneRejected(w, itemId) && Enabled(w.s, l)
    requires Sum(Demand(w.s, itemId)) <= stock
    ensures NoneRejected(After(w, l), itemId)
  {
    var w' := After(w, l);
    forall o | OnItem(w', o, itemId) && w'.h[o].verdict.Some? ensures w'.h[o].granted {
      WhereOrdersComeFrom(w, l, o);
      if o in w.h && !(l.Place? && o == w.s.next) {
        StepKeepsRequest(w, l, o);
        assert OnItem(w, o, itemId);
        OnlyAnswersChangeVerdicts(w, l, o);
        if Answers(w, l, o) {
          AnswerIsYes(w, l.copy.event, itemId, stock);
        }
      }
    }
  }

  /** The inventory service grants the reservation. */
  lemma AnswerIsYes(w: World, e: Event, itemId: string, stock: int)
    requires Inv(w) && Stocked(w, itemId, stock) && Sum(Demand(w.s, itemId)) <= stock
    requires e.kind.OrderCreated? && e.id !in w.s.inventory.processed && OnItem(w, e.aggregate, itemId)
    requires Handled(w.s, InventoryService, e).Ok?
    requires exists c :: c in w.s.flight && c.event == e
    ensures e.aggregate in Handled(w.s, InventoryService, e).db.inventory.reservations
  {
    var c :| c in w.s.flight && c.event == e;
    assert CopyOk(w.s, c);
    EmittedIsKnown(w, e);
    var o, db := e.aggregate, w.s.inventory;
    if o !in db.reservations {
      RoomForOneMore(w, itemId, o);
      TakenIsHeld(db.reservations, itemId);
      assert ItemBalanced(db, itemId);
    }
  }

  lemma StepGrowsDemand(w: World, l: Label, itemId: string)
    requires Inv(w) && Enabled(w.s, l)
    ensures Sum(Demand(w.s, itemId)) <= Sum(Demand(Step(w.s, l), itemId))
  {
    forall o ensures At(Demand(w.s, itemId), o) <= At(Demand(Step(w.s, l), itemId), o) {
      if o in w.s.orders.orders {
        assert KnownOrder(w, o);
        StepKeepsRequest(w, l, o);
      } else if o in Step(w.s, l).orders.orders {
        var w' := After(w, l);
        StepKeepsInvariant(w, l);
        assert KnownOrder(w', o);
        assert OrderOk(w'.s, o, w'.h[o]);
      }
    }
    SumLe(Demand(w.s, itemId), Demand(Step(w.s, l), itemId));
  }

  lemma {:induction false} RunGrowsDemand(w: World, ls: seq<Label>, itemId: string)
    requires Inv(w) && IsRun(w, ls)
    ensures Sum(Demand(w.s, itemId)) <= Sum(Demand(Exec(w, ls).s, itemId))
    decreases |ls|
  {
    if ls != [] {
      StepGrowsDemand(w, ls[0], itemId);
      StepKeepsInvariant(w, ls[0]);
      RunGrowsDemand(After(w, ls[0]), ls[1..], itemId);
    }
  }

  lemma {:induction false} RunKeepsNoneRejected(w: World, ls: seq<Label>, itemId: string, stock: int)
    requires Inv(w) && Stocked(w, itemId, stock) && NoneRejected(w, itemId) && IsRun(w, ls)
    requires forall i {:trigger ls[i]} :: 0 <= i < |ls| ==> !Resets(ls[i], itemId)
    requires Sum(Demand(Exec(w, ls).s, itemId)) <= stock
    ensures NoneRejected(Exec(w, ls), itemId)
    decreases |ls|
  {
    if ls != [] {
      RunGrowsDemand(w, ls, itemId);
      StepKeepsNoneRejected(w, ls[0], itemId, stock);
      StepKeepsInvariant(w, ls[0]);
      StepKeepsStocked(w, ls[0], itemId, stock);
      RunKeepsNoneRejected(After(w, ls[0]), ls[1..], itemId, stock);
    }
  }

  /** No interleaving rejects an order on an item that has enough stock for all orders on it. */
  lemma EnoughStockMeansNoRejection(pre: seq<Label>, itemId: string, stock: nat, post: seq<Label>, o: OrderId)
    requires Scenario(pre, itemId, stock, post)
    requires Sum(Demand(Ending(pre, itemId, stock, post).s, itemId)) <= stock
    requires OnItem(Ending(pre, itemId, stock, post), o, itemId)
    ensures Ending(pre, itemId, stock, post).s.orders.orders[o].status != REJECTED
  {
    OpeningIsStocked(pre, itemId, stock);
    var w0, w := Opening(pre, itemId, stock), Ending(pre, itemId, stock, post);
    RunKeepsStocked(w0, post, itemId, stock);
    RunKeepsNoneRejected(w0, post, itemId, stock);
    assert OrderOk(w.s, o, w.h[o]);
  }

  /** The units that go to customers whose payment is accepted. */
  function Accepted(s: State, itemId: string): map<nat, int> {
    map o | o in s.orders.orders ::
      var order := s.orders.orders[o];
      if order.itemId == itemId && !ShouldFailPayment(order.customerId, order.amountCents) then order.quantity else 0
  }

  /** What becomes of an accepted or a declined request. */
  predicate Outcome(s: State, o: OrderId) {
    && o in s.orders.orders && o in s.payments.payments
    && var declined := ShouldFailPayment(s.orders.orders[o].customerId, s.orders.orders[o].amountCents);
    && s.orders.orders[o].status == (if declined then PAYMENT_FAILED else COMPLETED)
    && s.payments.payments[o].status == (if declined then FAILED else SUCCEEDED)
  }

  ghost predicate Determined(s: State, itemId: string, stock: int) {
    && (forall o {:trigger Outcome(s, o)} :: o in s.orders.orders && s.orders.orders[o].itemId == itemId ==>
          Outcome(s, o))
    && itemId in s.inventory.items
    && s.inventory.items[itemId] == Item(stock - Sum(Accepted(s, itemId)), 0, Sum(Accepted(s, itemId)))
  }

  /** The outcome of every order, and the final stock, are functions of the requests alone. */
  lemma OutcomeIsDetermined(pre: seq<Label>, itemId: string, stock: nat, post: seq<Label>)
    requires Scenario(pre, itemId, stock, post)
    requires Sum(Demand(Ending(pre, itemId, stock, post).s, itemId)) <= stock
    requires Quiescent(Ending(pre, itemId, stock, post).s)
    ensures Determined(Ending(pre, itemId, stock, post).s, itemId, stock)
  {
    OpeningIsStocked(pre, itemId, stock);
    RunKeepsStocked(Opening(pre, itemId, stock), post, itemId, stock);
    var w := Ending(pre, itemId, stock, post);
    forall o | o in w.s.orders.orders && w.s.orders.orders[o].itemId == itemId
      ensures o in w.h && !w.h[o].erased && Outcome(w.s, o)
    {
      assert KnownOrder(w, o);
      assert OnItem(w, o, itemId);
      AgreementWithoutResets(pre, itemId, stock, post);
      EnoughStockMeansNoRejection(pre, itemId, stock, post, o);
    }
    AllSold(w, itemId, stock);
  }

  lemma AllSold(w: World, itemId: string, stock: int)
    requires Inv(w) && Quiescent(w.s) && Stocked(w, itemId, stock)
    requires forall o {:trigger Outcome(w.s, o)} :: o in w.s.orders.orders && w.s.orders.orders[o].itemId == itemId ==>
               o in w.h && !w.h[o].erased && Outcome(w.s, o)
    ensures w.s.inventory.items[itemId] == Item(stock - Sum(Accepted(w.s, itemId)), 0, Sum(Accepted(w.s, itemId)))
  {
    forall o ensures At(Sales(w, itemId), o) == At(Accepted(w.s, itemId), o) {
      assert o in w.s.orders.orders && w.s.orders.orders[o].itemId == itemId ==> Outcome(w.s, o);
    }
    SumAgree(Sales(w, itemId), Accepted(w.s, itemId));
    SoldIsSales(w, itemId);
    assert ItemBalanced(w.s.inventory, itemId);
  }

  /** The order with the same idempotency key asks for the same thing. */
  predicate SameAsk(a: OrderDb, b: OrderDb, o: OrderId) {
    && o in a.orders && a.orders[o].key in b.keys
    && b.keys[a.orders[o].key] in b.orders
    && var x, y := a.orders[o], b.orders[b.keys[a.orders[o].key]];
       y.itemId == x.itemId && y.quantity == x.quantity
       && y.customerId == x.customerId && y.amountCents == x.amountCents
  }

  ghost predicate SameAsks(a: OrderDb, b: OrderDb) {
    forall o {:trigger SameAsk(a, b, o)} :: o in a.orders ==> SameAsk(a, b, o)
  }

  function Renaming(a: OrderDb, b: OrderDb): map<nat, nat> {
    map o | o in a.orders && a.orders[o].key in b.keys :: b.keys[a.orders[o].key]
  }

  lemma SameAsksSameSales(w1: World, w2: World, itemId: string)
    requires KnownOrders(w1) && KnownOrders(w2)
    requires SameAsks(w1.s.orders, w2.s.orders) && SameAsks(w2.s.orders, w1.s.orders)
    ensures Sum(Accepted(w1.s, itemId)) == Sum(Accepted(w2.s, itemId))
  {
    var a, b := w1.s.orders, w2.s.orders;
    var f := Renaming(a, b);
    forall o | o in a.orders ensures SameAsk(a, b, o) && KeyOk(a, o) && o in f {
    }
    forall v | v in b.orders ensures v in f.Values {
      assert SameAsk(b, a, v) && KeyOk(b, v);
      var o := a.keys[b.orders[v].key];
      assert f[o] == v;
    }
    SumRenamed(Accepted(w1.s, itemId), Accepted(w2.s, itemId), f);
  }

  /** Two interleavings of the same requests, matched by idempotency key, agree on the status and the
      payment of every order and on the stock. */
  lemma InterleavingsAgree(pre1: seq<Label>, post1: seq<Label>, pre2: seq<Label>, post2: seq<Label>, itemId: string,
      stock: nat)
    requires Scenario(pre1, itemId, stock, post1) && Scenario(pre2, itemId, stock, post2)
    requires Quiescent(Ending(pre1, itemId, stock, post1).s) && Quiescent(Ending(pre2, itemId, stock, post2).s)
    requires Sum(Demand(Ending(pre1, itemId, stock, post1).s, itemId)) <= stock
    requires Sum(Demand(Ending(pre2, itemId, stock, post2).s, itemId)) <= stock
    requires SameAsks(Ending(pre1, itemId, stock, post1).s.orders, Ending(pre2, itemId, stock, post2).s.orders)
    requires SameAsks(Ending(pre2, itemId, stock, post2).s.orders, Ending(pre1, itemId, stock, post1).s.orders)
    ensures var s1, s2 := Ending(pre1, itemId, stock, post1).s, Ending(pre2, itemId, stock, post2).s;
            && itemId in s1.inventory.items && itemId in s2.inventory.items
            && s1.inventory.items[itemId] == s2.inventory.items[itemId]
            && (forall o {:trigger MatchingOutcome(s1, s2, o)} ::
                  o in s1.orders.orders && s1.orders.orders[o].itemId == itemId ==>
                  MatchingOutcome(s1, s2, o))
  {
    OpeningIsStocked(pre1, itemId, stock);
    OpeningIsStocked(pre2, itemId, stock);
    RunKeepsStocked(Opening(pre1, itemId, stock), post1, itemId, stock);
    RunKeepsStocked(Opening(pre2, itemId, stock), post2, itemId, stock);
    OutcomeIsDetermined(pre1, itemId, stock, post1);
    OutcomeIsDetermined(pre2, itemId, stock, post2);
    var w1, w2 := Ending(pre1, itemId, stock, post1), Ending(pre2, itemId, stock, post2);
    SameAsksSameSales(w1, w2, itemId);
    forall o | o in w1.s.orders.orders && w1.s.orders.orders[o].itemId == itemId
      ensures MatchingOutcome(w1.s, w2.s, o) {
      assert SameAsk(w1.s.orders, w2.s.orders, o);
      assert Outcome(w1.s, o) && Outcome(w2.s, w2.s.orders.keys[w1.s.orders.orders[o].key]);
    }
  }

  /** The two orders with the same key ended the same way. */
  predicate MatchingOutcome(s1: State, s2: State, o: OrderId) {
    && o in s1.orders.orders && s1.orders.orders[o].key in s2.orders.keys
    && var o2 := s2.orders.keys[s1.orders.orders[o].key];
    && o2 in s2.orders.orders && o in s1.payments.payments && o2 in s2.payments.payments
    && s2.orders.orders[o2].status == s1.orders.orders[o].status
    && s2.payments.payments[o2].status == s1.payments.payments[o].status
  }
}
