/** What was requested is what is stored, reserved and paid for, from the placing of an order to the end of time. */
module Requests {
  import opened Events
  import opened Orders
  import opened Saga
  import opened History
  import opened Invariant
  import opened Steps
  import opened Agreement
  import opened StockRuns

  /** The order has the four fields of the request, under its idempotency key. */
  predicate IsFor(order: Order, r: Request, key: string) {
    && order.customerId == r.customerId && order.itemId == r.itemId
    && order.quantity == r.quantity && order.amountCents == r.amountCents
    && order.key == key
  }

  predicate Stored(s: State, o: OrderId, r: Request, key: string) {
    o in s.orders.orders && o < s.next && IsFor(s.orders.orders[o], r, key)
  }

  lemma StepKeepsStored(w: World, l: Label, o: OrderId, r: Request, key: string)
    requires Inv(w) && Enabled(w.s, l) && Stored(w.s, o, r, key)
    ensures Stored(Step(w.s, l), o, r, key)
  {
    StepKeepsRequest(w, l, o);
    StepKeepsInvariant(w, l);
    assert KnownOrder(After(w, l), o);
  }

  lemma {:induction false} RunKeepsStored(w: World, ls: seq<Label>, o: OrderId, r: Request, key: string)
    requires Inv(w) && IsRun(w, ls) && Stored(w.s, o, r, key)
    ensures Inv(Exec(w, ls)) && Stored(Exec(w, ls).s, o, r, key)
    decreases |ls|
  {
    if ls != [] {
      StepKeepsStored(w, ls[0], o, r, key);
      StepKeepsInvariant(w, ls[0]);
      RunKeepsStored(After(w, ls[0]), ls[1..], o, r, key);
    }
  }

  /** A new key's order is PENDING with the request's fields at once; a known key's request changes nothing. */
  lemma PlacedAtOnce(s: State, r: Request, key: string)
    requires Enabled(s, Place(r, key))
    ensures var s' := Step(s, Place(r, key));
            && (key in s.orders.keys ==> s' == s)
            && (key !in s.orders.keys ==>
                  && Stored(s', s.next, r, key)
                  && s'.orders.orders[s.next].status == StateMachine.PENDING && s'.orders.orders[s.next].reason == None
                  && s'.orders.keys == s.orders.keys[key := s.next])
  {
  }

  /** Whatever happens after an order was placed, and whatever happened before: it is stored under its key with the
      customer, item, quantity and amount of the request, its payment is over that amount and by that customer, and
      its reservation is for that item and quantity. */
  lemma PlacedAsRequested(pre: seq<Label>, r: Request, key: string, post: seq<Label>)
    requires IsRun(START, pre) && Admissible(r) && key !in Exec(START, pre).s.orders.keys
    requires IsRun(After(Exec(START, pre), Place(r, key)), post)
    ensures var o, s := Exec(START, pre).s.next, Exec(After(Exec(START, pre), Place(r, key)), post).s;
            && key in s.orders.keys && s.orders.keys[key] == o && o in s.orders.orders
            && IsFor(s.orders.orders[o], r, key)
            && (o in s.payments.payments ==>
                  && s.payments.payments[o].customerId == r.customerId
                  && s.payments.payments[o].amountCents == r.amountCents)
            && (o in s.inventory.reservations ==>
                  && s.inventory.reservations[o].itemId == r.itemId
                  && s.inventory.reservations[o].quantity == r.quantity)
  {
    ReachableHolds(pre);
    var w := Exec(START, pre);
    PlacedAtOnce(w.s, r, key);
    StepKeepsInvariant(w, Place(r, key));
    RunKeepsStored(After(w, Place(r, key)), post, w.s.next, r, key);
    var end, o := Exec(After(w, Place(r, key)), post), w.s.next;
    assert KnownOrder(end, o) && KeyOk(end.s.orders, o);
    OrderRowsFollowStatus(end.s, o, end.h[o]);
  }
}
