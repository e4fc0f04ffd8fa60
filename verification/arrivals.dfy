/** In the Saga the order in which an order's events arrive never decides its fate. */
module Arrivals {
  import opened Events
  import opened Orders
  import opened StateMachine
  import opened Duplicates
  import opened Saga
  import opened History
  import opened Invariant
  import opened Handling
  import opened Steps
  import opened Agreement
  import Lifecycle

  predicate Clash(a: EventType, b: EventType) {
    || (a.PaymentSucceeded? && b.PaymentFailed?)
    || (a.InventoryRejected? && (b.InventoryReserved? || b.PaymentSucceeded? || b.PaymentFailed?))
  }

  lemma NoClash(w: World, a: Event, b: Event)
    requires OrdersOk(w) && RowsOk(w) && Emitted(w.s, a) && Emitted(w.s, b) && a.aggregate == b.aggregate
    ensures !Clash(a.kind, b.kind)
  {
    EmittedIsKnown(w, a);
    EmittedIsKnown(w, b);
  }

  ghost predicate AllEmitted(s: State, es: seq<Event>) {
    forall e {:trigger e in es} :: e in es ==> Emitted(s, e)
  }

  lemma EmittedNeverConflict(w: World, es: seq<Event>, o: OrderId)
    requires OrdersOk(w) && RowsOk(w) && AllEmitted(w.s, es)
    ensures !Lifecycle.Conflicting(Lifecycle.KindsOf(es, o))
  {
    var kinds := Lifecycle.KindsOf(es, o);
    if Lifecycle.Conflicting(kinds) {
      var j, k := Lifecycle.ConflictingPair(kinds);
      var a := Lifecycle.SourceOf(es, o, kinds[j]);
      var b := Lifecycle.SourceOf(es, o, kinds[k]);
      NoClash(w, a, b);
    }
  }

  /** No two emitted events share an identifier. */
  lemma EmittedOnce(s: State, es: seq<Event>)
    requires IdsOk(s) && AllEmitted(s, es)
    ensures Lifecycle.Consistent(es)
  {
    forall j, k | 0 <= j < k < |es| && es[j].id == es[k].id
      ensures es[j] == es[k]
    {
      assert es[j] in es && es[k] in es;
      assert Emitted(s, es[j]) && Emitted(s, es[k]);
      assert Apart(s, es[j].id);
    }
  }

  /** Whatever emitted events the order service is given about a new order, in whatever order and number,
      its status is the one that their types alone decide. */
  lemma ArrivalNeverDecides(ls: seq<Label>, store: Store<OrderDb>, es: seq<Event>, o: OrderId)
    requires IsRun(START, ls) && AllEmitted(Reached(ls).s, es)
    requires o in store.db.orders && store.db.orders[o].status == PENDING
    requires forall e {:trigger e in es} :: e in es ==> e.id !in store.db.processed
    ensures var end := DeliverAll(Orders.Handle, store, es).db;
            o in end.orders && end.orders[o].status == Lifecycle.Verdict(Lifecycle.KindsOf(es, o))
  {
    ReachableHolds(ls);
    EmittedOnce(Reached(ls).s, es);
    EmittedNeverConflict(Reached(ls), es, o);
    Lifecycle.PermutedAndDuplicated(store, es, es, o);
  }
}
