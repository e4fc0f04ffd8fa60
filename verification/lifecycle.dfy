/** One order's life under any sequence of deliveries to the order service. */
module Lifecycle {
  import opened Events
  import opened StateMachine
  import opened Orders
  import opened Duplicates

  /** The statuses of order `o` before the first delivery and after each one. */
  function Statuses(s: Store<OrderDb>, es: seq<Event>, o: OrderId): (history: seq<Status>)
    requires o in s.db.orders
    ensures |history| == |es| + 1 && history[0] == s.db.orders[o].status
    decreases |es|
  {
    [s.db.orders[o].status] + (if es == [] then [] else Statuses(Deliver(Orders.Handle, s, es[0]), es[1..], o))
  }

  function Changes(history: seq<Status>): nat
    decreases |history|
  {
    if |history| < 2 then 0
    else (if history[0] == history[1] then 0 else 1) + Changes(history[1..])
  }

  predicate IsTerminal(s: Status) {
    s in TERMINAL
  }

  /** One delivery follows the transition function for the event's order and touches no other order. */
  lemma DeliveryFollowsTransitions(s: Store<OrderDb>, e: Event, o: OrderId)
    requires o in s.db.orders
    ensures var s' := Deliver(Orders.Handle, s, e);
            && o in s'.db.orders
            && s'.db.orders[o].status ==
               (if e.aggregate == o && e.id !in s.db.processed then NextStatus(s.db.orders[o].status, e.kind)
                else s.db.orders[o].status)
            && s'.db.processed == (if e.aggregate in s.db.orders then s.db.processed + {e.id} else s.db.processed)
  {
  }

  lemma TransitionsClimb(s: Status, kind: EventType)
    ensures NextStatus(s, kind) != s ==> Rank(s) < Rank(NextStatus(s, kind)) && !IsTerminal(s)
  {
  }

  /** The status changes at most twice, and once it is terminal it never changes. */
  lemma {:induction false} AtMostTwoChanges(s: Store<OrderDb>, es: seq<Event>, o: OrderId)
    requires o in s.db.orders
    ensures var history := Statuses(s, es, o);
            && Changes(history) <= 2 - Rank(s.db.orders[o].status)
            && (IsTerminal(s.db.orders[o].status) ==> forall k {:trigger history[k]} :: 0 <= k < |history| ==>
                  history[k] == s.db.orders[o].status)
    decreases |es|
  {
    if es != [] {
      DeliveryFollowsTransitions(s, es[0], o);
      TransitionsClimb(s.db.orders[o].status, es[0].kind);
      var s' := Deliver(Orders.Handle, s, es[0]);
      AtMostTwoChanges(s', es[1..], o);
      assert Statuses(s, es, o)[1..] == Statuses(s', es[1..], o);
    }
  }

  /** The outbox rows of one kind for one order. */
  function RowsFor(outbox: Outbox, o: OrderId, kind: EventType): set<EventId> {
    set id | id in outbox && outbox[id].event.aggregate == o && outbox[id].event.kind == kind
  }

  /** Which rows an order's status calls for. */
  predicate RowsMatch(status: Status, commits: nat, releases: nat, completed: nat, failed: nat) {
    && commits == completed == (if status == COMPLETED then 1 else 0)
    && releases == (if status == PAYMENT_FAILED then 1 else 0)
    && failed == (if status == PAYMENT_FAILED || status == REJECTED then 1 else 0)
  }

  predicate RowsFit(db: OrderDb, o: OrderId)
    requires o in db.orders
  {
    RowsMatch(db.orders[o].status, |RowsFor(db.outbox, o, InventoryCommit)|, |RowsFor(db.outbox, o, InventoryRelease)|,
              |RowsFor(db.outbox, o, OrderCompleted)|, |RowsFor(db.outbox, o, OrderFailed)|)
  }

  predicate OutboxBelow(s: Store<OrderDb>) {
    forall id {:trigger id in s.db.outbox} :: id in s.db.outbox ==> id < s.next
  }

  lemma RowAdded(outbox: Outbox, e: Event, o: OrderId, kind: EventType)
    requires e.id !in outbox
    ensures |RowsFor(AddOutbox(outbox, e), o, kind)| == |RowsFor(outbox, o, kind)|
            + (if e.aggregate == o && e.kind == kind then 1 else 0)
  {
    var before, after := RowsFor(outbox, o, kind), RowsFor(AddOutbox(outbox, e), o, kind);
    forall id
      ensures id in after <==> id in before || (id == e.id && e.aggregate == o && e.kind == kind)
    {
    }
    if e.aggregate == o && e.kind == kind {
      assert after == before + {e.id};
    } else {
      assert after == before;
    }
  }

  function CountOf(es: seq<Event>, o: OrderId, kind: EventType): nat
    requires |es| <= 2
  {
    (if |es| > 0 && es[0].aggregate == o && es[0].kind == kind then 1 else 0) +
    (if |es| > 1 && es[1].aggregate == o && es[1].kind == kind then 1 else 0)
  }

  lemma RowsAdded(outbox: Outbox, es: seq<Event>, o: OrderId, kind: EventType)
    requires |es| <= 2
    requires forall k {:trigger es[k]} :: 0 <= k < |es| ==> es[k].id !in outbox
    requires |es| == 2 ==> es[0].id != es[1].id
    ensures |RowsFor(AddAll(outbox, es), o, kind)| == |RowsFor(outbox, o, kind)| + CountOf(es, o, kind)
  {
    if |es| > 0 {
      RowAdded(outbox, es[0], o, kind);
    }
    if |es| > 1 {
      RowAdded(AddOutbox(outbox, es[0]), es[1], o, kind);
    }
  }

  lemma DeliveryKeepsRows(s: Store<OrderDb>, e: Event, o: OrderId)
    requires o in s.db.orders && OutboxBelow(s) && RowsFit(s.db, o)
    ensures var s' := Deliver(Orders.Handle, s, e); o in s'.db.orders && OutboxBelow(s') && RowsFit(s'.db, o)
  {
    if e.id !in s.db.processed && e.aggregate in s.db.orders
      && NextStatus(s.db.orders[e.aggregate].status, e.kind) != s.db.orders[e.aggregate].status {
      AdvanceKeepsRows(s, e, o);
    }
  }

  /** What the announcements of one order add to the rows of any order. */
  lemma RowsAnnounced(s: Store<OrderDb>, es: seq<Event>, o: OrderId, status: Status)
    requires o in s.db.orders && OutboxBelow(s) && RowsFit(s.db, o) && |es| <= 2
    requires forall k {:trigger es[k]} :: 0 <= k < |es| ==> es[k].id == s.next + IDS_PER_EVENT * k
    requires forall c: nat, r: nat, d: nat, f: nat {:trigger RowsMatch(s.db.orders[o].status, c, r, d, f)} ::
          RowsMatch(s.db.orders[o].status, c, r, d, f) ==>
               RowsMatch(status, c + CountOf(es, o, InventoryCommit), r + CountOf(es, o, InventoryRelease),
                         d + CountOf(es, o, OrderCompleted), f + CountOf(es, o, OrderFailed))
    ensures var outbox := AddAll(s.db.outbox, es);
            RowsMatch(status, |RowsFor(outbox, o, InventoryCommit)|, |RowsFor(outbox, o, InventoryRelease)|,
                      |RowsFor(outbox, o, OrderCompleted)|, |RowsFor(outbox, o, OrderFailed)|)
  {
    forall k | 0 <= k < |es|
      ensures es[k].id !in s.db.outbox
    {
    }
    RowsAdded(s.db.outbox, es, o, InventoryCommit);
    RowsAdded(s.db.outbox, es, o, InventoryRelease);
    RowsAdded(s.db.outbox, es, o, OrderCompleted);
    RowsAdded(s.db.outbox, es, o, OrderFailed);
  }

  lemma AdvanceKeepsBelow(s: Store<OrderDb>, e: Event)
    requires OutboxBelow(s) && e.aggregate in s.db.orders
    ensures var tx := Advance(s.db, e, s.next); OutboxBelow(Store(tx.db, tx.next))
  {
  }

  lemma AdvanceKeepsRows(s: Store<OrderDb>, e: Event, o: OrderId)
    requires o in s.db.orders && OutboxBelow(s) && RowsFit(s.db, o)
    requires e.aggregate in s.db.orders
    requires NextStatus(s.db.orders[e.aggregate].status, e.kind) != s.db.orders[e.aggregate].status
    ensures var tx := Advance(s.db, e, s.next);
            o in tx.db.orders && OutboxBelow(Store(tx.db, tx.next)) && RowsFit(tx.db, o)
  {
    var a := e.aggregate;
    var order := s.db.orders[a].(status := NextStatus(s.db.orders[a].status, e.kind), reason := e.payload.reason);
    var es := Announcements(a, order, e, s.next);
    AdvanceKeepsBelow(s, e);
    if o == a {
      RowsAnnounced(s, es, o, order.status);
    } else {
      RowsAnnounced(s, es, o, s.db.orders[o].status);
    }
  }

  /** From an order that starts with no such rows: at most one commit or release is ever emitted, and exactly
      one completed or failed row if and only if the status is terminal. */
  lemma {:induction false} ExclusiveOutcome(s: Store<OrderDb>, es: seq<Event>, o: OrderId)
    requires o in s.db.orders && OutboxBelow(s) && RowsFit(s.db, o)
    ensures var end := DeliverAll(Orders.Handle, s, es).db;
            && o in end.orders && RowsFit(end, o)
            && |RowsFor(end.outbox, o, InventoryCommit)| + |RowsFor(end.outbox, o, InventoryRelease)| <= 1
            && |RowsFor(end.outbox, o, OrderCompleted)| + |RowsFor(end.outbox, o, OrderFailed)|
               == (if IsTerminal(end.orders[o].status) then 1 else 0)
    decreases |es|
  {
    if es != [] {
      DeliveryKeepsRows(s, es[0], o);
      ExclusiveOutcome(Deliver(Orders.Handle, s, es[0]), es[1..], o);
    }
  }

  /** A new order meets what `ExclusiveOutcome` asks for. */
  lemma NewOrdersFit(s: Store<OrderDb>, r: Request, key: string)
    requires OutboxBelow(s) && key !in s.db.keys
    requires forall id {:trigger id in s.db.outbox} :: id in s.db.outbox ==> s.db.outbox[id].event.aggregate < s.next
    ensures var c := Create(s.db, r, key, s.next);
            && c.order in c.db.orders && OutboxBelow(Store(c.db, c.next)) && RowsFit(c.db, c.order)
  {
    var c := Create(s.db, r, key, s.next);
    forall kind: EventType | kind != OrderCreated
      ensures RowsFor(c.db.outbox, c.order, kind) == {}
    {
    }
  }

  /** A freshly created order, whatever is delivered afterwards and however often: never both a commit and a
      release, and exactly one completed or failed event as soon as the order is terminal and not before. */
  lemma NewOrderHasOneOutcome(s: Store<OrderDb>, r: Request, key: string, es: seq<Event>)
    requires OutboxBelow(s) && key !in s.db.keys
    requires forall id {:trigger id in s.db.outbox} :: id in s.db.outbox ==> s.db.outbox[id].event.aggregate < s.next
    ensures var c := Create(s.db, r, key, s.next);
            var end, o := DeliverAll(Orders.Handle, Store(c.db, c.next), es).db, c.order;
            && o in end.orders
            && |RowsFor(end.outbox, o, InventoryCommit)| + |RowsFor(end.outbox, o, InventoryRelease)| <= 1
            && |RowsFor(end.outbox, o, OrderCompleted)| + |RowsFor(end.outbox, o, OrderFailed)|
               == (if IsTerminal(end.orders[o].status) then 1 else 0)
  {
    var c := Create(s.db, r, key, s.next);
    NewOrdersFit(s, r, key);
    ExclusiveOutcome(Store(c.db, c.next), es, c.order);
  }

  /** The transition function over a sequence of event types. */
  function Follow(status: Status, kinds: seq<EventType>): Status
    decreases |kinds|
  {
    if kinds == [] then status else Follow(NextStatus(status, kinds[0]), kinds[1..])
  }

  /** The types of the events about one order, in the order of their deliveries. */
  function KindsOf(es: seq<Event>, o: OrderId): seq<EventType>
    decreases |es|
  {
    if es == [] then []
    else if es[0].aggregate == o then [es[0].kind] + KindsOf(es[1..], o)
    else KindsOf(es[1..], o)
  }

  /** Deliveries with the same id are copies of one event. */
  predicate Consistent(es: seq<Event>) {
    forall j, k {:trigger es[j], es[k]} :: 0 <= j < k < |es| && es[j].id == es[k].id ==> es[j] == es[k]
  }

  /** Handling an event about `o` that is recorded already would change nothing. */
  predicate Absorbed(db: OrderDb, es: seq<Event>, o: OrderId)
    requires o in db.orders
  {
    forall k {:trigger es[k]} :: 0 <= k < |es| && es[k].aggregate == o && es[k].id in db.processed ==>
      NextStatus(db.orders[o].status, es[k].kind) == db.orders[o].status
  }

  /** Duplicates do not matter: the order ends where the transition function leads on the plain sequence of types. */
  lemma {:induction false} StatusFollowsKinds(s: Store<OrderDb>, es: seq<Event>, o: OrderId)
    requires o in s.db.orders && Consistent(es) && Absorbed(s.db, es, o)
    ensures var end := DeliverAll(Orders.Handle, s, es).db;
            o in end.orders && end.orders[o].status == Follow(s.db.orders[o].status, KindsOf(es, o))
    decreases |es|
  {
    if es != [] {
      var e, rest := es[0], es[1..];
      var s' := Deliver(Orders.Handle, s, e);
      DeliveryFollowsTransitions(s, e, o);
      forall k | 0 <= k < |rest| && rest[k].aggregate == o && rest[k].id in s'.db.processed
        ensures NextStatus(s'.db.orders[o].status, rest[k].kind) == s'.db.orders[o].status
      {
        assert rest[k] == es[k + 1];
      }
      StatusFollowsKinds(s', rest, o);
    }
  }

  /** The event types whose order of arrival decides between different statuses. */
  predicate Conflicting(kinds: seq<EventType>) {
    || (PaymentSucceeded in kinds && PaymentFailed in kinds)
    || (InventoryRejected in kinds
        && (InventoryReserved in kinds || PaymentSucceeded in kinds || PaymentFailed in kinds))
  }

  /** Where a new order ends up if nothing conflicts, whatever the order of arrival. */
  function Verdict(kinds: seq<EventType>): Status {
    if PaymentSucceeded in kinds then COMPLETED
    else if PaymentFailed in kinds then PAYMENT_FAILED
    else if InventoryRejected in kinds then REJECTED
    else if InventoryReserved in kinds then INVENTORY_RESERVED
    else PENDING
  }

  lemma {:induction false} FollowAppend(s: Status, kinds: seq<EventType>, last: EventType)
    ensures Follow(s, kinds + [last]) == NextStatus(Follow(s, kinds), last)
    decreases |kinds|
  {
    if kinds == [] {
      assert Follow(s, [last]) == Follow(NextStatus(s, last), []);
    } else {
      FollowAppend(NextStatus(s, kinds[0]), kinds[1..], last);
      assert (kinds + [last])[1..] == kinds[1..] + [last];
    }
  }

  lemma {:induction false} VerdictReached(kinds: seq<EventType>)
    requires !Conflicting(kinds)
    ensures Follow(PENDING, kinds) == Verdict(kinds)
    decreases |kinds|
  {
    if kinds != [] {
      var init, last := kinds[..|kinds| - 1], kinds[|kinds| - 1];
      assert kinds == init + [last];
      VerdictReached(init);
      FollowAppend(PENDING, init, last);
    }
  }

  /** The same deliveries with the `k`th one moved to the front. */
  function ToFront(kinds: seq<EventType>, k: nat): (moved: seq<EventType>)
    requires k < |kinds|
    ensures multiset(moved) == multiset(kinds)
  {
    assert kinds == kinds[..k] + [kinds[k]] + kinds[k + 1..];
    [kinds[k]] + kinds[..k] + kinds[k + 1..]
  }

  lemma {:induction false} TerminalSticks(s: Status, kinds: seq<EventType>)
    ensures IsTerminal(s) ==> Follow(s, kinds) == s
    ensures s == INVENTORY_RESERVED ==> Follow(s, kinds) != REJECTED
    decreases |kinds|
  {
    if kinds != [] {
      TerminalSticks(NextStatus(s, kinds[0]), kinds[1..]);
    }
  }

  /** A delivery that comes first decides. */
  lemma FirstDecides(kinds: seq<EventType>, k: nat)
    requires k < |kinds|
    ensures kinds[k] in {PaymentSucceeded, PaymentFailed, InventoryRejected} ==>
          Some(Follow(PENDING, ToFront(kinds, k))) == RequestedBy(kinds[k])
    ensures kinds[k] == InventoryReserved ==> Follow(PENDING, ToFront(kinds, k)) != REJECTED
  {
    var moved := ToFront(kinds, k);
    TerminalSticks(NextStatus(PENDING, kinds[k]), moved[1..]);
  }

  ghost predicate OrderIrrelevant(kinds: seq<EventType>) {
    forall other {:trigger multiset(other)} :: multiset(other) == multiset(kinds) ==>
          Follow(PENDING, other) == Follow(PENDING, kinds)
  }

  lemma ConflictDecides(kinds: seq<EventType>)
    requires Conflicting(kinds)
    ensures !OrderIrrelevant(kinds)
  {
    var j, k := ConflictingPair(kinds);
    FirstDecides(kinds, j);
    FirstDecides(kinds, k);
    assert Follow(PENDING, ToFront(kinds, j)) != Follow(PENDING, ToFront(kinds, k));
    assert multiset(ToFront(kinds, j)) == multiset(ToFront(kinds, k)) == multiset(kinds);
  }

  lemma NoConflictNoMatter(kinds: seq<EventType>)
    requires !Conflicting(kinds)
    ensures OrderIrrelevant(kinds)
  {
    forall other: seq<EventType> {:trigger multiset(other)} | multiset(other) == multiset(kinds)
      ensures Follow(PENDING, other) == Follow(PENDING, kinds)
    {
      SameTypes(kinds, other);
      VerdictReached(other);
      VerdictReached(kinds);
    }
  }

  /** The order of arrival is irrelevant for a new order exactly if no types conflict. */
  lemma OrderOfArrivalIsIrrelevant(kinds: seq<EventType>)
    ensures OrderIrrelevant(kinds) <==> !Conflicting(kinds)
  {
    if Conflicting(kinds) {
      ConflictDecides(kinds);
    } else {
      NoConflictNoMatter(kinds);
    }
  }

  lemma SameTypes(a: seq<EventType>, b: seq<EventType>)
    requires multiset(a) == multiset(b)
    ensures Conflicting(a) == Conflicting(b) && Verdict(a) == Verdict(b)
  {
    forall kind: EventType
      ensures kind in a <==> kind in b
    {
      assert kind in a <==> kind in multiset(a);
      assert kind in b <==> kind in multiset(b);
    }
  }

  /** Two deliveries that lead to different statuses if they come first. */
  lemma ConflictingPair(kinds: seq<EventType>) returns (j: nat, k: nat)
    requires Conflicting(kinds)
    ensures j < |kinds| && k < |kinds|
    ensures kinds[j] in {InventoryRejected, PaymentSucceeded}
    ensures if kinds[j] == PaymentSucceeded then kinds[k]
          == PaymentFailed else kinds[k] in {InventoryReserved, PaymentSucceeded, PaymentFailed}
  {
    if PaymentSucceeded in kinds && PaymentFailed in kinds {
      j, k :| j < |kinds| && kinds[j] == PaymentSucceeded && k < |kinds| && kinds[k] == PaymentFailed;
    } else {
      j :| j < |kinds| && kinds[j] == InventoryRejected;
      k :| k < |kinds| && kinds[k] in {InventoryReserved, PaymentSucceeded, PaymentFailed};
    }
  }

  /** A new order, deliveries of the same events in any order and number, and no conflict: the same final status.
      In particular a payment result may overtake `inventory.reserved`. */
  lemma PermutedAndDuplicated(s: Store<OrderDb>, a: seq<Event>, b: seq<Event>, o: OrderId)
    requires o in s.db.orders && s.db.orders[o].status == PENDING
    requires Consistent(a) && Consistent(b) && (forall e {:trigger e in a} :: e in a <==> e in b)
    requires forall e {:trigger e in a} :: e in a ==> e.id !in s.db.processed
    requires !Conflicting(KindsOf(a, o))
    ensures var endA, endB := DeliverAll(Orders.Handle, s, a).db, DeliverAll(Orders.Handle, s, b).db;
            && o in endA.orders && o in endB.orders
            && endA.orders[o].status == endB.orders[o].status == Verdict(KindsOf(a, o))
  {
    forall k | 0 <= k < |a|
      ensures a[k].id !in s.db.processed
    {
      assert a[k] in a;
    }
    forall k | 0 <= k < |b|
      ensures b[k].id !in s.db.processed
    {
      assert b[k] in b && b[k] in a;
    }
    StatusFollowsKinds(s, a, o);
    StatusFollowsKinds(s, b, o);
    SameKinds(a, b, o);
    VerdictReached(KindsOf(a, o));
    VerdictReached(KindsOf(b, o));
  }

  lemma SameKinds(a: seq<Event>, b: seq<Event>, o: OrderId)
    requires forall e {:trigger e in a} :: e in a <==> e in b
    ensures Conflicting(KindsOf(a, o)) == Conflicting(KindsOf(b, o)) && Verdict(KindsOf(a, o)) == Verdict(KindsOf(b, o))
  {
    forall kind: EventType
      ensures kind in KindsOf(a, o) <==> kind in KindsOf(b, o)
    {
      if kind in KindsOf(a, o) {
        var e := SourceOf(a, o, kind);
        KindIsThere(b, o, e);
      }
      if kind in KindsOf(b, o) {
        var e := SourceOf(b, o, kind);
        assert e in a;
        KindIsThere(a, o, e);
      }
    }
  }

  lemma {:induction false} SourceOf(es: seq<Event>, o: OrderId, kind: EventType) returns (e: Event)
    requires kind in KindsOf(es, o)
    ensures e in es && e.aggregate == o && e.kind == kind
    decreases |es|
  {
    if es[0].aggregate == o && es[0].kind == kind {
      e := es[0];
    } else {
      e := SourceOf(es[1..], o, kind);
    }
  }

  lemma {:induction false} KindIsThere(es: seq<Event>, o: OrderId, e: Event)
    requires e in es && e.aggregate == o
    ensures e.kind in KindsOf(es, o)
    decreases |es|
  {
    if es[0] != e {
      assert e in es[1..];
      KindIsThere(es[1..], o, e);
    }
  }
}
