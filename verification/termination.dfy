/** The Saga always comes to rest: finitely many orders, resets and faults allow only finitely many steps. */
module Termination {
  import opened Events
  import opened Sums
  import opened StateMachine
  import opened Orders
  import opened Delivery
  import opened Saga
  import opened History
  import opened Invariant
  import opened Handling
  import opened Steps
  import opened Agreement

  /** A fresh copy can be delivered, rejected and expired until its retries are used up. */
  const ATTEMPTS: nat := 2 * MAX_RETRIES + 1

  /** The steps that the rows emitted by a handler can still cause. */
  function Work(dest: Service, kind: EventType): nat {
    match dest
    case InventoryService => if kind.OrderCreated? then Cost(InventoryReserved) else Cost(InventoryCommitted)
    case PaymentService => Cost(PaymentSucceeded)
    case OrderService =>
      if kind.PaymentSucceeded? || kind.PaymentFailed? then Cost(InventoryCommit) + Cost(OrderCompleted)
      else if kind.InventoryRejected? then Cost(OrderFailed)
      else 0
    case NotificationService => 0
  }

  /** The steps that an unsent row can still cause: sending, marking, and the life of each copy. */
  function Cost(kind: EventType): nat {
    match kind
    case InventoryCommitted | InventoryReleased | Other(_) => 2
    case OrderCompleted | OrderFailed => 9
    case InventoryCommit | InventoryRelease => 11
    case InventoryRejected => 18
    case PaymentSucceeded | PaymentFailed => 29
    case InventoryReserved => 45
    case OrderCreated => 54
  }

  function CopyCost(c: Copy): nat {
    match c.stage
    case Dead => 0
    case Main => Work(c.dest, c.event.kind) + 1 + 2 * RetriesLeft(c)
    case Retry => Work(c.dest, c.event.kind) + 2 + 2 * RetriesLeft(c)
  }

  function RetriesLeft(c: Copy): nat {
    var n := RetryCount(c.headers, QueueName(c.dest));
    if n >= MAX_RETRIES then 0 else MAX_RETRIES - n
  }

  function RowCost(row: Row, sent: bool): nat {
    if row.published then 0 else if sent then 1 else Cost(row.event.kind)
  }

  function RowCosts(outbox: Outbox, sent: set<EventId>): map<nat, int> {
    map id | id in outbox :: RowCost(outbox[id], id in sent)
  }

  ghost function Load(flight: multiset<Copy>): nat {
    if flight == multiset{} then 0
    else
      var c := PickCopy(flight);
      CopyCost(c) + Load(flight - multiset{c})
  }

  ghost function PickCopy(flight: multiset<Copy>): (c: Copy)
    requires flight != multiset{}
    ensures c in flight
  {
    var c :| c in flight;
    c
  }

  /** An upper bound on the fault-free steps that the system can still take on its own. */
  ghost function Potential(s: State): int {
    Sum(RowCosts(s.orders.outbox, s.sent)) + Sum(RowCosts(s.inventory.outbox, s.sent))
    + Sum(RowCosts(s.payments.outbox, s.sent)) + Load(s.flight)
  }

  // ----- copies -----

  lemma {:induction false} LoadAt(flight: multiset<Copy>, c: Copy)
    requires c in flight
    ensures Load(flight) == CopyCost(c) + Load(flight - multiset{c})
    decreases |flight|
  {
    var p := PickCopy(flight);
    if p != c {
      LoadAt(flight - multiset{p}, c);
      LoadAt(flight - multiset{c}, p);
      assert flight - multiset{p} - multiset{c} == flight - multiset{c} - multiset{p};
    }
  }

  lemma LoadPlus(flight: multiset<Copy>, c: Copy)
    ensures Load(flight + multiset{c}) == Load(flight) + CopyCost(c)
  {
    LoadAt(flight + multiset{c}, c);
    assert flight + multiset{c} - multiset{c} == flight;
  }

  function CopiesCost(svc: Service, kind: EventType): nat {
    if Bound(svc, kind) then Work(svc, kind) + ATTEMPTS else 0
  }

  lemma LoadPlusCopyFor(flight: multiset<Copy>, svc: Service, e: Event)
    ensures Load(flight + CopyFor(svc, e)) == Load(flight) + CopiesCost(svc, e.kind)
  {
    if Bound(svc, e.kind) {
      LoadPlus(flight, Copy(svc, e, Main, []));
    } else {
      assert flight + CopyFor(svc, e) == flight;
    }
  }

  lemma LoadPlusFanout(flight: multiset<Copy>, e: Event)
    ensures Load(flight + Fanout(e)) == Load(flight)
              + CopiesCost(OrderService, e.kind) + CopiesCost(InventoryService, e.kind)
              + CopiesCost(PaymentService, e.kind) + CopiesCost(NotificationService, e.kind)
  {
    var f1 := flight + CopyFor(OrderService, e);
    var f2 := f1 + CopyFor(InventoryService, e);
    var f3 := f2 + CopyFor(PaymentService, e);
    LoadPlusCopyFor(flight, OrderService, e);
    LoadPlusCopyFor(f1, InventoryService, e);
    LoadPlusCopyFor(f2, PaymentService, e);
    LoadPlusCopyFor(f3, NotificationService, e);
    assert flight + Fanout(e) == f3 + CopyFor(NotificationService, e) by {
      FourParts(flight, CopyFor(OrderService, e), CopyFor(InventoryService, e), CopyFor(PaymentService, e),
                CopyFor(NotificationService, e));
    }
  }

  lemma FourParts(m: multiset<Copy>, a: multiset<Copy>, b: multiset<Copy>, c: multiset<Copy>, d: multiset<Copy>)
    ensures m + (a + b + c + d) == m + a + b + c + d
  {
  }

  /** A row pays for the copies that sending it makes, and has a step left for its mark. */
  lemma RowPaysForCopies(kind: EventType)
    ensures CopiesCost(OrderService, kind) + CopiesCost(InventoryService, kind)
            + CopiesCost(PaymentService, kind) + CopiesCost(NotificationService, kind) + 2 <= Cost(kind)
  {
  }

  lemma RejectionIsProgress(c: Copy)
    requires c.stage == Main
    ensures CopyCost(Rejected(c, MAX_RETRIES)) + 1 <= CopyCost(c)
  {
    RestCounts(c.headers, QueueName(c.dest), MAX_RETRIES);
  }

  lemma ExpiryIsProgress(c: Copy)
    requires c.stage == Retry
    ensures CopyCost(Expired(c)) + 1 == CopyCost(c)
  {
    RestCounts(c.headers, QueueName(c.dest), MAX_RETRIES);
  }

  /** What an answer does to the load, apart from what the handler emitted. */
  lemma LoadAfterAnswer(flight: multiset<Copy>, c: Copy, answer: Answer)
    requires c in flight && c.stage == Main
    ensures answer == Ack ==> Load(Answered(flight, c, answer)) + CopyCost(c) == Load(flight)
    ensures answer == Reject ==> Load(Answered(flight, c, answer)) + 1 <= Load(flight)
    ensures answer == Requeue || answer == DeadLetterCrash ==> Load(Answered(flight, c, answer)) == Load(flight)
  {
    LoadAt(flight, c);
    match answer
    case Ack =>
    case Requeue =>
    case Reject =>
      LoadPlus(flight - multiset{c}, Rejected(c, MAX_RETRIES));
      RejectionIsProgress(c);
    case DeadLetterCrash => LoadPlus(flight, c.(stage := Dead));
  }

  // ----- rows -----

  /** Batches that agree on the rows of an outbox give it the same cost. */
  lemma SameBatch(outbox: Outbox, a: set<EventId>, b: set<EventId>)
    requires forall id :: id in outbox ==> (id in a <==> id in b)
    ensures Sum(RowCosts(outbox, a)) == Sum(RowCosts(outbox, b))
  {
    assert RowCosts(outbox, a) == RowCosts(outbox, b);
  }

  lemma NewRowCost(outbox: Outbox, e: Event, sent: set<EventId>)
    requires e.id !in outbox && e.id !in sent
    ensures Sum(RowCosts(AddOutbox(outbox, e), sent)) == Sum(RowCosts(outbox, sent)) + Cost(e.kind)
  {
    SumUpdate(RowCosts(outbox, sent), e.id, Cost(e.kind));
    assert RowCosts(AddOutbox(outbox, e), sent) == RowCosts(outbox, sent)[e.id := Cost(e.kind)];
  }

  /** One row of one outbox changes its state in its batch. */
  lemma RowCostChanges(outbox: Outbox, outbox': Outbox, id: EventId, sent: set<EventId>, sent': set<EventId>)
    requires id in outbox && id in outbox' && outbox' == outbox[id := outbox'[id]]
    requires forall x :: x != id ==> (x in sent <==> x in sent')
    ensures Sum(RowCosts(outbox', sent'))
          == Sum(RowCosts(outbox, sent)) - RowCost(outbox[id], id in sent) + RowCost(outbox'[id], id in sent')
  {
    SumUpdate(RowCosts(outbox, sent), id, RowCost(outbox'[id], id in sent'));
    assert RowCosts(outbox', sent') == RowCosts(outbox, sent)[id := RowCost(outbox'[id], id in sent')];
  }

  ghost function RowsTotal(s: State): int {
    Sum(RowCosts(s.orders.outbox, s.sent)) + Sum(RowCosts(s.inventory.outbox, s.sent))
          + Sum(RowCosts(s.payments.outbox, s.sent))
  }

  /** A step of one row, in its own outbox only. */
  lemma RowStep(s: State, s': State, svc: Service, id: EventId)
    requires IdsOk(s) && id in OutboxOf(s, svc) && id in OutboxOf(s', svc)
    requires OutboxOf(s', svc) == OutboxOf(s, svc)[id := OutboxOf(s', svc)[id]]
    requires forall from :: from != svc ==> OutboxOf(s', from) == OutboxOf(s, from)
    requires forall x :: x != id ==> (x in s.sent <==> x in s'.sent)
    ensures RowsTotal(s')
          == RowsTotal(s) - RowCost(OutboxOf(s, svc)[id], id in s.sent) + RowCost(OutboxOf(s', svc)[id], id in s'.sent)
  {
    assert Apart(s, id);
    RowCostChanges(OutboxOf(s, svc), OutboxOf(s', svc), id, s.sent, s'.sent);
    forall from | from != svc
      ensures Sum(RowCosts(OutboxOf(s', from), s'.sent)) == Sum(RowCosts(OutboxOf(s, from), s.sent)) {
      SameBatch(OutboxOf(s, from), s.sent, s'.sent);
    }
    assert forall from :: from != svc ==> id !in OutboxOf(s, from);
    assert OutboxOf(s, OrderService) == s.orders.outbox;
    assert OutboxOf(s, InventoryService) == s.inventory.outbox;
    assert OutboxOf(s, PaymentService) == s.payments.outbox;
    assert OutboxOf(s', OrderService) == s'.orders.outbox;
    assert OutboxOf(s', InventoryService) == s'.inventory.outbox;
    assert OutboxOf(s', PaymentService) == s'.payments.outbox;
  }

  // ----- every step pays for itself -----

  const PER_ORDER: nat := 55
  const PER_FAULT: nat := 54

  /** Crashes, aborted batches, and transactions that commit but are answered as if they had not. */
  predicate Fault(l: Label) {
    l.Abort? || (l.Consume? && l.answer != Ack && (l.committed || l.answer != Reject))
  }

  /** The steps that a label brings into the system. */
  function Allowance(l: Label): nat {
    if l.Place? then PER_ORDER else if l.SetStock? then 1 else if Fault(l) then PER_FAULT else 0
  }

  lemma PlacePays(w: World, r: Request, key: string)
    requires Inv(w) && Admissible(r)
    ensures Potential(Step(w.s, Place(r, key))) + 1 <= Potential(w.s) + PER_ORDER
  {
    if key !in w.s.orders.keys {
      CounterNotInOutbox(w, w.s.next + 2);
      assert w.s.next + 2 !in OutboxOf(w.s, OrderService);
      assert !Old(w.s, w.s.next + 2);
      var order := NewOrder(r, key, w.s.next + 1);
      NewRowCost(w.s.orders.outbox, CreatedEvent(w.s.next, order, w.s.next + 2), w.s.sent);
    }
  }

  lemma SendPays(s: State, svc: Service, id: EventId)
    requires IdsOk(s) && Enabled(s, Send(svc, id))
    ensures Potential(Step(s, Send(svc, id))) + 1 <= Potential(s)
  {
    var e := OutboxOf(s, svc)[id].event;
    RowStep(s, Step(s, Send(svc, id)), svc, id);
    LoadPlusFanout(s.flight, e);
    RowPaysForCopies(e.kind);
  }

  predicate Unpublished(s: State, svc: Service, id: EventId) {
    id in OutboxOf(s, svc) && id in s.sent ==> !OutboxOf(s, svc)[id].published
  }

  /** A row in an open batch is not marked yet. */
  ghost predicate BatchesOpen(s: State) {
    forall svc, id {:trigger Unpublished(s, svc, id)} :: Unpublished(s, svc, id)
  }

  lemma MarkPays(s: State, svc: Service, id: EventId)
    requires IdsOk(s) && BatchesOpen(s) && Enabled(s, Mark(svc, id))
    ensures Potential(Step(s, Mark(svc, id))) + 1 <= Potential(s)
  {
    assert Unpublished(s, svc, id);
    RowStep(s, Step(s, Mark(svc, id)), svc, id);
  }

  lemma AbortPays(s: State, svc: Service, id: EventId)
    requires IdsOk(s) && BatchesOpen(s) && Enabled(s, Abort(svc, id))
    ensures Potential(Step(s, Abort(svc, id))) + 1 <= Potential(s) + PER_FAULT
  {
    assert Unpublished(s, svc, id);
    RowStep(s, Step(s, Abort(svc, id)), svc, id);
  }

  lemma ExpirePays(s: State, c: Copy)
    requires Enabled(s, Expire(c))
    ensures Potential(Step(s, Expire(c))) + 1 <= Potential(s)
  {
    LoadAt(s.flight, c);
    LoadPlus(s.flight - multiset{c}, Expired(c));
    ExpiryIsProgress(c);
  }

  // ----- handlers -----

  lemma OrderRowsPaid(s: State, e: Event)
    requires Handled(s, OrderService, e).Ok? && Bound(OrderService, e.kind)
    requires s.next !in s.orders.outbox && s.next !in s.sent
    requires s.next + IDS_PER_EVENT !in s.orders.outbox && s.next + IDS_PER_EVENT !in s.sent
    ensures Sum(RowCosts(Handled(s, OrderService, e).db.orders.outbox, s.sent))
         <= Sum(RowCosts(s.orders.outbox, s.sent)) + Work(OrderService, e.kind)
  {
    var db' := Handled(s, OrderService, e).db.orders;
    if db'.outbox != s.orders.outbox {
      var o := e.aggregate;
      var order := s.orders.orders[o].(status := NextStatus(s.orders.orders[o].status, e.kind),
                 reason := e.payload.reason);
      var es := Announcements(o, order, e, s.next);
      assert db'.outbox == AddAll(s.orders.outbox, es);
      AnnouncementsPaid(s.orders.outbox, es, s.next, s.sent, Work(OrderService, e.kind));
    }
  }

  lemma AnnouncementsPaid(outbox: Outbox, es: seq<Event>, unused: Id, sent: set<EventId>, work: nat)
    requires |es| <= 2 && unused !in outbox && unused !in sent && unused + IDS_PER_EVENT !in outbox
    requires unused + IDS_PER_EVENT !in sent
    requires |es| > 0 ==> es[0].id == unused && Cost(es[0].kind) <= work
    requires |es| > 1 ==> es[1].id == unused + IDS_PER_EVENT && Cost(es[0].kind) + Cost(es[1].kind) <= work
    ensures Sum(RowCosts(AddAll(outbox, es), sent)) <= Sum(RowCosts(outbox, sent)) + work
  {
    if |es| > 0 {
      NewRowCost(outbox, es[0], sent);
      if |es| > 1 {
        NewRowCost(AddOutbox(outbox, es[0]), es[1], sent);
      }
    }
  }

  lemma InventoryRowsPaid(s: State, e: Event)
    requires Handled(s, InventoryService, e).Ok? && Bound(InventoryService, e.kind)
    requires s.next !in s.inventory.outbox && s.next !in s.sent
    ensures Sum(RowCosts(Handled(s, InventoryService, e).db.inventory.outbox, s.sent))
         <= Sum(RowCosts(s.inventory.outbox, s.sent)) + Work(InventoryService, e.kind)
  {
    var outbox' := Handled(s, InventoryService, e).db.inventory.outbox;
    if outbox' != s.inventory.outbox {
      var emitted := outbox'[s.next].event;
      assert outbox' == AddOutbox(s.inventory.outbox, emitted) && emitted.id == s.next;
      NewRowCost(s.inventory.outbox, emitted, s.sent);
    }
  }

  lemma PaymentRowsPaid(s: State, e: Event)
    requires Handled(s, PaymentService, e).Ok?
    requires s.next !in s.payments.outbox && s.next !in s.sent
    ensures Sum(RowCosts(Handled(s, PaymentService, e).db.payments.outbox, s.sent))
         <= Sum(RowCosts(s.payments.outbox, s.sent)) + Work(PaymentService, e.kind)
  {
    var outbox' := Handled(s, PaymentService, e).db.payments.outbox;
    if outbox' != s.payments.outbox {
      var emitted := outbox'[s.next].event;
      assert outbox' == AddOutbox(s.payments.outbox, emitted) && emitted.id == s.next;
      NewRowCost(s.payments.outbox, emitted, s.sent);
    }
  }

  /** The rows that a handler emits cost no more than the work its event was charged for. */
  lemma RowsPaid(w: World, dest: Service, e: Event)
    requires Inv(w) && Handled(w.s, dest, e).Ok? && Bound(dest, e.kind)
    ensures RowsTotal(Handled(w.s, dest, e).db) <= RowsTotal(w.s) + Work(dest, e.kind)
  {
    CounterNotInOutbox(w, w.s.next);
    CounterNotInOutbox(w, w.s.next + IDS_PER_EVENT);
    assert !Old(w.s, w.s.next) && !Old(w.s, w.s.next + IDS_PER_EVENT);
    HandlerKeepsBroker(w.s, dest, e);
    assert OutboxOf(w.s, OrderService) == w.s.orders.outbox;
    assert OutboxOf(w.s, InventoryService) == w.s.inventory.outbox;
    assert OutboxOf(w.s, PaymentService) == w.s.payments.outbox;
    match dest
    case OrderService => OrderRowsPaid(w.s, e);
    case InventoryService => InventoryRowsPaid(w.s, e);
    case PaymentService => PaymentRowsPaid(w.s, e);
    case NotificationService =>
  }

  /** The arithmetic of a delivery: the acknowledged copy pays for the rows, and faults have their allowance. */
  lemma DeliveryPays(c: Copy, committed: bool, answer: Answer, rows: int, rows': int, load: int, load': int)
    requires c.stage == Main
    requires rows' <= rows + (if committed then Work(c.dest, c.event.kind) else 0)
    requires answer == Ack ==> committed && load' + CopyCost(c) == load
    requires answer == Reject ==> load' + 1 <= load
    requires answer == Requeue || answer == DeadLetterCrash ==> load' == load
    ensures rows' + load' + 1 <= rows + load + Allowance(Consume(c, committed, answer))
  {
  }

  lemma ConsumePays(w: World, c: Copy, committed: bool, answer: Answer)
    requires Inv(w) && Enabled(w.s, Consume(c, committed, answer))
    ensures Potential(Step(w.s, Consume(c, committed, answer))) + 1
          <= Potential(w.s) + Allowance(Consume(c, committed, answer))
  {
    var s1 := if committed then Handled(w.s, c.dest, c.event).db else w.s;
    var flight := Answered(w.s.flight, c, answer);
    assert CopyOk(w.s, c);
    LoadAfterAnswer(w.s.flight, c, answer);
    if committed {
      RowsPaid(w, c.dest, c.event);
    }
    assert w.s.(flight := w.s.flight) == w.s;
    DeliveryPays(c, committed, answer, RowsTotal(w.s), RowsTotal(s1), Load(w.s.flight), Load(flight));
  }

  lemma StepPays(w: World, l: Label)
    requires Inv(w) && BatchesOpen(w.s) && Enabled(w.s, l)
    ensures Potential(Step(w.s, l)) + 1 <= Potential(w.s) + Allowance(l)
  {
    match l
    case Place(r, key) => PlacePays(w, r, key);
    case SetStock(_, _) =>
    case Send(svc, id) => SendPays(w.s, svc, id);
    case Mark(svc, id) => MarkPays(w.s, svc, id);
    case Abort(svc, id) => AbortPays(w.s, svc, id);
    case Consume(c, committed, answer) => ConsumePays(w, c, committed, answer);
    case Expire(c) => ExpirePays(w.s, c);
  }

  lemma HandlingKeepsUnpublished(w: World, dest: Service, e: Event, svc: Service, id: EventId)
    requires RowsOk(w) && Handled(w.s, dest, e).Ok? && Unpublished(w.s, svc, id)
    ensures Unpublished(Handled(w.s, dest, e).db, svc, id)
  {
    if id in OutboxOf(Handled(w.s, dest, e).db, svc) {
      CounterNotInOutbox(w, w.s.next);
      CounterNotInOutbox(w, w.s.next + IDS_PER_EVENT);
      HandledKeepsRows(w.s, dest, e, svc, id);
      HandlerKeepsBroker(w.s, dest, e);
    }
  }

  lemma PlaceKeepsUnpublished(s: State, r: Request, key: string, svc: Service, id: EventId)
    requires Admissible(r) && Unpublished(s, svc, id)
    ensures Unpublished(Step(s, Place(r, key)), svc, id)
  {
  }

  lemma SendKeepsUnpublished(s: State, source: Service, sent: EventId, svc: Service, id: EventId)
    requires Enabled(s, Send(source, sent)) && Unpublished(s, svc, id) && Apart(s, id)
    ensures Unpublished(Step(s, Send(source, sent)), svc, id)
  {
  }

  lemma OtherStepsKeepUnpublished(s: State, l: Label, svc: Service, id: EventId)
    requires Enabled(s, l) && !(l.Consume? && l.committed) && Unpublished(s, svc, id) && Apart(s, id)
    ensures Unpublished(Step(s, l), svc, id)
  {
    match l
    case Mark(source, marked) =>
    case Place(r, key) => PlaceKeepsUnpublished(s, r, key, svc, id);
    case Send(source, sent) => SendKeepsUnpublished(s, source, sent, svc, id);
    case _ =>
  }

  lemma StepKeepsBatchesOpen(w: World, l: Label)
    requires Inv(w) && BatchesOpen(w.s) && Enabled(w.s, l)
    ensures BatchesOpen(Step(w.s, l))
  {
    var s' := Step(w.s, l);
    forall svc, id ensures Unpublished(s', svc, id) {
      assert Unpublished(w.s, svc, id) && Apart(w.s, id);
      if l.Consume? && l.committed {
        HandlingKeepsUnpublished(w, l.copy.dest, l.copy.event, svc, id);
      } else {
        OtherStepsKeepUnpublished(w.s, l, svc, id);
      }
    }
  }

  // ----- the bound -----

  function Allowances(ls: seq<Label>): nat {
    if ls == [] then 0 else Allowance(ls[0]) + Allowances(ls[1..])
  }

  lemma {:induction false} PotentialIsNonNegative(s: State)
    ensures Potential(s) >= 0
  {
    SumNonNegative(RowCosts(s.orders.outbox, s.sent));
    SumNonNegative(RowCosts(s.inventory.outbox, s.sent));
    SumNonNegative(RowCosts(s.payments.outbox, s.sent));
  }

  lemma {:induction false} RunIsPaid(w: World, ls: seq<Label>)
    requires Inv(w) && BatchesOpen(w.s) && IsRun(w, ls)
    ensures |ls| + Potential(Exec(w, ls).s) <= Potential(w.s) + Allowances(ls)
    decreases |ls|
  {
    if ls != [] {
      StepPays(w, ls[0]);
      StepKeepsInvariant(w, ls[0]);
      StepKeepsBatchesOpen(w, ls[0]);
      RunIsPaid(After(w, ls[0]), ls[1..]);
    }
  }

  function Count(ls: seq<Label>, p: Label -> bool): nat {
    if ls == [] then 0 else (if p(ls[0]) then 1 else 0) + Count(ls[1..], p)
  }

  predicate IsPlace(l: Label) {
    l.Place?
  }

  predicate IsReset(l: Label) {
    l.SetStock?
  }

  lemma {:induction false} AllowancesByKind(ls: seq<Label>)
    ensures Allowances(ls) == PER_ORDER * Count(ls, IsPlace) + Count(ls, IsReset) + PER_FAULT * Count(ls, Fault)
  {
    if ls != [] {
      AllowancesByKind(ls[1..]);
    }
  }

  /** Every run is bounded by the orders placed, the resets made and the faults suffered in it: without
      faults, an order comes to rest within 55 steps, whatever the interleaving. */
  lemma RunsAreBounded(ls: seq<Label>)
    requires IsRun(START, ls)
    ensures |ls| <= PER_ORDER * Count(ls, IsPlace) + Count(ls, IsReset) + PER_FAULT * Count(ls, Fault)
  {
    StartHolds();
    assert Potential(INIT) == 0;
    RunIsPaid(START, ls);
    PotentialIsNonNegative(Reached(ls).s);
    AllowancesByKind(ls);
  }
}
