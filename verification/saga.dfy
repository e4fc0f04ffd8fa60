/** The checkout Saga: four service databases, their outboxes, and a broker that loses nothing but may
    deliver any copy late, out of order, or more than once. */
module Saga {
  import opened Events
  import Orders
  import Inventory
  import Payments
  import Notifications
  import opened Delivery

  datatype Service = OrderService | InventoryService | PaymentService | NotificationService

  function QueueName(svc: Service): string {
    match svc
    case OrderService => "order-service-events"
    case InventoryService => "inventory-service-events"
    case PaymentService => "payment-service-events"
    case NotificationService => "notification-service-events"
  }

  /** The binding list of each service's queue. */
  predicate Bound(svc: Service, kind: EventType) {
    match svc
    case OrderService =>
      kind.InventoryReserved? || kind.InventoryRejected? || kind.PaymentSucceeded? || kind.PaymentFailed?
    case InventoryService => kind.OrderCreated? || kind.InventoryRelease? || kind.InventoryCommit?
    case PaymentService => kind.InventoryReserved?
    case NotificationService => kind.OrderCompleted? || kind.OrderFailed?
  }

  /** What every service's consumer is started with. */
  const MAX_RETRIES: nat := 3

  datatype Copy = Copy(dest: Service, event: Event, stage: Stage, headers: Headers)

  /** `sent` holds the outbox rows that a publisher has sent in a batch that has not ended yet. */
  datatype State = State(
    orders: Orders.OrderDb,
    inventory: Inventory.InventoryDb,
    payments: Payments.PaymentDb,
    notes: Notifications.NotificationDb,
    flight: multiset<Copy>,
    sent: set<EventId>,
    next: Id)

  const INIT := State(Orders.EMPTY, Inventory.EMPTY, Payments.EMPTY, Notifications.EMPTY, multiset{}, {}, 0)

  function OutboxOf(s: State, svc: Service): Outbox {
    match svc
    case OrderService => s.orders.outbox
    case InventoryService => s.inventory.outbox
    case PaymentService => s.payments.outbox
    case NotificationService => map[]
  }

  function WithOutbox(s: State, svc: Service, outbox: Outbox): State {
    match svc
    case OrderService => s.(orders := s.orders.(outbox := outbox))
    case InventoryService => s.(inventory := s.inventory.(outbox := outbox))
    case PaymentService => s.(payments := s.payments.(outbox := outbox))
    case NotificationService => s
  }

  /** The event ids that a service will not process again. */
  function Done(s: State, svc: Service): set<EventId> {
    match svc
    case OrderService => s.orders.processed
    case InventoryService => s.inventory.processed
    case PaymentService => s.payments.processed
    case NotificationService => s.notes.Keys
  }

  function CopyFor(svc: Service, e: Event): multiset<Copy> {
    if Bound(svc, e.kind) then multiset{Copy(svc, e, Main, [])} else multiset{}
  }

  /** What the topic exchange does with one accepted message. */
  function Fanout(e: Event): multiset<Copy> {
    CopyFor(OrderService, e) + CopyFor(InventoryService, e)
    + CopyFor(PaymentService, e) + CopyFor(NotificationService, e)
  }

  /** The transaction of a service's handler. */
  function Handled(s: State, dest: Service, e: Event): Tx<State> {
    match dest
    case OrderService =>
      (match Orders.Handle(s.orders, e, s.next)
       case Ok(db, next) => Ok(s.(orders := db, next := next), next)
       case Raised => Raised)
    case InventoryService =>
      (match Inventory.Handle(s.inventory, e, s.next)
       case Ok(db, next) => Ok(s.(inventory := db, next := next), next)
       case Raised => Raised)
    case PaymentService =>
      (match Payments.Handle(s.payments, e, s.next)
       case Ok(db, next) => Ok(s.(payments := db, next := next), next)
       case Raised => Raised)
    case NotificationService =>
      (match Notifications.Handle(s.notes, e, s.next)
       case Ok(db, next) => Ok(s.(notes := db, next := next), next)
       case Raised => Raised)
  }

  /** How a delivery ends at the broker. `Requeue` is a consumer that dies before it answers, and
      `DeadLetterCrash` one that dies between publishing to the dead-letter exchange and the ack. */
  datatype Answer = Ack | Requeue | Reject | DeadLetterCrash

  function Rejected(c: Copy, maxRetries: nat): Copy {
    var rest := AfterReject(c.headers, QueueName(c.dest), maxRetries);
    c.(stage := rest.stage, headers := rest.headers)
  }

  function Expired(c: Copy): Copy {
    var rest := AfterExpiry(c.headers, QueueName(c.dest));
    c.(stage := rest.stage, headers := rest.headers)
  }

  function Answered(flight: multiset<Copy>, c: Copy, answer: Answer): multiset<Copy> {
    match answer
    case Ack => flight - multiset{c}
    case Requeue => flight
    case Reject => flight - multiset{c} + multiset{Rejected(c, MAX_RETRIES)}
    case DeadLetterCrash => flight + multiset{c.(stage := Dead)}
  }

  datatype Label =
    | Place(request: Orders.Request, key: string)
    | SetStock(itemId: string, quantity: nat)
    /** the broker accepted a row of an open batch */
    | Send(source: Service, id: EventId)
    /** the batch of a sent row committed */
    | Mark(source: Service, id: EventId)
    /** the batch of a sent row was rolled back, or its publisher died */
    | Abort(source: Service, id: EventId)
    /** a delivery: whether the handler's transaction committed, and what the broker was told */
    | Consume(copy: Copy, committed: bool, answer: Answer)
    /** the retry delay of a rejected copy has passed */
    | Expire(copy: Copy)

  predicate Enabled(s: State, l: Label) {
    match l
    case Place(r, _) => Orders.Admissible(r)
    case SetStock(_, _) => true
    case Send(svc, id) => id in OutboxOf(s, svc) && !OutboxOf(s, svc)[id].published && id !in s.sent
    case Mark(svc, id) => id in OutboxOf(s, svc) && id in s.sent
    case Abort(svc, id) => id in OutboxOf(s, svc) && id in s.sent
    case Consume(c, committed, answer) =>
      && c in s.flight && c.stage == Main
      && (committed ==> Handled(s, c.dest, c.event).Ok?)
      && (answer == Ack ==> committed)
      && (answer == DeadLetterCrash ==> Exhausted(c.headers, QueueName(c.dest), MAX_RETRIES))
    case Expire(c) => c in s.flight && c.stage == Retry
  }

  function Placed(s: State, r: Orders.Request, key: string): State {
    var c := Orders.Create(s.orders, r, key, s.next);
    s.(orders := c.db, next := c.next)
  }

  function Marked(s: State, svc: Service, id: EventId): State
    requires id in OutboxOf(s, svc)
  {
    WithOutbox(s, svc, OutboxOf(s, svc)[id := MarkRow(OutboxOf(s, svc)[id])])
  }

  function Step(s: State, l: Label): State
    requires Enabled(s, l)
  {
    match l
    case Place(r, key) => Placed(s, r, key)
    case SetStock(itemId, quantity) => s.(inventory := Inventory.WithStock(s.inventory, itemId, quantity))
    case Send(svc, id) => s.(flight := s.flight + Fanout(OutboxOf(s, svc)[id].event), sent := s.sent + {id})
    case Mark(svc, id) => Marked(s, svc, id).(sent := s.sent - {id})
    case Abort(svc, id) => s.(sent := s.sent - {id})
    case Consume(c, committed, answer) =>
      var s' := if committed then Handled(s, c.dest, c.event).db else s;
      s'.(flight := Answered(s.flight, c, answer))
    case Expire(c) => s.(flight := s.flight - multiset{c} + multiset{Expired(c)})
  }

  lemma NamesAreDistinct(a: Service, b: Service)
    ensures QueueName(a) == QueueName(b) <==> a == b
  {
    assert QueueName(a)[0] == QueueName(b)[0] ==> a == b;
  }

  lemma RetryNamesEndInY(a: Service, b: Service)
    ensures RetryQueue(QueueName(a)) != QueueName(b)
  {
    var name := QueueName(a);
    assert RetryQueue(name)[|name| + 5] == 'y' && |RetryQueue(name)| == |name| + 6;
    assert QueueName(b)[|QueueName(b)| - 1] == 's';
  }

  /** No two of the eight queues that the services read from or wait in have the same name, so that no failure is
      ever counted for another queue. */
  lemma QueuesAreDistinct(a: Service, b: Service)
    ensures QueueName(a) == QueueName(b) <==> a == b
    ensures RetryQueue(QueueName(a)) != QueueName(b)
    ensures RetryQueue(QueueName(a)) == RetryQueue(QueueName(b)) ==> a == b
  {
    NamesAreDistinct(a, b);
    RetryNamesEndInY(a, b);
    var x, y := QueueName(a), QueueName(b);
    if RetryQueue(x) == RetryQueue(y) {
      assert |x| == |y|;
      assert RetryQueue(x)[..|x|] == x && RetryQueue(y)[..|y|] == y;
    }
  }

  /** Every bound queue gets one new copy, and no other queue gets any. */
  lemma OneCopyEach(e: Event, c: Copy)
    ensures Fanout(e)[c] == if c == Copy(c.dest, e, Main, []) && Bound(c.dest, e.kind) then 1 else 0
  {
    assert CopyFor(c.dest, e)[c] == if c == Copy(c.dest, e, Main, []) && Bound(c.dest, e.kind) then 1 else 0;
    assert forall svc :: svc != c.dest ==> CopyFor(svc, e)[c] == 0;
  }

  /** A batch that is rolled back has done nothing but deliver its row, which will be sent again. */
  lemma RolledBackRowIsUnsent(s: State, svc: Service, id: EventId)
    requires Enabled(s, Send(svc, id))
    ensures var sent := Step(s, Send(svc, id));
            && !Enabled(sent, Send(svc, id)) && Enabled(sent, Abort(svc, id))
            && Step(sent, Abort(svc, id)) == s.(flight := s.flight + Fanout(OutboxOf(s, svc)[id].event))
  {
    assert s.sent + {id} - {id} == s.sent;
  }

  /** One that commits has published the row besides, and for good. */
  lemma MarkedRowIsPublished(s: State, svc: Service, id: EventId)
    requires Enabled(s, Mark(svc, id))
    ensures var marked, row := Step(s, Mark(svc, id)), OutboxOf(s, svc)[id];
            && OutboxOf(marked, svc) == OutboxOf(s, svc)[id := Row(row.event, row.attempts + 1, true)]
            && marked.flight == s.flight && marked.sent == s.sent - {id}
            && !Enabled(marked, Send(svc, id)) && !Enabled(marked, Mark(svc, id))
  {
  }
}
