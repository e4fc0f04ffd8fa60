/** The event envelope, its payload and the outbox row that carries it to the broker.

    Identifiers are version 4 UUIDs in the program. Here they are drawn from one counter, which
    keeps the only thing the program relies on: a new identifier was never used before. */
module Events {

  type Id = nat
  type OrderId = Id
  type EventId = Id

  datatype Option<+T> = None | Some(value: T) {
    function GetOr(default: T): T {
      match this
      case Some(v) => v
      case None => default
    }
  }

  datatype EventType =
    | OrderCreated | OrderCompleted | OrderFailed
    | InventoryReserved | InventoryRejected
    | InventoryCommit | InventoryRelease
    | InventoryCommitted | InventoryReleased
    | PaymentSucceeded | PaymentFailed
    | Other(name: string)

  /** A JSON payload. `None` stands for a key that is missing or whose value cannot be converted. */
  datatype Payload = Payload(
    orderId: Option<OrderId>,
    itemId: Option<string>,
    quantity: Option<int>,
    customerId: Option<string>,
    amountCents: Option<int>,
    reason: Option<string>,
    reservationStatus: Option<string>,
    providerReference: Option<Id>)

  datatype Event = Event(
    id: EventId,
    kind: EventType,
    aggregate: OrderId,
    correlation: Option<Id>,
    payload: Payload)

  /** `payload.get("order_id") or event["aggregate_id"]` */
  function OrderIdOf(e: Event): OrderId {
    e.payload.orderId.GetOr(e.aggregate)
  }

  /** Every event takes two identifiers from the counter: its own, and a correlation identifier
      for the case that the caller passes none. */
  const IDS_PER_EVENT: nat := 2

  function CreateEvent(kind: EventType, aggregate: OrderId, payload: Payload, correlation: Option<Id>,
      unused: Id): Event {
    Event(unused, kind, aggregate, Some(correlation.GetOr(unused + 1)), payload)
  }

  /** A correlation that is passed on is kept; only without one does the event get a fresh one, its own. */
  lemma CorrelationIsKept(kind: EventType, aggregate: OrderId, payload: Payload, correlation: Option<Id>, unused: Id)
    ensures var e := CreateEvent(kind, aggregate, payload, correlation, unused);
            && e.id == unused && e.kind == kind && e.aggregate == aggregate && e.payload == payload
            && (correlation.Some? ==> e.correlation == correlation)
            && (correlation.None? ==> e.correlation.Some? && unused < e.correlation.value < unused + IDS_PER_EVENT)
  {
  }

  /** A row of an `outbox_events` table. The routing key is always the event type. */
  datatype Row = Row(event: Event, attempts: nat, published: bool)

  type Outbox = map<EventId, Row>

  function AddOutbox(outbox: Outbox, e: Event): Outbox {
    outbox[e.id := Row(e, 0, false)]
  }

  /** What a publisher writes to a row that it has sent. */
  function MarkRow(row: Row): Row {
    row.(published := true, attempts := row.attempts + 1)
  }

  /** How a handler's transaction ends: committed, with the next unused identifier, or raised and rolled back. */
  datatype Tx<+D> = Ok(db: D, next: Id) | Raised
}
