# ResilientCart: a verified model of the checkout Saga

ResilientCart is a shop checkout made of four services (order, inventory, payment, notification), each with
its own database and a transactional outbox, and a RabbitMQ broker between them. An order is created, stock is
reserved for it, its payment is tried, and it is completed or compensated, by events alone: no service calls
another. Events are delivered at least once and in no particular order, and processes may die anywhere.

This project models that Saga in Dafny and proves what it keeps in every run, what all services agree on when
it comes to rest, that it always can come to rest, and that it refines a checkout ledger which one process
could keep atomically. `dafny verify dfyconfig.toml` checks the whole project.

## How the model is laid out

| files | what they hold |
|---|---|
| `events`, `sums` | the event envelope and outbox rows; finite sums over tables |
| `state_machine`, `orders`, `inventory`, `payments`, `notifications` | one service each: its tables, its handler as a function from (database, event, unused identifier) to a transaction, and a class with the service's fields whose methods change them in place and are proved to compute that function |
| `effects` | the handlers' decision tables, written out down to the rows and fields without the model's own constructors |
| `ledger` | stock conservation for the inventory service alone |
| `delivery` | the retry and dead-letter queues of one consumer |
| `outbox`, `publishers` | the publisher's batch loop; many publishers with `skip_locked` |
| `saga` | the whole system as a state machine: place, set stock, send, mark, abort, consume, expire |
| `history`, `invariant`, `handling`, `steps` | each order's auxiliary record, the inductive invariant, and the proof that every step keeps it |
| `agreement`, `requests`, `stock_runs`, `sufficient_stock`, `contention` | what follows for reachable and for quiescent states |
| `refinement`, `termination`, `completion` | the atomic ledger; the bound on runs; that every run can be finished |
| `inventory_sessions`, `inventory_concurrency`, `inventory_histories`, `inventory_serial`, `saga_discipline` | the inventory service's handlers and resets split into reads, locks and commits, and interleaved; their strict serializability; that the Saga meets what it asks for |
| `payment_sessions`, `order_sessions` | the same for the payment and the order service |
| `creation_races` | `create_order` split into its reads and its commit |
| `undisturbed` | each of these split operations, and the publisher's batch, run without interference |
| `duplicates`, `lifecycle`, `arrivals` | a service on its own, fed any sequence of deliveries, and the order service fed any events of the Saga |

Each handler exists once, as a function; the classes, the Saga and the sequences of deliveries all use it.

## What the model assumes

- Identifiers are version 4 UUIDs (section 5.4 of RFC 9562). The model draws them from one counter, which keeps
  the one thing the services rely on: a new identifier was never used. An outbox row is identified by its event,
  and is stored under the event's identifier.
- The broker loses nothing that it has accepted, and every queue is declared before the first message is
  published (messages are published with `mandatory=False`, which drops what no queue is bound for). RabbitMQ
  counts dead-letterings in `x-death` per (queue, reason) and moves the entry it counted to the front.
- A handler's transaction is atomic in the Saga. For the notification service nothing else is possible: its one
  row is keyed by the event. For the payment service it is proved of competing consumers in `payment_sessions`.
  For the inventory service `inventory_serial` proves from its row locks and primary keys that every interleaving is
  strictly serializable, for events as the Saga emits them (`saga_discipline`). One kind of commit is not atomic when
  it happens: an order for an item whose row is inserted while its handler runs may still be rejected as
  `item_not_found`. In the serial order it comes just before that insertion, which is still within its session.
  For the order service it is an assumption: one consumer runs its handlers one by one. `order_sessions` shows what goes
  wrong otherwise: the order row is read without a lock, so a second consumer can take an order out of
  COMPLETED. `deploy/k8s/hpa.yaml` allows more than one.
- Rows leave an outbox in any order in the Saga: each is sent, and then marked or, if its batch is rolled back,
  left as it was. A batch that commits is several marks in a row. That is more behaviour than the publishers
  have; `outbox` and `publishers` model the batches themselves.
- A stock reset may come at any time. It deletes the item's reservations, so statements about an order's
  reservation carry a flag `erased` that tells whether that happened to it; `stock_runs` states them without
  the flag for items that are stocked before they are ordered and not reset afterwards.
- The Saga's consumers allow 3 retries, which is what every service starts its consumer with; `delivery` and the
  attempts of one copy in `completion` are for any number. The bound of 55 steps per order counts with 3.
- The record of an order's past in `history` names the events that were emitted for it. No step depends on it.
- The request schema admits only quantities and amounts of at least 1; that is the only precondition on requests.
- `str.lower()` is modelled for ASCII letters, which is exact for a comparison with an ASCII suffix: no other
  character turns into one of its letters on its own.

## What turned out

- Agreement, refinement and termination hold for every run, with any number of duplicates, reorderings,
  crashes, aborted batches and resets.
- A reachable state can be brought to rest exactly if nothing was dead-lettered. No handler ever raises on an
  event of the Saga, so only a failing database or a crash can dead-letter a copy.
- An inventory commit is atomic exactly if the reads that no lock protects are still true. `RejectionCanBeStale`
  is a run in which they are not; every run is strictly serializable all the same.
- The order in which an order's events arrive is irrelevant exactly if their types do not conflict, and the
  events that the Saga emits never do.

## Model

| member | source | states |
|---|---|---|
| Orders.OrderStore.CreateOrder | app/order_service/service.py:29-79 | A known key returns its order and changes nothing; a new key stores a PENDING order with exactly the request's customer, item, quantity and amount under that key and in the index, together with its `order.created` row. Equal to the specification function that the races and the Saga use. |
| Orders.OrderStore.HandleDomainEvent | app/order_service/service.py:82-166 | The statements in their order compute the handler's transaction; an unknown order raises and leaves everything as it was. |
| Inventory.InventoryStore.SetStock | app/inventory_service/service.py:32-48 | The item starts over with the given quantity, and of an existing item every reservation is deleted. |
| Inventory.InventoryStore.HandleDomainEvent | app/inventory_service/service.py:51-140 | The updates in place compute the handler's transaction; a raise leaves item, reservation, outbox and processed rows untouched. |
| Payments.PaymentStore.HandleDomainEvent | app/payment_service/service.py:31-96 | At most one payment row per order, its result event and the processed mark in one transaction; an incomplete payload raises and rolls back. |
| Notifications.NotificationStore.HandleDomainEvent | app/notification_service/service.py:11-36 | One notification per event id, of the kind that the event type asks for, with the message that quotes the order and the reason, and the documented defaults. |
| Payments.DeclinedExactlyForTheSuffix | app/payment_service/service.py:27-28 | A payment is declined if and only if the amount is not positive or the customer's last five characters spell "-fail" in any case. |
| Events.CorrelationIsKept | app/common/events.py:10-26 | An event keeps the correlation it is given; only without one does it get a fresh one. |
| Effects.OrderCreation | app/order_service/service.py:40-66 | For a new key: every field of the stored order and of its `order.created` row. |
| Effects.OrderRepeat | app/order_service/service.py:83-90 | A repeat changes nothing; an order that does not exist raises, and nothing else does. |
| Effects.OrderUnmoved | app/order_service/state_machine.py:12-29 | Exactly which events leave an order as it is and are only recorded. |
| Effects.OrderReserved | app/order_service/service.py:97-99 | `inventory.reserved` on a PENDING order changes status and reason and emits nothing. |
| Effects.OrderRejected | app/order_service/service.py:152-163 | A rejection: every field of the order and of its `order.failed` row, with the default reason. |
| Effects.OrderPaid | app/order_service/service.py:101-126 | A payment: every field of the order and of its `inventory.commit` and `order.completed` rows. |
| Effects.OrderDeclined | app/order_service/service.py:128-150 | A decline: every field of the order and of its `inventory.release` and `order.failed` rows, with the default reason. |
| Effects.StockReserved | app/inventory_service/service.py:72-94 | A granted request: both tables and the forwarded `inventory.reserved`. |
| Effects.StockRefused | app/inventory_service/service.py:95-104 | A refused one, malformed quantities included: tables unchanged, and the reason is `item_not_found` if and only if the item is not there. |
| Effects.StockSettled | app/inventory_service/service.py:106-137 | Commit and release: which column gains the units, the reservation's new status, and the matching outcome event. |
| Effects.StockUnmoved | app/inventory_service/service.py:61-63 | Which events change nothing but the processed ids. |
| Effects.StockRepeat | app/inventory_service/service.py:52-54 | A repeat changes nothing; exactly which events raise. |
| Effects.StockReset | app/inventory_service/service.py:38-45 | Exactly the reset item's reservations go, and nothing else but the item row changes. |
| Effects.PaymentMade | app/payment_service/service.py:71-91 | An accepted payment: every field of the payment and of `payment.succeeded`, which carries its provider reference. |
| Effects.PaymentDeclined | app/payment_service/service.py:53-70 | A declined one: every field of the payment and of `payment.failed`. |
| Effects.PaymentUnmoved | app/payment_service/service.py:32-42 | A repeat changes nothing, a paid order is only recorded, and exactly which events raise. |
| Effects.NotificationStored | app/notification_service/service.py:16-36 | The stored notification word by word, with the defaults for what the event does not say. |
| Effects.NotificationRepeat | app/notification_service/service.py:12-14 | A repeat changes nothing. |
| Ledger.HandleConserves | app/inventory_service/service.py:51-140 | No event, well formed or not, unbalances the columns against the reservation table or creates or destroys a unit. |
| Ledger.ResetKeepsBalance | app/inventory_service/service.py:32-48 | A reset leaves the ledger balanced, with exactly the quantity set. |
| Ledger.ConservationAndNoOversell | app/inventory_service/service.py:72-126 | After any sequence of resets and events: no column is negative, reserved and sold are the sums over RESERVED and COMMITTED rows, and the three add up to the quantity last set. |
| Ledger.SettlingNeverRaises | app/inventory_service/service.py:112-116 | The `scalar_one()` on a reservation's item never fails, in any run. |
| Delivery.ReliableConsumer.OnMessage | app/common/messaging.py:192-241 | What success, a failure with retries left and a failure without do to the three queues, for any `max_retries`, with the error recorded on a dead letter; a consumer that dies before its answer leaves the message in the main queue, and one that dies between the dead-letter publish and the ack leaves it in both. |
| Delivery.ReliableConsumer.CountRejections | app/common/messaging.py:184-190 | The loop over the `x-death` entries computes the retry count. |
| Delivery.ReliableConsumer.Expire | app/common/messaging.py:162-175 | A message comes back from the retry queue as the same event with the same number of failures on record: only its count of expiries has grown, whatever else its header holds. |
| Delivery.ReliableConsumer.ConsumeFailing | app/common/messaging.py:192-241 | For any `max_retries`, a message whose handler fails every time is handed to it exactly `max_retries` + 1 times, less the failures it has on record, and then is the one message added to the dead-letter queue, with all other messages where they were. |
| Delivery.DeadLetteredCountsOne | app/common/messaging.py:147-175 | One dead-lettering adds one to the tally of its own (queue, reason) pair and to no other. |
| Delivery.RetryCountIsExact | app/common/messaging.py:184-190 | After any sequence of hops through any queues, the consumer reads exactly the number of its own earlier rejections. |
| Delivery.HeadersAreGrouped | app/common/messaging.py:184-190 | The header has one entry for each queue and reason, however often the message has left by it. |
| Saga.QueuesAreDistinct | app/common/messaging.py:134-137 | The services' main and retry queues all have different names, so that no failure is counted for another queue. |
| Saga.OneCopyEach | app/common/messaging.py:155-160 | A sent event makes one new copy in the main queue of each bound service and no other. |
| Saga.RolledBackRowIsUnsent | app/common/outbox.py:66-70 | Sending a row and rolling back its batch has delivered it and changed nothing else. |
| Saga.MarkedRowIsPublished | app/common/outbox.py:58-64 | A marked row is published for good, with one more attempt, and is not sent or marked again. |
| Completion.PersistentFailure | app/common/messaging.py:214-241 | The same of the copies of the Saga: for any `max_retries`, a copy that always fails is delivered exactly that often before it is dead-lettered. |
| Completion.NoPrematureDeadLetter | app/common/messaging.py:225-241 | In every run, crashes included: no copy is dead-lettered with fewer rejections than max_retries, and no copy has more. |
| Publisher.PendingIsExact | app/common/outbox.py:45-51 | The selected rows are exactly the unpublished and unlocked ones, each once, oldest first. |
| Publisher.OutboxPublisher.PublishBatch | app/common/outbox.py:42-73 | Without trouble it sends and marks exactly the oldest batch, each row once, and returns its size; with an error at any row or at the commit no mark changes, it returns 0, and what was sent is a prefix of the batch of a stated length. |
| Publisher.BatchInWords | app/common/outbox.py:45-70 | What that comes to: a success publishes min(batch size, pending) rows, and fewer than the batch size only if nothing is left; the oldest ones are marked, with one more attempt, and no other row changes; whatever happens, the broker gets at most a batch size of events, those of the oldest rows in order. |
| Publisher.BatchesDrain | app/common/outbox.py:45-65 | What a batch sends and what it leaves pending make up what was pending, in order; marking the rest gives the same table as marking all; an empty batch means that nothing is pending. |
| Publisher.OutboxPublisher.RunUntilIdle | app/common/outbox.py:36-40 | Repeated undisturbed batches end, and have then sent every pending event once, in order, and marked every row once. |
| Publishers.BatchIsAvailable | app/common/outbox.py:45-51 | The batch that the select statement picks is one that the concurrent model allows. |
| Publishers.StepKeepsValid | app/common/outbox.py:43-73 | Every step of every publisher keeps: rows held are disjoint, and each acceptance by the broker is accounted for by a mark, an open batch or a rolled back one. |
| Publishers.NoRowIsLost | app/common/outbox.py:43-73 | For any number of publishers and at any time: no row that is committed then, from before or appended meanwhile, is later lost or changed but by its mark. |
| Publishers.TableGrowsByAppends | app/common/outbox.py:43-73 | The table is its first rows and the appended ones, in order, whatever the publishers do. |
| Publishers.SentTwiceOnlyAfterRollback | app/common/outbox.py:43-73 | A row is held by at most one publisher, a marked row was accepted and has `attempts` 1, and a row goes out again only after a batch that had sent it was rolled back. |
| Publishers.EachRowOnce | app/common/outbox.py:43-65 | Without rollbacks the broker has each row exactly once when all is sent. |
| Publishers.CommitIsAtomicBatch | app/common/outbox.py:45-65 | When a batch commits, its rows could still be selected, and each was accepted once for it. |
| Undisturbed.BatchAlone | app/common/outbox.py:43-65 | A publisher that nobody disturbs can take its batch, send it and commit, and has then done what `publish_batch` does: marked and sent each row once. |
| Steps.StepKeepsInvariant | app/order_service/service.py:82-166 | The inductive invariant over four databases, outboxes and queues is kept by every step: creation, reset, send, mark, abort, delivery with or without commit and with every kind of answer, expiry. |
| Steps.ReachableHolds | app/order_service/service.py:29-166 | It holds in every state that a run from the empty system reaches. |
| Handling.HandlingKeepsCore | app/inventory_service/service.py:51-140 | Every handler commits on every event that the Saga emitted, and keeps the part of the invariant about the databases. |
| Handling.HandledTwice | app/inventory_service/service.py:52-54 | An event that a service has processed changes nothing when it is delivered again. |
| Steps.SendKeepsTransport | app/common/outbox.py:56-57 | Sending a row, once or again, loses no copy: each bound queue has one for every accepted event it has not processed. |
| Steps.ConsumeKeepsTransport | app/common/messaging.py:192-241 | No answer to a delivery, and no crash before one, loses a copy. |
| Agreement.HandlersNeverRaise | app/order_service/service.py:87-90 | In every reachable state every queued event can be handled: the missing-order error is unreachable. |
| Agreement.NoEventIsLost | app/common/messaging.py:200-241 | A published event is, for each bound service, processed or still in one of its queues. |
| Agreement.EventsAgreeWithOrders | app/order_service/service.py:53-163 | Field by field, for every event in any outbox of a reachable state: its correlation is its order's; its payload has the order's id, and item, quantity, customer and amount equal to the order's where its type carries them and none where not; its reason is the order's, or the one for its type; a `payment.succeeded` names the payment's provider reference; and its type agrees with the status of order and payment. |
| Agreement.CopiesAgreeWithOrders | app/payment_service/service.py:48-90 | The same for every copy in any main, retry or dead-letter queue. |
| Agreement.HeldUntilDecided | app/order_service/service.py:101-150 | A reservation that was not reset away is RESERVED until its order is terminal; a SUCCEEDED payment's is never RELEASED and a FAILED payment's never COMMITTED; payments exist only for granted reservations, with a provider reference or the decline reason as they ended; an order has a reason if and only if it failed, and which. |
| Agreement.NoStrayRows | app/payment_service/main.py:60 | Reservations and payments belong to orders. |
| Agreement.NotificationsAgree | app/notification_service/service.py:11-36 | Every notification tells its order's terminal status to its customer: "Order … was completed successfully." if it was, "Order … failed: …." with the order's reason if not; and no order has two. |
| Requests.PlacedAtOnce | app/order_service/service.py:34-71 | Placing an order under a new key stores the request's four fields; under a known key it changes nothing. |
| Requests.PlacedAsRequested | app/order_service/service.py:42-52 | Whatever happens before and after: the order keeps the request's customer, item, quantity and amount under its key, its payment is over that amount and by that customer, and its reservation is for that item and quantity. |
| Agreement.QuiescentAgreement | app/order_service/service.py:97-166 | With every row published and every queue empty: every order is terminal and has a notification; COMPLETED and SUCCEEDED coincide, so do PAYMENT_FAILED and FAILED, and REJECTED is the absence of a payment. For orders whose reservation no reset has deleted, COMMITTED, RELEASED and no reservation coincide with them too. Every item has reserved 0, and sold is the quantity of its COMPLETED orders except those that a reset has wiped from the books. |
| StockRuns.AgreementWithoutResets | app/inventory_service/service.py:61-140 | For an item that is not reset once it is stocked, without any exception: full agreement on each of its orders, and for every stock level available is the stock less the COMPLETED quantities, reserved is 0 and sold is the COMPLETED quantities. |
| SufficientStock.EnoughStockMeansNoRejection | app/inventory_service/service.py:72-82 | If the stock covers all that is ordered, no interleaving rejects an order. |
| SufficientStock.OutcomeIsDetermined | app/payment_service/service.py:51-91 | Then every quiescent state is the same function of the requests: PAYMENT_FAILED exactly for declined customers, and the stock less the accepted quantities. |
| SufficientStock.InterleavingsAgree | app/inventory_service/service.py:72-104 | Two interleavings of the same requests end with the same statuses, payments and stock, order by order. |
| Contention.ExactContention | scripts/contention_test.py:79-86 | N accepted one-unit orders on S units: exactly min(N, S) complete, the others are rejected, and the stock is S - min(N, S) available, 0 reserved, min(N, S) sold. |
| Refinement.StepRefines | app/inventory_service/service.py:51-140 | Every step of the Saga is a stutter or exactly one allowed move of an atomic checkout ledger, in which units are held if and only if they are free, sold if and only if the payment is accepted and returned if and only if it is declined. |
| Refinement.RunRefines | app/order_service/service.py:82-166 | So every run of the Saga is a run of the ledger, ending in the state that the Saga's state stands for. |
| Termination.StepPays | app/common/messaging.py:214-241 | Every step lowers a weighted count of unpublished rows, queued copies and retries left, but for what a new order, a reset or a fault adds to it. |
| Termination.RunsAreBounded | app/common/outbox.py:42-70 | No run is longer than 55 steps per order placed, 1 per reset and 54 per fault. A fault is a crash or a false answer at one delivery, or the rollback of one sent row: a batch that is rolled back counts once for each row it had sent. |
| Completion.SomethingToDo | app/common/messaging.py:200-213 | While a row is unpublished or a queue is not empty, and nothing was dead-lettered, some ordinary step is possible. |
| Completion.EveryRunCanFinish | app/order_service/service.py:97-166 | From every reachable state, ordinary steps alone lead to rest if and only if no copy was dead-lettered; otherwise no run ever does. |
| InventoryConcurrency.StepKeepsSound | app/inventory_service/service.py:66-82 | What a session has read under a row lock stays true until it ends, and the ledger stays balanced, whatever step any session takes. |
| InventoryConcurrency.LedgerHoldsUnderInterleaving | app/inventory_service/service.py:32-48 | In every interleaving of handlers and resets the columns agree with the reservation table and none is negative. |
| InventoryConcurrency.AtMostOnce | app/inventory_service/service.py:52-54 | However many sessions handle copies of one event, even past the unlocked reads, it takes effect exactly once if it is processed in the end and never otherwise. |
| InventoryConcurrency.LocksAreReleased | app/inventory_service/service.py:66-139 | No row lock outlives the session that took it or is held by one that does not need it: who waits, waits for a session under way. |
| InventoryConcurrency.RepeatsAreSkipped | app/inventory_service/service.py:52-54 | A repeat that arrives after its event was processed ends at its first read, without a lock or a write. |
| Undisturbed.HandlerAlone | app/inventory_service/service.py:51-140 | A handler split into reads, locks and commit that runs alone ends within four steps with nothing locked, and has done exactly what the undivided handler does, or nothing if that raises. |
| Undisturbed.ResetAlone | app/inventory_service/service.py:32-48 | So does a reset. |
| InventoryConcurrency.AtomicIffUnlockedReadsHold | app/inventory_service/service.py:61-140 | A successful commit does what the handler alone would do at that moment if and only if its unlocked reads still hold. |
| InventoryConcurrency.RejectionCanBeStale | app/inventory_service/service.py:65-93 | There is a run from the empty database whose commit is not atomic: the item is stocked after the handler looked for it. |
| InventoryConcurrency.DisciplinedCommitIsAtomic | app/inventory_service/service.py:61-140 | If each order has one `order.created` event and commits and releases follow it, a successful commit is atomic if and only if it is not a rejection for an item that has been stocked since. |
| InventoryConcurrency.CommitsAreAtomic | app/inventory_service/service.py:61-140 | In every interleaving of such handlers and resets, every successful commit is atomic or rejects an order whose item row it did not find. |
| InventoryHistories.RejectionMovesBack | app/inventory_service/service.py:85-104 | The rejection of an order for a missing item commutes with any operations on other events, handlers and resets alike. |
| InventoryHistories.StaleRejectionIsEarlier | app/inventory_service/service.py:85-104 | So a stale rejection, however many commits have followed the insertion, leaves what the atomic handler leaves when it runs just before the item is stocked. |
| InventorySerial.StrictlySerializable | app/inventory_service/service.py:32-140 | Every interleaving of such handlers and resets ends in exactly the database that one sequence of atomic handlers and resets leaves: one for each successful commit, with the identifier it drew, and none before one that had ended when it started. |
| SagaDiscipline.QueuedEventsAreExpected | app/order_service/service.py:97-150 | Every copy that the Saga has for the inventory service, in any reachable state, is such an event: its order's one `order.created`, or a commit or release that follows it. |
| SagaDiscipline.ReservationsAreGranted | app/inventory_service/service.py:72-90 | Every reservation in a reachable state was made for a processed `order.created` of its order. |
| SagaDiscipline.CreatedEventsAreFixed | app/order_service/service.py:53-66 | That event never changes in a run. |
| SagaDiscipline.SagaStartsDisciplined | app/inventory_service/service.py:51-82 | So the results about interleavings apply to any sessions that start on the inventory database of a reachable state, on its queued copies or on resets. |
| PaymentSessions.PaymentCommitsAreAtomic | app/payment_service/service.py:31-96 | With any number of consumers, a payment commit that succeeds is the handler run alone at that moment. |
| PaymentSessions.ChargedAtMostOnce | app/payment_service/models.py:16 | No order is charged twice in any interleaving, and a payment never changes. |
| PaymentSessions.RepeatsAreSkipped | app/payment_service/service.py:32-34 | A repeat that arrives after its event was processed never gets as far as asking for a payment. |
| Undisturbed.PaymentAlone | app/payment_service/service.py:31-96 | A payment handler that runs alone does exactly what the undivided one does. |
| OrderSessions.AtomicIffReadStillDecides | app/order_service/service.py:88-99 | Exactly when a commit after an unlocked read of the order is still the atomic handler. |
| OrderSessions.UndisturbedReadIsAtomic | app/order_service/main.py:75 | It is whenever the row is as it was read, as with one consumer. |
| OrderSessions.OnlyOneCommits | app/order_service/models.py:53 | Of two handlers of one event, whatever they have read, only the first to commit takes effect. |
| OrderSessions.TerminalStatusCanBeLost | app/order_service/service.py:88-99 | With two consumers, in any database and for any PENDING order: `inventory.reserved`, read before `payment.succeeded` is handled and committed after it, takes the order out of COMPLETED with its `inventory.commit` already in the outbox. |
| CreationRaces.OneOrderPerKey | app/order_service/service.py:34-79 | For any interleaving of creations, split at the first read and the commit: a key has at most one order with exactly one `order.created` row, every caller that got an answer got that order, and none gets the integrity error. |
| CreationRaces.ExactlyOneCreates | app/order_service/service.py:65-79 | In every run, with callers and servers dying anywhere: a new key that has an order in the end was inserted exactly once and by exactly one caller, who was told so or was cut off after the insertion; nobody else is told so. |
| CreationRaces.KnownKeysAreReplayed | app/order_service/service.py:34-38 | For a key that was known before, every caller who gets an answer gets the key's order from its first read, as not created, and nobody tries to insert one. |
| Undisturbed.CallerAlone | app/order_service/service.py:29-79 | A caller who is alone gets what the undivided `create_order` gives. |
| Undisturbed.LoserGetsTheOrder | app/order_service/service.py:72-79 | A caller whose commit fails on the unique index gets the order that won, as not created. |
| Duplicates.RepeatsErased | app/order_service/service.py:82-86 | For any handler that records its events: erasing all deliveries after an event's first success leaves the same database, outbox and identifiers; deliveries that raised before it stay. |
| Duplicates.NoRepeatIsLeft | app/inventory_service/service.py:52-54 | After the erasure no delivery that succeeds is followed by another of the same event. |
| Duplicates.FailuresErased | app/inventory_service/main.py:41-49 | Deliveries that raise leave no trace: without them all, everything ends the same. |
| Duplicates.DuplicateErasure | app/payment_service/service.py:32-42 | The erasure theorem for each of the four services. |
| Lifecycle.DeliveryFollowsTransitions | app/order_service/service.py:92-99 | A delivery moves its order as the transition table says unless it is a repeat, and no other order. |
| Lifecycle.TransitionsClimb | app/order_service/state_machine.py:12-29 | Every status change climbs from PENDING over INVENTORY_RESERVED to a terminal status, and starts from none. |
| Lifecycle.AtMostTwoChanges | app/order_service/state_machine.py:12-29 | Under any sequence of deliveries a status changes at most twice and never leaves a terminal status. |
| Lifecycle.ExclusiveOutcome | app/order_service/service.py:101-163 | At most one of `inventory.commit` and `inventory.release` is ever emitted for an order, and exactly one of `order.completed` and `order.failed` if and only if it is terminal. |
| Lifecycle.NewOrderHasOneOutcome | app/order_service/service.py:29-166 | The same for every freshly created order, whatever is delivered afterwards. |
| Lifecycle.StatusFollowsKinds | app/order_service/service.py:82-99 | Duplicates are harmless: the final status is that of the bare sequence of event types. |
| Lifecycle.VerdictReached | app/order_service/state_machine.py:21-29 | Without conflicting types the final status depends only on which types arrived. |
| Lifecycle.OrderOfArrivalIsIrrelevant | app/order_service/state_machine.py:12-29 | All permutations of the types lead to the same status if and only if none conflict. |
| Lifecycle.PermutedAndDuplicated | app/order_service/service.py:92-99 | The same events in any order and any number, without conflict, give the same final status; a payment result may overtake `inventory.reserved`. |
| Arrivals.ArrivalNeverDecides | app/order_service/service.py:92-163 | Given any events that the Saga emitted, in any order and number, a new order gets the status that their types alone decide. |

## Left out

- Gateway, FastAPI endpoints, Pydantic parsing and HTML: request plumbing; only the lower bounds of the request schema are kept.
- The upper bounds of the request schema and the column widths: no property needs them.
- pika connections, reconnect loops and `stop`: the broker is a multiset of copies in main, retry and dead-letter queues.
- SQLAlchemy and PostgreSQL internals: the model has atomic commit and rollback, row locks, a fresh read under a lock, and primary and unique keys checked at commit.
- Deadlocks between `set_stock` and the handlers, which lock in different orders: an aborted transaction is a failed delivery or a lost call.
- Order-service handlers under several consumers: `order_sessions` shows that the guarantees do not hold there, and the Saga has one consumer.
- Reliable delivery when a queue is not declared yet, and messages that the broker itself loses.
- Envelopes without `event_id`, `event_type` or `aggregate_id`, and JSON values of unexpected types: a payload field is there with a value of its type, or missing, and a JSON `null` counts as missing.
- Timestamps other than the creation order of outbox rows, `PAYMENT_DELAY_MS`, tracing, metrics and logging.
- Termination.RunsAreBounded: charges a rolled-back batch for each row it had sent, because a batch in the Saga is a set of sent rows and its size is not fixed.
- Real-time liveness and fairness: `RunsAreBounded` and `EveryRunCanFinish` stand in for it.
- Kubernetes, Compose, load scripts and dashboards.
