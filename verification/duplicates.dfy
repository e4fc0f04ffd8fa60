/** What any sequence of deliveries to one service does, duplicates and failures included. */
module Duplicates {
  import opened Events
  import Orders
  import Inventory
  import Payments
  import Notifications

  type Handler<!D> = (D, Event, Id) -> Tx<D>

  /** A database and the next unused identifier. */
  datatype Store<D> = Store(db: D, next: Id)

  /** One delivery: a transaction that raises leaves everything as it was. */
  function Deliver<D>(h: Handler<D>, s: Store<D>, e: Event): Store<D> {
    match h(s.db, e, s.next)
    case Ok(db, next) => Store(db, next)
    case Raised => s
  }

  function DeliverAll<D>(h: Handler<D>, s: Store<D>, es: seq<Event>): Store<D>
    decreases |es|
  {
    if es == [] then s else DeliverAll(h, Deliver(h, s, es[0]), es[1..])
  }

  /** The deliveries without those of an event that succeeded before; `done` are the ids that have succeeded.
      Deliveries that raise stay, however often they do. */
  function WithoutRepeats<D>(h: Handler<D>, s: Store<D>, es: seq<Event>, done: set<EventId>): seq<Event>
    decreases |es|
  {
    if es == [] then []
    else if es[0].id in done then WithoutRepeats(h, s, es[1..], done)
    else
      [es[0]] + WithoutRepeats(h, Deliver(h, s, es[0]), es[1..],
                               if h(s.db, es[0], s.next).Ok? then done + {es[0].id} else done)
  }

  /** How a handler records its events: `seen` ones are skipped, and success makes just that event seen. */
  ghost predicate RecordsOne<D>(h: Handler<D>, seen: (D, EventId) -> bool, db: D, e: Event, next: Id) {
    && (seen(db, e.id) ==> h(db, e, next) == Ok(db, next))
    && match h(db, e, next)
       case Ok(db', _) => forall id {:trigger seen(db', id)} :: seen(db', id) <==> seen(db, id) || id == e.id
       case Raised => true
  }

  ghost predicate Records<D(!new)>(h: Handler<D>, seen: (D, EventId) -> bool) {
    forall db: D, e: Event, next: Id {:trigger RecordsOne(h, seen, db, e, next)} :: RecordsOne(h, seen, db, e, next)
  }

  lemma {:induction false} RepeatsErased<D(!new)>(h: Handler<D>, seen: (D, EventId) -> bool, s: Store<D>,
      es: seq<Event>, done: set<EventId>)
    requires Records(h, seen)
    requires forall id {:trigger seen(s.db, id)} :: id in done ==> seen(s.db, id)
    ensures DeliverAll(h, s, es) == DeliverAll(h, s, WithoutRepeats(h, s, es, done))
    decreases |es|
  {
    if es != [] {
      var e := es[0];
      assert RecordsOne(h, seen, s.db, e, s.next);
      if e.id in done {
        assert Deliver(h, s, e) == s;
        RepeatsErased(h, seen, s, es[1..], done);
      } else {
        var s' := Deliver(h, s, e);
        var done' := if h(s.db, e, s.next).Ok? then done + {e.id} else done;
        RepeatsErased(h, seen, s', es[1..], done');
        var rest := WithoutRepeats(h, s', es[1..], done');
        assert ([e] + rest)[1..] == rest;
      }
    }
  }

  lemma {:induction false} DoneIsSkipped<D>(h: Handler<D>, s: Store<D>, es: seq<Event>, done: set<EventId>)
    ensures forall e {:trigger e in WithoutRepeats(h, s, es, done)} :: e in WithoutRepeats(h, s, es, done) ==>
          e.id !in done && e in es
    decreases |es|
  {
    if es != [] {
      if es[0].id in done {
        DoneIsSkipped(h, s, es[1..], done);
      } else {
        DoneIsSkipped(h, Deliver(h, s, es[0]), es[1..], if h(s.db, es[0], s.next).Ok? then done + {es[0].id} else done);
      }
    }
  }

  /** In what is left, no event succeeds twice: a delivery that succeeds is the last one with its id. */
  lemma {:induction false} NoRepeatIsLeft<D>(h: Handler<D>, s: Store<D>, es: seq<Event>, done: set<EventId>, j: nat,
      k: nat)
    requires var left := WithoutRepeats(h, s, es, done);
             j < k < |left| && left[j].id == left[k].id
    ensures var left := WithoutRepeats(h, s, es, done);
            var before := DeliverAll(h, s, left[..j]);
            h(before.db, left[j], before.next).Raised?
    decreases |es|
  {
    var e := es[0];
    if e.id in done {
      NoRepeatIsLeft(h, s, es[1..], done, j, k);
    } else {
      var s' := Deliver(h, s, e);
      var done' := if h(s.db, e, s.next).Ok? then done + {e.id} else done;
      var rest := WithoutRepeats(h, s', es[1..], done');
      var left := WithoutRepeats(h, s, es, done);
      assert left == [e] + rest;
      if j > 0 {
        NoRepeatIsLeft(h, s', es[1..], done', j - 1, k - 1);
        assert left[..j] == [e] + rest[..j - 1];
        assert left[..j][1..] == rest[..j - 1];
      } else {
        DoneIsSkipped(h, s', es[1..], done');
        assert left[k] in rest;
      }
    }
  }

  /** The deliveries that succeed. */
  function WithoutFailures<D>(h: Handler<D>, s: Store<D>, es: seq<Event>): seq<Event>
    decreases |es|
  {
    if es == [] then []
    else if h(s.db, es[0], s.next).Raised? then WithoutFailures(h, s, es[1..])
    else [es[0]] + WithoutFailures(h, Deliver(h, s, es[0]), es[1..])
  }

  /** A delivery that raises leaves no trace: without them all, everything ends the same. */
  lemma {:induction false} FailuresErased<D>(h: Handler<D>, s: Store<D>, es: seq<Event>)
    ensures DeliverAll(h, s, es) == DeliverAll(h, s, WithoutFailures(h, s, es))
    decreases |es|
  {
    if es != [] {
      FailuresErased(h, Deliver(h, s, es[0]), es[1..]);
      if h(s.db, es[0], s.next).Ok? {
        assert WithoutFailures(h, s, es)[1..] == WithoutFailures(h, Deliver(h, s, es[0]), es[1..]);
      }
    }
  }

  lemma OrdersRecord()
    ensures Records(Orders.Handle, (db: Orders.OrderDb, id) => id in db.processed)
  {
  }

  lemma InventoryRecords()
    ensures Records(Inventory.Handle, (db: Inventory.InventoryDb, id) => id in db.processed)
  {
  }

  lemma PaymentsRecord()
    ensures Records(Payments.Handle, (db: Payments.PaymentDb, id) => id in db.processed)
  {
  }

  lemma NotificationsRecord()
    ensures Records(Notifications.Handle, (db: Notifications.NotificationDb, id) => id in db)
  {
  }

  /** Every service ends with the same database, outbox and identifiers if all repeats are erased. */
  lemma DuplicateErasure(
    orders: Store<Orders.OrderDb>, inventory: Store<Inventory.InventoryDb>,
    payments: Store<Payments.PaymentDb>, notifications: Store<Notifications.NotificationDb>, es: seq<Event>)
    ensures DeliverAll(Orders.Handle, orders, es)
         == DeliverAll(Orders.Handle, orders, WithoutRepeats(Orders.Handle, orders, es, {}))
    ensures DeliverAll(Inventory.Handle, inventory, es)
         == DeliverAll(Inventory.Handle, inventory, WithoutRepeats(Inventory.Handle, inventory, es, {}))
    ensures DeliverAll(Payments.Handle, payments, es)
         == DeliverAll(Payments.Handle, payments, WithoutRepeats(Payments.Handle, payments, es, {}))
    ensures DeliverAll(Notifications.Handle, notifications, es)
         == DeliverAll(Notifications.Handle, notifications, WithoutRepeats(Notifications.Handle, notifications, es, {}))
  {
    OrdersRecord();
    RepeatsErased(Orders.Handle, (db: Orders.OrderDb, id) => id in db.processed, orders, es, {});
    InventoryRecords();
    RepeatsErased(Inventory.Handle, (db: Inventory.InventoryDb, id) => id in db.processed, inventory, es, {});
    PaymentsRecord();
    RepeatsErased(Payments.Handle, (db: Payments.PaymentDb, id) => id in db.processed, payments, es, {});
    NotificationsRecord();
    RepeatsErased(Notifications.Handle, (db: Notifications.NotificationDb, id) => id in db, notifications, es, {});
  }
}
