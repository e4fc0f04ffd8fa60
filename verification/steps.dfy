/** Every step of the Saga keeps the invariant. */
module Steps {
  import opened Events
  import opened Orders
  import opened Ledger
  import opened Delivery
  import opened Saga
  import opened History
  import opened Invariant
  import opened Handling

  // ----- a new order -----

  lemma PlaceLeavesOrder(w: World, r: Request, key: string, o: OrderId)
    requires Unused(w.s, w.s.next + 2) && Admissible(r) && key !in w.s.orders.keys
    requires o in w.s.orders.orders && o in w.h && o != w.s.next && OrderOk(w.s, o, w.h[o])
    ensures var w' := After(w, Place(r, key));
            o in w'.h && o in w'.s.orders.orders && OrderOk(w'.s, o, w'.h[o])
  {
    UndisturbedOrder(w.s, After(w, Place(r, key)).s, o, w.h[o]);
  }

  lemma PlaceKeepsRows(w: World, r: Request, key: string)
    requires RowsOk(w) && Admissible(r) && key !in w.s.orders.keys
    ensures RowsOk(After(w, Place(r, key)))
  {
    var w' := After(w, Place(r, key));
    forall svc, id | id in OutboxOf(w'.s, svc) ensures RowOk(w', svc, id) {
      assert id in OutboxOf(w.s, svc) ==> RowOk(w, svc, id);
    }
  }

  lemma PlaceKeepsKnownOrders(w: World, r: Request, key: string)
    requires KnownOrders(w) && Admissible(r) && key !in w.s.orders.keys
    ensures KnownOrders(After(w, Place(r, key)))
  {
    var w' := After(w, Place(r, key));
    forall o | o in w'.h || o in w'.s.orders.orders || o in w'.s.inventory.reservations || o in w'.s.payments.payments
      ensures KnownOrder(w', o)
    {
      assert o != w.s.next ==> KnownOrder(w, o);
    }
    assert !KnownOrder(w, w.s.next);
    forall o | o in w'.s.orders.orders ensures KeyOk(w'.s.orders, o) {
      assert o != w.s.next ==> KeyOk(w.s.orders, o);
    }
    forall id | id in w'.s.notes ensures NoteKnown(w', id) {
      assert NoteKnown(w, id);
      var o :| FinalOf(w, id, o);
      assert KnownOrder(w, o);
      assert FinalOf(w', id, o);
    }
  }

  lemma PlaceKeepsIds(w: World, r: Request, key: string)
    requires IdsOk(w.s) && RowsOk(w) && Admissible(r) && key !in w.s.orders.keys
    ensures IdsOk(After(w, Place(r, key)).s)
  {
    var s' := After(w, Place(r, key)).s;
    CounterNotInOutbox(w, w.s.next + 2);
    assert w.s.next + 2 !in OutboxOf(w.s, InventoryService) && w.s.next + 2 !in OutboxOf(w.s, PaymentService);
    forall id ensures Apart(s', id) { assert Apart(w.s, id); }
    forall svc, id | id in Done(s', svc) ensures Old(s', id) {
      assert id in Done(w.s, svc);
      assert Old(w.s, id);
    }
    forall id | id in s'.sent ensures Old(s', id) { assert Old(w.s, id); }
  }

  lemma PlaceKeepsCore(w: World, r: Request, key: string)
    requires Core(w) && Admissible(r)
    ensures Core(After(w, Place(r, key)))
  {
    if key !in w.s.orders.keys {
      var w' := After(w, Place(r, key));
      CounterIsUnused(w, w.s.next);
      CounterIsUnused(w, w.s.next + 2);
      assert !KnownOrder(w, w.s.next);
      forall o | o in w'.h && o in w'.s.orders.orders ensures OrderOk(w'.s, o, w'.h[o]) {
        if o != w.s.next {
          assert KnownOrder(w, o);
          assert OrderOk(w.s, o, w.h[o]);
          PlaceLeavesOrder(w, r, key, o);
        }
      }
      PlaceKeepsRows(w, r, key);
      PlaceKeepsKnownOrders(w, r, key);
      PlaceKeepsIds(w, r, key);
    }
  }

  // ----- a stock reset -----

  lemma ResetLeavesOrder(w: World, itemId: string, quantity: nat, o: OrderId)
    requires o in w.s.orders.orders && o in w.h && OrderOk(w.s, o, w.h[o])
    ensures var w' := After(w, SetStock(itemId, quantity));
            o in w'.h && o in w'.s.orders.orders && OrderOk(w'.s, o, w'.h[o])
  {
  }

  lemma ResetKeepsRow(w: World, itemId: string, quantity: nat, svc: Service, id: EventId)
    requires id in OutboxOf(w.s, svc) && RowOk(w, svc, id)
    ensures RowOk(After(w, SetStock(itemId, quantity)), svc, id)
  {
  }

  lemma ResetKeepsCore(w: World, itemId: string, quantity: nat)
    requires Core(w)
    ensures Core(After(w, SetStock(itemId, quantity)))
  {
    var w' := After(w, SetStock(itemId, quantity));
    forall o | o in w'.h && o in w'.s.orders.orders ensures OrderOk(w'.s, o, w'.h[o]) {
      assert OrderOk(w.s, o, w.h[o]);
      ResetLeavesOrder(w, itemId, quantity, o);
    }
    forall svc, id | id in OutboxOf(w'.s, svc) ensures RowOk(w', svc, id) {
      assert id in OutboxOf(w.s, svc) && RowOk(w, svc, id);
      ResetKeepsRow(w, itemId, quantity, svc, id);
    }
    ResetKeepsKnownOrders(w, itemId, quantity);
    SameIds(w.s, w'.s);
    ResetKeepsBalance(w.s.inventory, itemId, quantity);
  }

  lemma ResetKeepsKnownOrders(w: World, itemId: string, quantity: nat)
    requires KnownOrders(w)
    ensures KnownOrders(After(w, SetStock(itemId, quantity)))
  {
    var w' := After(w, SetStock(itemId, quantity));
    forall o | o in w'.h || o in w'.s.orders.orders || o in w'.s.inventory.reservations || o in w'.s.payments.payments
      ensures KnownOrder(w', o)
    {
      assert KnownOrder(w, o);
    }
    forall o | o in w'.s.orders.orders ensures KeyOk(w'.s.orders, o) {
      assert KeyOk(w.s.orders, o);
    }
    forall id | id in w'.s.notes ensures NoteKnown(w', id) {
      assert NoteKnown(w, id);
      var o :| FinalOf(w, id, o);
      assert FinalOf(w', id, o);
    }
  }

  /** Identifiers depend on the outboxes, the processed events and the counter only. */
  lemma SameIds(s: State, s': State)
    requires IdsOk(s) && s'.next == s.next
    requires forall svc :: Done(s', svc) == Done(s, svc)
    requires s'.orders.outbox.Keys == s.orders.outbox.Keys && s'.inventory.outbox.Keys == s.inventory.outbox.Keys
    requires s'.payments.outbox.Keys == s.payments.outbox.Keys
    requires forall id :: id in s'.sent && id !in s.sent ==> id < s.next
    ensures IdsOk(s')
  {
    forall id ensures Apart(s', id) { assert Apart(s, id); }
    forall svc, id | id in Done(s', svc) ensures Old(s', id) {
      assert id in Done(s, svc);
      assert Old(s, id);
    }
    forall id | id in s'.sent ensures Old(s', id) {
      assert id in s.sent ==> Old(s, id);
    }
  }

  // ----- broker and publisher steps: the tables stay as they are, but for the marks on rows -----

  ghost predicate SameTables(s: State, s': State) {
    && s'.orders == s.orders.(outbox := s'.orders.outbox)
    && s'.inventory == s.inventory.(outbox := s'.inventory.outbox)
    && s'.payments == s.payments.(outbox := s'.payments.outbox)
    && s'.notes == s.notes && s'.next == s.next
    && (forall svc {:trigger SameRows(s, s', svc)} :: SameRows(s, s', svc))
    && (forall id :: id in s'.sent && id !in s.sent ==> id < s.next)
  }

  predicate SameRows(s: State, s': State, svc: Service) {
    && Extends(OutboxOf(s, svc), OutboxOf(s', svc))
    && OutboxOf(s, svc).Keys == OutboxOf(s', svc).Keys
  }

  lemma SameTablesOrder(s: State, s': State, o: OrderId, t: Trace)
    requires SameTables(s, s') && o in s.orders.orders && OrderOk(s, o, t)
    ensures o in s'.orders.orders && OrderOk(s', o, t)
  {
    assert SameRows(s, s', OrderService) && SameRows(s, s', InventoryService) && SameRows(s, s', PaymentService);
    UndisturbedOrder(s, s', o, t);
  }

  lemma SameTablesKeepCore(w: World, s': State)
    requires Core(w) && SameTables(w.s, s')
    ensures Core(World(s', w.h))
  {
    var w' := World(s', w.h);
    assert SameRows(w.s, s', OrderService) && SameRows(w.s, s', InventoryService) && SameRows(w.s, s', PaymentService);
    forall o | o in w'.h && o in w'.s.orders.orders ensures OrderOk(w'.s, o, w'.h[o]) {
      assert OrderOk(w.s, o, w.h[o]);
      SameTablesOrder(w.s, s', o, w.h[o]);
    }
    forall svc, id | id in OutboxOf(w'.s, svc) ensures RowOk(w', svc, id) {
      assert SameRows(w.s, s', svc);
      assert RowOk(w, svc, id);
    }
    SameTablesKeepKnownOrders(w, s');
    SameIds(w.s, s');
    SameTablesConserve(w.s.inventory, s'.inventory);
  }

  lemma SameTablesKeepKnownOrders(w: World, s': State)
    requires KnownOrders(w) && SameTables(w.s, s')
    ensures KnownOrders(World(s', w.h))
  {
    var w' := World(s', w.h);
    forall o | o in w'.h || o in w'.s.orders.orders || o in w'.s.inventory.reservations || o in w'.s.payments.payments
      ensures KnownOrder(w', o)
    {
      assert KnownOrder(w, o);
    }
    forall o | o in w'.s.orders.orders ensures KeyOk(w'.s.orders, o) {
      assert KeyOk(w.s.orders, o);
    }
    forall id | id in w'.s.notes ensures NoteKnown(w', id) {
      assert NoteKnown(w, id);
      var o :| FinalOf(w, id, o);
      assert FinalOf(w', id, o);
    }
  }

  /** A label that changes at most marks, batches and copies. */
  predicate AtBroker(l: Label) {
    l.Send? || l.Mark? || l.Abort? || l.Expire? || (l.Consume? && !l.committed)
  }

  lemma MarkKeepsTables(s: State, svc: Service, id: EventId)
    requires Enabled(s, Mark(svc, id))
    ensures SameTables(s, Step(s, Mark(svc, id)))
  {
  }

  lemma BrokerStepKeepsTables(s: State, l: Label)
    requires Enabled(s, l) && AtBroker(l) && (l.Send? ==> l.id < s.next)
    ensures SameTables(s, Step(s, l))
  {
    if l.Mark? {
      MarkKeepsTables(s, l.source, l.id);
    }
  }

  lemma BrokerStepKeepsCore(w: World, l: Label)
    requires Core(w) && Enabled(w.s, l) && AtBroker(l)
    ensures Core(After(w, l))
  {
    if l.Send? {
      assert RowOk(w, l.source, l.id);
    }
    BrokerStepKeepsTables(w.s, l);
    SameTablesKeepCore(w, Step(w.s, l));
  }

  lemma AnswerKeepsTables(s: State, flight: multiset<Copy>)
    ensures SameTables(s, s.(flight := flight))
  {
  }

  lemma HandlingStepKeepsCore(w: World, c: Copy, answer: Answer)
    requires Core(w) && CopyOk(w.s, c) && Enabled(w.s, Consume(c, true, answer))
    ensures Core(After(w, Consume(c, true, answer)))
  {
    HandlingKeepsCore(w, c.dest, c.event);
    var w1 := World(Handled(w.s, c.dest, c.event).db, TracesAfterHandling(w, c.dest, c.event));
    AnswerKeepsTables(w1.s, Answered(w.s.flight, c, answer));
    SameTablesKeepCore(w1, w1.s.(flight := Answered(w.s.flight, c, answer)));
  }

  lemma StepKeepsCore(w: World, l: Label)
    requires Inv(w) && Enabled(w.s, l)
    ensures Core(After(w, l))
  {
    if AtBroker(l) {
      BrokerStepKeepsCore(w, l);
    } else {
      match l
      case Place(r, key) => PlaceKeepsCore(w, r, key);
      case SetStock(itemId, quantity) => ResetKeepsCore(w, itemId, quantity);
      case Consume(c, committed, answer) =>
        assert CopyOk(w.s, c);
        HandlingStepKeepsCore(w, c, answer);
    }
  }

  // ----- delivery -----

  /** Progress of the broker: nothing accounted for is forgotten, and no new copy is made up. */
  ghost predicate CarriesOn(s: State, s': State) {
    && (forall svc, id {:trigger Accounted(s', svc, id)} :: Accounted(s, svc, id) ==> Accounted(s', svc, id))
    && (forall c {:trigger CopyOk(s', c)} :: c in s'.flight ==> CopyOk(s', c))
  }

  /** The rows are those of before, with the same marks, or they are new and unsent. */
  predicate RowMarkKept(s: State, s': State, source: Service, id: EventId)
    requires id in OutboxOf(s', source)
  {
    var row := OutboxOf(s', source)[id];
    (id in OutboxOf(s, source) && OutboxOf(s, source)[id].event == row.event
     && (row.published || id in s'.sent ==> OutboxOf(s, source)[id].published || id in s.sent))
    || !(row.published || id in s'.sent)
  }

  lemma DeliveryKept(s: State, s': State, source: Service, id: EventId)
    requires CarriesOn(s, s') && id in OutboxOf(s', source) && RowMarkKept(s, s', source, id)
    requires id in OutboxOf(s, source) ==> DeliveryOk(s, source, id)
    ensures DeliveryOk(s', source, id)
  {
    if OutboxOf(s', source)[id].published || id in s'.sent {
      forall svc | Bound(svc, OutboxOf(s', source)[id].event.kind) ensures Accounted(s', svc, id) {
        assert Accounted(s, svc, id);
      }
    }
  }

  lemma TransportKept(s: State, s': State)
    requires Transport(s) && CarriesOn(s, s')
    requires forall source, id {:trigger RowMarkKept(s, s', source, id)} :: id in OutboxOf(s', source) ==>
          RowMarkKept(s, s', source, id)
    ensures Transport(s')
  {
    forall source, id | id in OutboxOf(s', source) ensures DeliveryOk(s', source, id) {
      assert RowMarkKept(s, s', source, id);
      assert id in OutboxOf(s, source) ==> DeliveryOk(s, source, id);
      DeliveryKept(s, s', source, id);
    }
  }

  /** One copy is replaced by another of the same event for the same queue, or dropped because the event is done. */
  lemma FlightKept(s: State, s': State, c: Copy)
    requires Transport(s) && c in s.flight
    requires forall svc, id {:trigger id in Done(s', svc)} :: id in Done(s, svc) ==> id in Done(s', svc)
    requires forall svc {:trigger OutboxOf(s', svc)} :: Extends(OutboxOf(s, svc), OutboxOf(s', svc))
    requires forall x :: x in s.flight && x != c ==> x in s'.flight
    requires c.event.id in Done(s', c.dest) || exists x :: x in s'.flight && x.dest == c.dest && x.event == c.event
    requires forall x :: x in s'.flight ==> x in s.flight || (x.dest == c.dest && x.event == c.event)
    ensures CarriesOn(s, s')
  {
    forall svc, id | Accounted(s, svc, id) ensures Accounted(s', svc, id) {
      if id !in Done(s, svc) {
        var x :| IsCopy(s, svc, id, x);
        if x != c {
          assert IsCopy(s', svc, id, x);
        } else if c.event.id !in Done(s', c.dest) {
          var y :| y in s'.flight && y.dest == c.dest && y.event == c.event;
          assert IsCopy(s', svc, id, y);
        }
      }
    }
    forall x | x in s'.flight ensures CopyOk(s', x) {
      assert CopyOk(s, c);
      assert x in s.flight ==> CopyOk(s, x);
    }
  }

  lemma HandledIsDone(s: State, svc: Service, e: Event)
    requires Handled(s, svc, e).Ok?
    ensures e.id in Done(Handled(s, svc, e).db, svc)
    ensures forall from, id {:trigger id in Done(Handled(s, svc, e).db, from)} :: id in Done(s, from) ==>
          id in Done(Handled(s, svc, e).db, from)
  {
  }

  /** A handler adds rows that are not published and leaves the others exactly as they were. */
  lemma HandledKeepsRows(s: State, svc: Service, e: Event, source: Service, id: EventId)
    requires Handled(s, svc, e).Ok? && id in OutboxOf(Handled(s, svc, e).db, source)
    requires s.next !in OutboxOf(s, source) && s.next + IDS_PER_EVENT !in OutboxOf(s, source)
    ensures id in OutboxOf(s, source) ==> OutboxOf(Handled(s, svc, e).db, source)[id] == OutboxOf(s, source)[id]
    ensures id !in OutboxOf(s, source) ==> !OutboxOf(Handled(s, svc, e).db, source)[id].published && id >= s.next
  {
  }

  /** Nothing at the broker changes, and the tables only grow. */
  lemma SameFlight(s: State, s': State)
    requires Transport(s) && s'.flight == s.flight
    requires forall svc, id {:trigger id in Done(s', svc)} :: id in Done(s, svc) ==> id in Done(s', svc)
    requires forall svc {:trigger OutboxOf(s', svc)} :: Extends(OutboxOf(s, svc), OutboxOf(s', svc))
    ensures CarriesOn(s, s')
  {
    forall svc, id | Accounted(s, svc, id) ensures Accounted(s', svc, id) {
      if id !in Done(s, svc) {
        var x :| IsCopy(s, svc, id, x);
        assert IsCopy(s', svc, id, x);
      }
    }
    forall x | x in s'.flight ensures CopyOk(s', x) {
      assert CopyOk(s, x);
    }
  }

  lemma PlaceKeepsTransport(w: World, r: Request, key: string)
    requires Inv(w) && Admissible(r)
    ensures Transport(After(w, Place(r, key)).s)
  {
    var s, s' := w.s, After(w, Place(r, key)).s;
    if key !in s.orders.keys {
      CounterNotInOutbox(w, s.next + 2);
      assert s.next + 2 !in OutboxOf(s, OrderService);
      assert !Old(s, s.next + 2);
      SameFlight(s, s');
      forall source, id | id in OutboxOf(s', source) ensures RowMarkKept(s, s', source, id) {
      }
      TransportKept(s, s');
    }
  }

  lemma ResetKeepsTransport(s: State, itemId: string, quantity: nat)
    requires Transport(s)
    ensures Transport(Step(s, SetStock(itemId, quantity)))
  {
    var s' := Step(s, SetStock(itemId, quantity));
    SameFlight(s, s');
    TransportKept(s, s');
  }

  lemma MarkKeepsTransport(s: State, svc: Service, id: EventId)
    requires Transport(s) && Enabled(s, Mark(svc, id))
    ensures Transport(Step(s, Mark(svc, id)))
  {
    var s' := Step(s, Mark(svc, id));
    MarkKeepsTables(s, svc, id);
    forall from ensures Extends(OutboxOf(s, from), OutboxOf(s', from)) && Done(s', from) == Done(s, from) {
      assert SameRows(s, s', from);
    }
    SameFlight(s, s');
    forall source, x | x in OutboxOf(s', source) ensures RowMarkKept(s, s', source, x) {
    }
    TransportKept(s, s');
  }

  lemma AbortKeepsTransport(s: State, svc: Service, id: EventId)
    requires Transport(s) && Enabled(s, Abort(svc, id))
    ensures Transport(Step(s, Abort(svc, id)))
  {
    var s' := Step(s, Abort(svc, id));
    SameFlight(s, s');
    TransportKept(s, s');
  }

  lemma FanoutReaches(e: Event, svc: Service)
    requires Bound(svc, e.kind)
    ensures Copy(svc, e, Main, []) in Fanout(e)
  {
  }

  lemma FanoutIsBound(e: Event, c: Copy)
    requires c in Fanout(e)
    ensures c.event == e && Bound(c.dest, e.kind)
  {
  }

  lemma SendCarriesOn(s: State, svc: Service, id: EventId)
    requires Transport(s) && Enabled(s, Send(svc, id))
    requires Emitted(s, OutboxOf(s, svc)[id].event)
    ensures CarriesOn(s, Step(s, Send(svc, id)))
  {
    var s' := Step(s, Send(svc, id));
    forall q, x | Accounted(s, q, x) ensures Accounted(s', q, x) {
      if x !in Done(s, q) {
        var c :| IsCopy(s, q, x, c);
        assert IsCopy(s', q, x, c);
      }
    }
    forall c | c in s'.flight ensures CopyOk(s', c) {
      if c in s.flight {
        assert CopyOk(s, c);
      } else {
        FanoutIsBound(OutboxOf(s, svc)[id].event, c);
      }
    }
  }

  lemma SendKeepsTransport(w: World, svc: Service, id: EventId)
    requires Inv(w) && Enabled(w.s, Send(svc, id))
    ensures Transport(Step(w.s, Send(svc, id)))
  {
    var s, s' := w.s, Step(w.s, Send(svc, id));
    assert RowOk(w, svc, id);
    SendCarriesOn(s, svc, id);
    forall source, x | x in OutboxOf(s', source) ensures DeliveryOk(s', source, x) {
      if x == id {
        SentIsAccounted(w, svc, id, s', source);
      } else {
        assert DeliveryOk(s, source, x);
        assert RowMarkKept(s, s', source, x);
        DeliveryKept(s, s', source, x);
      }
    }
  }

  lemma SentIsAccounted(w: World, svc: Service, id: EventId, s': State, source: Service)
    requires IdsOk(w.s) && Enabled(w.s, Send(svc, id)) && s' == Step(w.s, Send(svc, id))
    requires OutboxOf(w.s, svc)[id].event.id == id && id in OutboxOf(s', source)
    ensures DeliveryOk(s', source, id)
  {
    assert Apart(w.s, id);
    var e := OutboxOf(w.s, svc)[id].event;
    forall q | Bound(q, e.kind) ensures Accounted(s', q, id) {
      FanoutReaches(e, q);
      assert IsCopy(s', q, id, Copy(q, e, Main, []));
    }
  }

  /** Copies move between queues, and are only dropped once their event is done. */
  /** What an answer takes from the queues is at most the copy it is about, and only an ack does not leave one. */
  lemma AnswerKeepsCopies(flight: multiset<Copy>, c: Copy, answer: Answer)
    requires c in flight
    ensures forall x :: x in flight && x != c ==> x in Answered(flight, c, answer)
    ensures answer != Ack ==> exists x :: x in Answered(flight, c, answer) && x.dest == c.dest && x.event == c.event
    ensures forall x :: x in Answered(flight, c, answer) ==> x in flight || (x.dest == c.dest && x.event == c.event)
  {
    match answer {
      case Ack =>
      case Reject => assert Rejected(c, MAX_RETRIES) in Answered(flight, c, answer);
      case Requeue => assert c in Answered(flight, c, answer);
      case DeadLetterCrash => assert c in Answered(flight, c, answer);
    }
  }

  lemma AnswerCarriesOn(s: State, s1: State, c: Copy, answer: Answer)
    requires Transport(s) && c in s.flight && s1.flight == s.flight
    requires forall svc, id {:trigger id in Done(s1, svc)} :: id in Done(s, svc) ==> id in Done(s1, svc)
    requires forall svc {:trigger OutboxOf(s1, svc)} :: Extends(OutboxOf(s, svc), OutboxOf(s1, svc))
    requires answer == Ack ==> c.event.id in Done(s1, c.dest)
    ensures CarriesOn(s, s1.(flight := Answered(s.flight, c, answer)))
  {
    var s' := s1.(flight := Answered(s.flight, c, answer));
    assert forall svc :: Done(s', svc) == Done(s1, svc) && OutboxOf(s', svc) == OutboxOf(s1, svc);
    AnswerKeepsCopies(s.flight, c, answer);
    FlightKept(s, s', c);
  }

  lemma ConsumeKeepsTransport(w: World, c: Copy, committed: bool, answer: Answer)
    requires Inv(w) && Enabled(w.s, Consume(c, committed, answer))
    ensures Transport(Step(w.s, Consume(c, committed, answer)))
  {
    var s, s' := w.s, Step(w.s, Consume(c, committed, answer));
    var s1 := if committed then Handled(s, c.dest, c.event).db else s;
    CounterNotInOutbox(w, s.next);
    CounterNotInOutbox(w, s.next + IDS_PER_EVENT);
    if committed {
      HandledIsDone(s, c.dest, c.event);
      HandlerKeepsBroker(s, c.dest, c.event);
      forall source, id | id in OutboxOf(s1, source)
        ensures id in OutboxOf(s, source) ==> OutboxOf(s1, source)[id] == OutboxOf(s, source)[id]
        ensures id !in OutboxOf(s, source) ==> !OutboxOf(s1, source)[id].published && id >= s.next
      {
        HandledKeepsRows(s, c.dest, c.event, source, id);
      }
      forall source ensures Extends(OutboxOf(s, source), OutboxOf(s1, source)) {
        HandlerExtends(s, c.dest, c.event, source);
      }
    }
    AnswerCarriesOn(s, s1, c, answer);
    forall source, id | id in OutboxOf(s', source) ensures RowMarkKept(s, s', source, id) {
      assert id in OutboxOf(s1, source);
      assert id in s.sent ==> Old(s, id);
    }
    TransportKept(s, s');
  }

  lemma HandlerKeepsBroker(s: State, svc: Service, e: Event)
    requires Handled(s, svc, e).Ok?
    ensures Handled(s, svc, e).db.flight == s.flight && Handled(s, svc, e).db.sent == s.sent
  {
  }

  lemma HandlerExtends(s: State, svc: Service, e: Event, source: Service)
    requires Handled(s, svc, e).Ok?
    requires s.next !in OutboxOf(s, source) && s.next + IDS_PER_EVENT !in OutboxOf(s, source)
    ensures Extends(OutboxOf(s, source), OutboxOf(Handled(s, svc, e).db, source))
  {
  }

  lemma ExpireKeepsTransport(s: State, c: Copy)
    requires Transport(s) && Enabled(s, Expire(c))
    ensures Transport(Step(s, Expire(c)))
  {
    var s' := Step(s, Expire(c));
    assert Expired(c) in s'.flight;
    FlightKept(s, s', c);
    TransportKept(s, s');
  }

  // ----- the main theorem -----

  lemma StepKeepsInvariant(w: World, l: Label)
    requires Inv(w) && Enabled(w.s, l)
    ensures Inv(After(w, l))
  {
    StepKeepsCore(w, l);
    match l
    case Place(r, key) => PlaceKeepsTransport(w, r, key);
    case SetStock(itemId, quantity) => ResetKeepsTransport(w.s, itemId, quantity);
    case Send(svc, id) => SendKeepsTransport(w, svc, id);
    case Mark(svc, id) => MarkKeepsTransport(w.s, svc, id);
    case Abort(svc, id) => AbortKeepsTransport(w.s, svc, id);
    case Consume(c, committed, answer) => ConsumeKeepsTransport(w, c, committed, answer);
    case Expire(c) => ExpireKeepsTransport(w.s, c);
  }

  lemma StartHolds()
    ensures Inv(START)
  {
  }

  lemma {:induction false} RunKeepsInvariant(w: World, ls: seq<Label>)
    requires Inv(w) && IsRun(w, ls)
    ensures Inv(Exec(w, ls))
    decreases |ls|
  {
    if ls != [] {
      StepKeepsInvariant(w, ls[0]);
      RunKeepsInvariant(After(w, ls[0]), ls[1..]);
    }
  }

  /** Every state that the Saga can reach satisfies the invariant. */
  lemma ReachableHolds(ls: seq<Label>)
    requires IsRun(START, ls)
    ensures Inv(Exec(START, ls))
  {
    StartHolds();
    RunKeepsInvariant(START, ls);
  }
}
