/** The Saga gives the inventory service only events that `InventoryConcurrency` expects. */
module SagaDiscipline {
  import opened Events
  import opened Saga
  import opened History
  import opened Invariant
  import opened Handling
  import opened Steps
  import opened Agreement
  import InventorySessions
  import InventoryConcurrency

  /** The `order.created` event of each order. */
  function CreatedEvents(h: Traces): map<OrderId, EventId> {
    map o | o in h :: h[o].created
  }

  /** Whatever copy the Saga has for the inventory service, in any of its queues and in any reachable state,
      is expected by a session that starts on it. */
  lemma QueuedEventsAreExpected(ls: seq<Label>, c: Copy, m: InventorySessions.Machine)
    requires IsRun(START, ls) && c in Reached(ls).s.flight && c.dest == InventoryService
    requires m.db == Reached(ls).s.inventory
    ensures InventoryConcurrency.Expected(m, InventorySessions.OnEvent(c.event), CreatedEvents(Reached(ls).h))
  {
    ReachableHolds(ls);
    var w := Reached(ls);
    assert CopyOk(w.s, c);
    EmittedIsKnown(w, c.event);
  }

  /** And no reservation in its database was made by anything else. */
  lemma ReservationsAreGranted(ls: seq<Label>, o: OrderId, m: InventorySessions.Machine)
    requires IsRun(START, ls) && m.db == Reached(ls).s.inventory
    ensures InventoryConcurrency.Granted(m, o, CreatedEvents(Reached(ls).h))
  {
    ReachableHolds(ls);
    var w := Reached(ls);
    if o in m.db.reservations {
      assert KnownOrder(w, o);
      assert OrderOk(w.s, o, w.h[o]);
    }
  }

  lemma StepFixesCreated(w: World, l: Label, o: OrderId)
    requires Inv(w) && Enabled(w.s, l) && o in w.h
    ensures o in After(w, l).h && After(w, l).h[o].created == w.h[o].created
  {
    assert KnownOrder(w, o);
  }

  /** An order's event never changes, so what is expected once stays expected. */
  lemma {:induction false} CreatedEventsAreFixed(w: World, ls: seq<Label>, o: OrderId)
    requires Inv(w) && IsRun(w, ls) && o in CreatedEvents(w.h)
    ensures o in CreatedEvents(Exec(w, ls).h) && CreatedEvents(Exec(w, ls).h)[o] == CreatedEvents(w.h)[o]
    decreases |ls|
  {
    if ls != [] {
      StepFixesCreated(w, ls[0], o);
      StepKeepsInvariant(w, ls[0]);
      CreatedEventsAreFixed(After(w, ls[0]), ls[1..], o);
    }
  }

  predicate Queued(s: State, task: InventorySessions.Task) {
    task.OnEvent? ==> exists c :: c in s.flight && c.dest == InventoryService && c.event == task.event
  }

  /** Any sessions that start on the Saga's inventory database, resets and consumers of its queued copies alike,
      are disciplined: the results about interleavings apply to them. */
  lemma SagaStartsDisciplined(ls: seq<Label>, m: InventorySessions.Machine)
    requires IsRun(START, ls) && m.db == Reached(ls).s.inventory
    requires forall sid {:trigger m.sessions[sid]} :: sid in m.sessions ==>
               m.sessions[sid].pc == InventorySessions.Begun && Queued(Reached(ls).s, m.sessions[sid].task)
    ensures InventorySessions.Sound(m) && InventoryConcurrency.Disciplined(m, CreatedEvents(Reached(ls).h))
  {
    var created := CreatedEvents(Reached(ls).h);
    ReachableHolds(ls);
    forall o
      ensures InventoryConcurrency.Granted(m, o, created)
    {
      ReservationsAreGranted(ls, o, m);
    }
    forall sid | sid in m.sessions
      ensures InventoryConcurrency.SessionExpected(m, sid, created)
    {
      if m.sessions[sid].task.OnEvent? {
        var c :| c in Reached(ls).s.flight && c.dest == InventoryService && c.event == m.sessions[sid].task.event;
        QueuedEventsAreExpected(ls, c, m);
      }
    }
  }
}
