/** Exactly when the Saga can come to rest: as long as no copy has been dead-lettered, the publishers and
    consumers alone can finish every order. */
module Completion {
  import opened Events
  import opened Delivery
  import opened Saga
  import opened History
  import opened Invariant
  import opened Handling
  import opened Steps
  import opened Agreement
  import opened Termination

  /** What publishers, consumers and the broker do when nothing goes wrong. */
  predicate Routine(l: Label) {
    l.Send? || l.Mark? || l.Expire? || (l.Consume? && l.committed && l.answer == Ack)
  }

  predicate AllRoutine(ls: seq<Label>) {
    forall k {:trigger ls[k]} :: 0 <= k < |ls| ==> Routine(ls[k])
  }

  predicate IsDead(s: State, c: Copy) {
    c in s.flight && c.stage == Dead
  }

  ghost predicate NoneDead(s: State) {
    forall c {:trigger IsDead(s, c)} :: !IsDead(s, c)
  }

  /** A routine run that publishes every row and empties every queue. */
  ghost predicate Finishes(w: World, ls: seq<Label>) {
    IsRun(w, ls) && AllRoutine(ls) && Quiescent(Exec(w, ls).s)
  }

  ghost predicate CanComeToRest(w: World) {
    exists ls :: Finishes(w, ls)
  }

  /** Unless all is quiet, some routine step is possible: in particular, no handler raises. */
  lemma SomethingToDo(w: World) returns (l: Label)
    requires Inv(w) && NoneDead(w.s) && !Quiescent(w.s)
    ensures Enabled(w.s, l) && Routine(l)
  {
    if svc, id :| id in OutboxOf(w.s, svc) && !OutboxOf(w.s, svc)[id].published {
      l := if id in w.s.sent then Mark(svc, id) else Send(svc, id);
    } else {
      var c :| c in w.s.flight;
      assert CopyOk(w.s, c) && !IsDead(w.s, c);
      if c.stage == Main {
        HandlingKeepsCore(w, c.dest, c.event);
        l := Consume(c, true, Ack);
      } else {
        l := Expire(c);
      }
    }
  }

  lemma ConsumedFlight(s: State, c: Copy, committed: bool, answer: Answer)
    requires Enabled(s, Consume(c, committed, answer))
    ensures Step(s, Consume(c, committed, answer)).flight == Answered(s.flight, c, answer)
  {
  }

  lemma FanoutIsNew(e: Event, c: Copy)
    requires c in Fanout(e)
    ensures c.headers == [] && c.stage == Main
  {
  }

  lemma RoutineKillsNothing(s: State, l: Label)
    requires NoneDead(s) && Enabled(s, l) && Routine(l)
    ensures NoneDead(Step(s, l))
  {
    forall c
      ensures !IsDead(Step(s, l), c)
    {
      assert !IsDead(s, c);
      match l {
        case Consume(copy, committed, answer) => ConsumedFlight(s, copy, committed, answer);
        case Send(svc, id) =>
          if c in Fanout(OutboxOf(s, svc)[id].event) {
            FanoutIsNew(OutboxOf(s, svc)[id].event, c);
          }
        case Expire(_) =>
        case Mark(_, _) =>
      }
    }
  }

  /** A routine step leads to a state of the same kind that is closer to rest. */
  lemma RoutineProgress(w: World, l: Label)
    requires Inv(w) && BatchesOpen(w.s) && NoneDead(w.s) && Enabled(w.s, l) && Routine(l)
    ensures Inv(After(w, l)) && BatchesOpen(After(w, l).s) && NoneDead(After(w, l).s)
    ensures 0 <= Potential(w.s) && Potential(After(w, l).s) < Potential(w.s)
  {
    StepPays(w, l);
    PotentialIsNonNegative(w.s);
    StepKeepsInvariant(w, l);
    StepKeepsBatchesOpen(w, l);
    RoutineKillsNothing(w.s, l);
  }

  lemma FirstStep(w: World, l: Label, rest: seq<Label>)
    requires Enabled(w.s, l) && Routine(l) && Finishes(After(w, l), rest)
    ensures Finishes(w, [l] + rest)
  {
    assert ([l] + rest)[1..] == rest;
  }

  lemma {:induction false} FinishFrom(w: World) returns (ls: seq<Label>)
    requires Inv(w) && BatchesOpen(w.s) && NoneDead(w.s)
    ensures Finishes(w, ls)
    decreases Potential(w.s)
  {
    if Quiescent(w.s) {
      ls := [];
    } else {
      var l := SomethingToDo(w);
      RoutineProgress(w, l);
      var rest := FinishFrom(After(w, l));
      FirstStep(w, l, rest);
      ls := [l] + rest;
    }
  }

  /** A dead-letter queue has no consumer. */
  lemma {:induction false} DeadStayDead(w: World, ls: seq<Label>, c: Copy)
    requires IsRun(w, ls) && IsDead(w.s, c)
    ensures IsDead(Exec(w, ls).s, c)
    decreases |ls|
  {
    if ls != [] {
      var l := ls[0];
      if l.Consume? {
        ConsumedFlight(w.s, l.copy, l.committed, l.answer);
      }
      DeadStayDead(After(w, l), ls[1..], c);
    }
  }

  lemma {:induction false} BatchesStayOpen(w: World, ls: seq<Label>)
    requires Inv(w) && BatchesOpen(w.s) && IsRun(w, ls)
    ensures BatchesOpen(Exec(w, ls).s)
    decreases |ls|
  {
    if ls != [] {
      StepKeepsInvariant(w, ls[0]);
      StepKeepsBatchesOpen(w, ls[0]);
      BatchesStayOpen(After(w, ls[0]), ls[1..]);
    }
  }

  /** From every reachable state, whatever crashes and duplicates led there, the orders can be finished by
      routine steps exactly if nothing was dead-lettered; no run can empty a dead-letter queue. */
  lemma EveryRunCanFinish(ls: seq<Label>)
    requires IsRun(START, ls)
    ensures CanComeToRest(Reached(ls)) <==> NoneDead(Reached(ls).s)
    ensures !NoneDead(Reached(ls).s) ==> forall more {:trigger IsRun(Reached(ls), more)} :: IsRun(Reached(ls), more) ==>
          !Quiescent(Exec(Reached(ls), more).s)
  {
    var w := Reached(ls);
    ReachableHolds(ls);
    StartHolds();
    BatchesStayOpen(START, ls);
    if NoneDead(w.s) {
      var more := FinishFrom(w);
    } else {
      var c :| IsDead(w.s, c);
      forall more | IsRun(w, more)
        ensures !Quiescent(Exec(w, more).s)
      {
        DeadStayDead(w, more, c);
      }
    }
  }

  // ----- retries and dead letters -----

  /** The attempts that a copy has left, with its expiries counted as well. */
  function AttemptsLeft(c: Copy, maxRetries: nat): nat {
    var count := RetryCount(c.headers, QueueName(c.dest));
    match c.stage
    case Dead => 0
    case Main => 1 + 2 * (if count < maxRetries then maxRetries - count else 0)
    case Retry => 2 + 2 * (if count < maxRetries then maxRetries - count else 0)
  }

  /** How often the handler is called for a copy that it fails on every time, until the copy is dead-lettered. */
  function FailedDeliveries(c: Copy, maxRetries: nat): nat
    decreases AttemptsLeft(c, maxRetries)
  {
    RestCounts(c.headers, QueueName(c.dest), maxRetries);
    match c.stage
    case Dead => 0
    case Main => 1 + FailedDeliveries(Rejected(c, maxRetries), maxRetries)
    case Retry => FailedDeliveries(Expired(c), maxRetries)
  }

  lemma {:induction false} PersistentFailure(c: Copy, maxRetries: nat)
    requires c.stage == Main && RetryCount(c.headers, QueueName(c.dest)) <= maxRetries
    ensures FailedDeliveries(c, maxRetries) == maxRetries + 1 - RetryCount(c.headers, QueueName(c.dest))
    decreases AttemptsLeft(c, maxRetries)
  {
    var queue := QueueName(c.dest);
    RestCounts(c.headers, queue, maxRetries);
    if !Exhausted(c.headers, queue, maxRetries) {
      var rejected := Rejected(c, maxRetries);
      RestCounts(rejected.headers, queue, maxRetries);
      PersistentFailure(Expired(rejected), maxRetries);
    }
  }

  predicate CountOk(s: State, c: Copy) {
    c in s.flight ==>
      var count := RetryCount(c.headers, QueueName(c.dest));
      count <= MAX_RETRIES && (c.stage == Dead ==> count == MAX_RETRIES)
  }

  ghost predicate CountsOk(s: State) {
    forall c {:trigger CountOk(s, c)} :: CountOk(s, c)
  }

  lemma StepKeepsCounts(s: State, l: Label)
    requires CountsOk(s) && Enabled(s, l)
    ensures CountsOk(Step(s, l))
  {
    forall c
      ensures CountOk(Step(s, l), c)
    {
      assert CountOk(s, c);
      match l {
        case Consume(copy, committed, answer) =>
          ConsumedFlight(s, copy, committed, answer);
          assert CountOk(s, copy);
          RestCounts(copy.headers, QueueName(copy.dest), MAX_RETRIES);
        case Send(svc, id) =>
          if c in Fanout(OutboxOf(s, svc)[id].event) {
            FanoutIsNew(OutboxOf(s, svc)[id].event, c);
          }
        case Expire(copy) =>
          assert CountOk(s, copy);
          RestCounts(copy.headers, QueueName(copy.dest), MAX_RETRIES);
        case Mark(_, _) =>
        case Abort(_, _) =>
        case Place(_, _) =>
        case SetStock(_, _) =>
      }
    }
  }

  lemma {:induction false} RunKeepsCounts(w: World, ls: seq<Label>)
    requires CountsOk(w.s) && IsRun(w, ls)
    ensures CountsOk(Exec(w, ls).s)
    decreases |ls|
  {
    if ls != [] {
      StepKeepsCounts(w.s, ls[0]);
      RunKeepsCounts(After(w, ls[0]), ls[1..]);
    }
  }

  /** In no run is a copy dead-lettered before its queue's consumer has rejected it as often as it may be
      retried, and a copy that is not dead-lettered yet has exactly the remaining attempts. */
  lemma NoPrematureDeadLetter(ls: seq<Label>, c: Copy)
    requires IsRun(START, ls) && c in Reached(ls).s.flight
    ensures var count := RetryCount(c.headers, QueueName(c.dest));
            && count <= 3
            && (c.stage == Dead ==> count == 3)
            && (c.stage == Main ==> FailedDeliveries(c, MAX_RETRIES) == 4 - count)
  {
    RunKeepsCounts(START, ls);
    assert CountOk(Reached(ls).s, c);
    if c.stage == Main {
      PersistentFailure(c, MAX_RETRIES);
    }
  }
}
