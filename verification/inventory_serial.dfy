/** Every interleaving of the inventory service's handlers and resets is strictly serializable: it ends in the
    database that some sequence of atomic handlers and resets leaves behind, each of them taking effect between
    the start and the commit of its session and with the identifier that it drew there. */
module InventorySerial {
  import opened Events
  import opened Inventory
  import opened InventorySessions
  import opened InventoryConcurrency
  import opened InventoryHistories

  // ----- runs -----

  lemma {:induction false} RunPrefix(m: Machine, acts: seq<Action>, k: nat)
    requires IsRun(m, acts) && k <= |acts|
    ensures IsRun(m, acts[..k]) && IsRun(Exec(m, acts[..k]), acts[k..])
    ensures Exec(m, acts) == Exec(Exec(m, acts[..k]), acts[k..])
    decreases |acts|
  {
    if k == 0 {
      assert acts[..0] == [] && acts[0..] == acts;
    } else {
      RunPrefix(Do(m, acts[0]), acts[1..], k - 1);
      assert acts[..k][0] == acts[0] && acts[..k][1..] == acts[1..][..k - 1];
      assert acts[k..] == acts[1..][k - 1..];
    }
  }

  lemma {:induction false} DisciplinedPrefix(m: Machine, acts: seq<Action>, created: map<OrderId, EventId>, k: nat)
    requires IsRun(m, acts) && DisciplinedRun(m, acts, created) && k <= |acts|
    ensures IsRun(m, acts[..k]) && DisciplinedRun(m, acts[..k], created)
    decreases |acts|
  {
    RunPrefix(m, acts, k);
    if k > 0 {
      DisciplinedPrefix(Do(m, acts[0]), acts[1..], created, k - 1);
      assert acts[..k][0] == acts[0] && acts[..k][1..] == acts[1..][..k - 1];
    }
  }

  /** The machine before step `k`. */
  function Before(acts: seq<Action>, k: nat): Machine
    requires IsRun(START, acts) && k <= |acts|
  {
    RunPrefix(START, acts, k);
    Exec(START, acts[..k])
  }

  /** Step `k` is a commit that succeeds. */
  predicate Succeeds(acts: seq<Action>, k: nat)
    requires IsRun(START, acts)
  {
    && k < |acts| && acts[k].Commits?
    && var m, sid := Before(acts, k), acts[k].sid;
    sid in m.sessions && Ready(m.sessions[sid]) && Written(m.db, m.next, m.sessions[sid]).Ok?
  }

  /** The operation is the effect of a session of the run. */
  predicate Genuine(acts: seq<Action>, op: Op)
    requires IsRun(START, acts)
  {
    && op.start < op.end < |acts|
    && acts[op.start] == Start(op.sid, op.task) && acts[op.end] == Commits(op.sid)
    && Succeeds(acts, op.end) && op.id == Before(acts, op.end).next
  }

  predicate EndsAt(ops: seq<Op>, i: nat, k: nat) {
    i < |ops| && ops[i].end == k
  }

  predicate AllGenuine(acts: seq<Action>, ops: seq<Op>)
    requires IsRun(START, acts)
  {
    forall i {:trigger ops[i]} :: 0 <= i < |ops| ==> Genuine(acts, ops[i])
  }

  predicate EndsDistinct(ops: seq<Op>) {
    forall i, j {:trigger ops[i], ops[j]} :: 0 <= i < j < |ops| ==> ops[i].end != ops[j].end
  }

  ghost predicate NoneLeftOut(acts: seq<Action>, ops: seq<Op>)
    requires IsRun(START, acts)
  {
    forall k: nat {:trigger Succeeds(acts, k)} :: Succeeds(acts, k) ==> exists i: nat :: EndsAt(ops, i, k)
  }

  /** Each successful commit of the run is one operation, and there are no others. */
  ghost predicate Covers(acts: seq<Action>, ops: seq<Op>)
    requires IsRun(START, acts)
  {
    AllGenuine(acts, ops) && EndsDistinct(ops) && NoneLeftOut(acts, ops)
  }

  /** No operation comes after one whose session started only when its own had ended. */
  predicate KeepsRealTime(ops: seq<Op>) {
    forall i, j {:trigger ops[i], ops[j]} :: 0 <= i < j < |ops| ==> ops[i].start < ops[j].end
  }

  ghost predicate Serializes(acts: seq<Action>, ops: seq<Op>)
    requires IsRun(START, acts)
  {
    && IsHistory(EMPTY, ops, Exec(START, acts).next) && Replay(EMPTY, ops) == Exec(START, acts).db
    && Covers(acts, ops) && KeepsRealTime(ops)
  }

  // ----- one step more -----

  lemma SamePast(acts: seq<Action>, a: Action, k: nat)
    requires IsRun(START, acts + [a]) && k <= |acts|
    ensures IsRun(START, acts) && Before(acts + [a], k) == Before(acts, k)
  {
    RunPrefix(START, acts + [a], |acts|);
    assert (acts + [a])[..|acts|] == acts;
    assert (acts + [a])[..k] == acts[..k];
  }

  lemma LastStep(acts: seq<Action>, a: Action)
    requires IsRun(START, acts + [a])
    ensures IsRun(START, acts) && Can(Exec(START, acts), a) && Exec(START, acts + [a]) == Do(Exec(START, acts), a)
    ensures Before(acts + [a], |acts|) == Exec(START, acts)
  {
    RunPrefix(START, acts + [a], |acts|);
    assert (acts + [a])[..|acts|] == acts && (acts + [a])[|acts|..] == [a];
  }

  lemma PastSuccess(acts: seq<Action>, a: Action, k: nat)
    requires IsRun(START, acts + [a]) && IsRun(START, acts) && k < |acts|
    ensures Succeeds(acts + [a], k) <==> Succeeds(acts, k)
  {
    SamePast(acts, a, k);
  }

  lemma StaysGenuine(acts: seq<Action>, a: Action, op: Op)
    requires IsRun(START, acts + [a]) && IsRun(START, acts) && Genuine(acts, op)
    ensures Genuine(acts + [a], op)
  {
    SamePast(acts, a, op.end);
    PastSuccess(acts, a, op.end);
  }

  lemma StillCovers(acts: seq<Action>, a: Action, ops: seq<Op>)
    requires IsRun(START, acts + [a]) && IsRun(START, acts) && Covers(acts, ops) && !Succeeds(acts + [a], |acts|)
    ensures Covers(acts + [a], ops)
  {
    forall i | 0 <= i < |ops|
      ensures Genuine(acts + [a], ops[i])
    {
      StaysGenuine(acts, a, ops[i]);
    }
    forall k: nat | Succeeds(acts + [a], k)
      ensures exists i: nat :: EndsAt(ops, i, k)
    {
      PastSuccess(acts, a, k);
    }
  }

  function InsertAt(ops: seq<Op>, p: nat, op: Op): seq<Op>
    requires p <= |ops|
  {
    ops[..p] + [op] + ops[p..]
  }

  lemma InsertedAt(ops: seq<Op>, p: nat, op: Op, x: nat)
    requires p <= |ops| && x <= |ops|
    ensures InsertAt(ops, p, op)[x] == if x < p then ops[x] else if x == p then op else ops[x - 1]
  {
  }

  lemma GenuineOneMore(acts: seq<Action>, a: Action, ops: seq<Op>, p: nat, op: Op)
    requires IsRun(START, acts + [a]) && IsRun(START, acts) && AllGenuine(acts, ops) && p <= |ops|
    requires Genuine(acts + [a], op) && op.end == |acts|
    ensures AllGenuine(acts + [a], InsertAt(ops, p, op))
  {
    forall x | 0 <= x <= |ops|
      ensures Genuine(acts + [a], InsertAt(ops, p, op)[x])
    {
      InsertedAt(ops, p, op, x);
      if x != p {
        StaysGenuine(acts, a, ops[if x < p then x else x - 1]);
      }
    }
  }

  lemma EndsStayDistinct(ops: seq<Op>, p: nat, op: Op)
    requires p <= |ops| && EndsDistinct(ops)
    requires forall x {:trigger ops[x]} :: 0 <= x < |ops| ==> ops[x].end < op.end
    ensures EndsDistinct(InsertAt(ops, p, op))
  {
    forall i, j | 0 <= i < j <= |ops|
      ensures InsertAt(ops, p, op)[i].end != InsertAt(ops, p, op)[j].end
    {
      InsertedAt(ops, p, op, i);
      InsertedAt(ops, p, op, j);
    }
  }

  lemma EndFound(ops: seq<Op>, p: nat, op: Op, k: nat)
    requires p <= |ops|
    requires k == op.end || exists i: nat :: EndsAt(ops, i, k)
    ensures exists i: nat :: EndsAt(InsertAt(ops, p, op), i, k)
  {
    if k == op.end {
      InsertedAt(ops, p, op, p);
      assert EndsAt(InsertAt(ops, p, op), p, k);
    } else {
      var i: nat :| EndsAt(ops, i, k);
      var x := if i < p then i else i + 1;
      InsertedAt(ops, p, op, x);
      assert EndsAt(InsertAt(ops, p, op), x, k);
    }
  }

  lemma CoversOneMore(acts: seq<Action>, a: Action, ops: seq<Op>, p: nat, op: Op)
    requires IsRun(START, acts + [a]) && IsRun(START, acts) && Covers(acts, ops) && p <= |ops|
    requires Genuine(acts + [a], op) && op.end == |acts|
    ensures Covers(acts + [a], InsertAt(ops, p, op))
  {
    GenuineOneMore(acts, a, ops, p, op);
    EndsStayDistinct(ops, p, op);
    forall k: nat | Succeeds(acts + [a], k)
      ensures exists i: nat :: EndsAt(InsertAt(ops, p, op), i, k)
    {
      if k < |acts| {
        PastSuccess(acts, a, k);
      }
      EndFound(ops, p, op, k);
    }
  }

  /** Resets stand in the order of their commits, before everything that committed later. */
  predicate ResetsInOrder(ops: seq<Op>) {
    forall i, j {:trigger ops[i], ops[j]} :: 0 <= i < j < |ops| && ops[i].task.OnReset? ==> ops[i].end < ops[j].end
  }

  predicate AllEnded(ops: seq<Op>, now: nat) {
    forall i {:trigger ops[i]} :: 0 <= i < |ops| ==> ops[i].start < ops[i].end < now
  }

  /** A session that started then may come before all operations from `p` on. */
  predicate StartsBefore(start: nat, ops: seq<Op>, p: nat) {
    forall j {:trigger ops[j]} :: p <= j < |ops| ==> start < ops[j].end
  }

  lemma OrderOneMore(ops: seq<Op>, p: nat, op: Op)
    requires p <= |ops| && KeepsRealTime(ops) && ResetsInOrder(ops) && AllEnded(ops, op.end) && op.start < op.end
    requires StartsBefore(op.start, ops, p)
    requires op.task.OnReset? ==> p == |ops|
    ensures KeepsRealTime(InsertAt(ops, p, op)) && ResetsInOrder(InsertAt(ops, p, op))
  {
    var ops' := InsertAt(ops, p, op);
    forall i, j | 0 <= i < j < |ops'|
      ensures ops'[i].start < ops'[j].end
      ensures ops'[i].task.OnReset? ==> ops'[i].end < ops'[j].end
    {
      InsertedAt(ops, p, op, i);
      InsertedAt(ops, p, op, j);
    }
  }

  /** The session has found no row for the item. */
  predicate Missing(m: Machine, sid: Sid, itemId: string) {
    && sid in m.sessions && m.sessions[sid].task.OnEvent? && m.sessions[sid].pc == ItemRead(None)
    && m.sessions[sid].task.event.payload.itemId == Some(itemId)
  }

  lemma CommitKeepsTasks(m: Machine, writer: Sid, sid: Sid)
    requires writer in m.sessions
    ensures sid in Commit(m, writer).sessions <==> sid in m.sessions
    ensures sid in m.sessions ==> Commit(m, writer).sessions[sid].task == m.sessions[sid].task
  {
    assert Commit(m, writer).sessions == Release(m, writer).sessions;
  }

  lemma TasksStay(m: Machine, a: Action, sid: Sid)
    requires Can(m, a)
    ensures sid in Do(m, a).sessions <==> sid in m.sessions || (a.Start? && a.sid == sid)
    ensures sid in m.sessions ==> Do(m, a).sessions[sid].task == m.sessions[sid].task
    ensures a.Start? && a.sid == sid ==> Do(m, a).sessions[sid].task == a.task
  {
    match a
    case Start(_, _) =>
    case Reads(reader) =>
    case Commits(writer) => CommitKeepsTasks(m, writer, sid);
    case Aborts(_) =>
  }

  predicate StartedAt(acts: seq<Action>, m: Machine, sid: Sid, starts: map<Sid, nat>) {
    sid in m.sessions ==> sid in starts && starts[sid] < |acts| && acts[starts[sid]] == Start(sid, m.sessions[sid].task)
  }

  /** An item that a session has missed was stocked, if at all, after the session had started. */
  predicate MissedBefore(m: Machine, sid: Sid, itemId: string, ops: seq<Op>, starts: map<Sid, nat>) {
    Missing(m, sid, itemId) ==>
      sid in starts && forall k {:trigger ops[k]} :: 0 <= k < |ops| && IsReset(ops[k], itemId) ==>
            starts[sid] < ops[k].end
  }

  ghost predicate Timed(acts: seq<Action>, m: Machine, ops: seq<Op>, starts: map<Sid, nat>) {
    && (forall sid {:trigger StartedAt(acts, m, sid, starts)} :: StartedAt(acts, m, sid, starts))
    && (forall sid, itemId {:trigger MissedBefore(m, sid, itemId, ops, starts)} ::
          MissedBefore(m, sid, itemId, ops, starts))
  }

  function StartsAfter(starts: map<Sid, nat>, a: Action, now: nat): map<Sid, nat> {
    if a.Start? then starts[a.sid := now] else starts
  }

  /** The only resets that `ops'` has beyond those of `ops` end at the present step. */
  predicate NewResetsEnd(ops: seq<Op>, ops': seq<Op>, now: nat) {
    forall k {:trigger ops'[k]} :: 0 <= k < |ops'| && ops'[k].task.OnReset? ==> ops'[k] in ops || ops'[k].end == now
  }

  lemma StillTimed(acts: seq<Action>, m: Machine, a: Action, ops: seq<Op>, starts: map<Sid, nat>, ops': seq<Op>)
    requires Can(m, a) && Timed(acts, m, ops, starts)
    requires forall itemId, k {:trigger IsReset(ops[k], itemId)} :: 0 <= k < |ops| && IsReset(ops[k], itemId) ==>
          itemId in m.db.items
    requires NewResetsEnd(ops, ops', |acts|)
    ensures Timed(acts + [a], Do(m, a), ops', StartsAfter(starts, a, |acts|))
  {
    var m', starts' := Do(m, a), StartsAfter(starts, a, |acts|);
    forall sid
      ensures StartedAt(acts + [a], m', sid, starts')
    {
      TasksStay(m, a, sid);
      assert StartedAt(acts, m, sid, starts);
    }
    forall sid, itemId
      ensures MissedBefore(m', sid, itemId, ops', starts')
    {
      if Missing(m', sid, itemId) {
        StillMissed(acts, m, a, ops, starts, ops', sid, itemId);
      }
    }
  }

  lemma StillMissed(acts: seq<Action>, m: Machine, a: Action, ops: seq<Op>, starts: map<Sid, nat>, ops': seq<Op>,
      sid: Sid, itemId: string)
    requires Can(m, a) && Missing(Do(m, a), sid, itemId)
    requires StartedAt(acts, m, sid, starts) && MissedBefore(m, sid, itemId, ops, starts)
    requires forall k {:trigger ops[k]} :: 0 <= k < |ops| && IsReset(ops[k], itemId) ==> itemId in m.db.items
    requires NewResetsEnd(ops, ops', |acts|)
    ensures MissedBefore(Do(m, a), sid, itemId, ops', StartsAfter(starts, a, |acts|))
  {
  }

  // ----- the history of a run -----

  /** What the construction of a run's history carries along. */
  ghost predicate Witnessed(acts: seq<Action>, created: map<OrderId, EventId>, ops: seq<Op>, starts: map<Sid, nat>)
    requires IsRun(START, acts)
  {
    && Serializes(acts, ops) && AllExpected(ops, created) && ResetsInOrder(ops)
    && Timed(acts, Exec(START, acts), ops, starts)
  }

  predicate CommitsWell(m: Machine, a: Action)
    requires Can(m, a)
  {
    a.Commits? && Written(m.db, m.next, m.sessions[a.sid]).Ok?
  }

  lemma OnlyCommitsWrite(m: Machine, a: Action)
    requires Can(m, a) && !CommitsWell(m, a)
    ensures Do(m, a).db == m.db && Do(m, a).next == m.next
  {
  }

  lemma ResetsStock(ops: seq<Op>, bound: Id, itemId: string, k: nat)
    requires IsHistory(EMPTY, ops, bound) && k < |ops| && IsReset(ops[k], itemId)
    ensures itemId in Replay(EMPTY, ops).items
  {
    ReplayKeys(EMPTY, ops, bound, itemId);
  }

  lemma TimedOneMore(acts: seq<Action>, a: Action, ops: seq<Op>, starts: map<Sid, nat>, ops': seq<Op>)
    requires IsRun(START, acts + [a]) && IsRun(START, acts)
    requires Serializes(acts, ops) && Timed(acts, Exec(START, acts), ops, starts)
    requires NewResetsEnd(ops, ops', |acts|)
    ensures Timed(acts + [a], Exec(START, acts + [a]), ops', StartsAfter(starts, a, |acts|))
  {
    LastStep(acts, a);
    var m := Exec(START, acts);
    forall itemId, k | 0 <= k < |ops| && IsReset(ops[k], itemId)
      ensures itemId in m.db.items
    {
      ResetsStock(ops, m.next, itemId, k);
    }
    StillTimed(acts, m, a, ops, starts, ops');
  }

  lemma QuietStep(acts: seq<Action>, a: Action, created: map<OrderId, EventId>, ops: seq<Op>, starts: map<Sid, nat>)
    requires IsRun(START, acts + [a]) && IsRun(START, acts) && Witnessed(acts, created, ops, starts)
    requires !Succeeds(acts + [a], |acts|)
    ensures Witnessed(acts + [a], created, ops, StartsAfter(starts, a, |acts|))
  {
    LastStep(acts, a);
    OnlyCommitsWrite(Exec(START, acts), a);
    StillCovers(acts, a, ops);
    TimedOneMore(acts, a, ops, starts, ops);
  }

  /** The effect of a session that commits now. */
  function Effect(acts: seq<Action>, sid: Sid, starts: map<Sid, nat>): Op
    requires IsRun(START, acts) && sid in Exec(START, acts).sessions && sid in starts
  {
    Op(sid, Exec(START, acts).sessions[sid].task, Exec(START, acts).next, starts[sid], |acts|)
  }

  lemma EffectIsGenuine(acts: seq<Action>, sid: Sid, ops: seq<Op>, starts: map<Sid, nat>)
    requires IsRun(START, acts + [Commits(sid)]) && IsRun(START, acts) && Succeeds(acts + [Commits(sid)], |acts|)
    requires Timed(acts, Exec(START, acts), ops, starts)
    ensures sid in Exec(START, acts).sessions && sid in starts
    ensures Genuine(acts + [Commits(sid)], Effect(acts, sid, starts))
  {
    LastStep(acts, Commits(sid));
    assert StartedAt(acts, Exec(START, acts), sid, starts);
  }

  lemma InsertedExpected(ops: seq<Op>, p: nat, op: Op, created: map<OrderId, EventId>)
    requires p <= |ops| && AllExpected(ops, created) && OpExpected(op, created)
    ensures AllExpected(InsertAt(ops, p, op), created)
  {
    forall k | 0 <= k <= |ops|
      ensures OpExpected(InsertAt(ops, p, op)[k], created)
    {
      InsertedAt(ops, p, op, k);
    }
  }

  lemma InsertedResetsEnd(ops: seq<Op>, p: nat, op: Op)
    requires p <= |ops|
    ensures NewResetsEnd(ops, InsertAt(ops, p, op), op.end)
  {
    forall k | 0 <= k <= |ops|
      ensures InsertAt(ops, p, op)[k] in ops || InsertAt(ops, p, op)[k].end == op.end
    {
      InsertedAt(ops, p, op, k);
    }
  }

  lemma OrderOneEffectMore(acts: seq<Action>, ops: seq<Op>, p: nat, op: Op)
    requires IsRun(START, acts) && AllGenuine(acts, ops) && KeepsRealTime(ops) && ResetsInOrder(ops)
    requires p <= |ops| && op.start < op.end == |acts| && StartsBefore(op.start, ops, p)
    requires op.task.OnReset? ==> p == |ops|
    ensures KeepsRealTime(InsertAt(ops, p, op)) && ResetsInOrder(InsertAt(ops, p, op))
  {
    OrderOneMore(ops, p, op);
  }

  /** The history with the new effect at some place is one of the longer run, if it replays to its database. */
  lemma PlaceEffect(acts: seq<Action>, sid: Sid, created: map<OrderId, EventId>, ops: seq<Op>, starts: map<Sid, nat>,
      p: nat)
    requires IsRun(START, acts + [Commits(sid)]) && IsRun(START, acts) && Succeeds(acts + [Commits(sid)], |acts|)
    requires Witnessed(acts, created, ops, starts) && p <= |ops|
    requires sid in Exec(START, acts).sessions && sid in starts
    requires var op, m' := Effect(acts, sid, starts), Exec(START, acts + [Commits(sid)]);
             && OpExpected(op, created)
             && (op.task.OnReset? ==> p == |ops|)
             && StartsBefore(op.start, ops, p)
             && IsHistory(EMPTY, InsertAt(ops, p, op), m'.next) && Replay(EMPTY, InsertAt(ops, p, op)) == m'.db
    ensures Witnessed(acts + [Commits(sid)], created, InsertAt(ops, p, Effect(acts, sid, starts)), starts)
  {
    var op, a := Effect(acts, sid, starts), Commits(sid);
    var ops' := InsertAt(ops, p, op);
    EffectIsGenuine(acts, sid, ops, starts);
    CoversOneMore(acts, a, ops, p, op);
    OrderOneEffectMore(acts, ops, p, op);
    InsertedExpected(ops, p, op, created);
    InsertedResetsEnd(ops, p, op);
    TimedOneMore(acts, a, ops, starts, ops');
  }

  /** A commit that is atomic comes last. */
  lemma AtomicPlace(m: Machine, sid: Sid, ops: seq<Op>, op: Op)
    requires IsHistory(EMPTY, ops, m.next) && Replay(EMPTY, ops) == m.db
    requires sid in m.sessions && Written(m.db, m.next, m.sessions[sid]).Ok? && Atomic(m, sid)
    requires op.task == m.sessions[sid].task && op.id == m.next
    ensures var tx := Written(m.db, m.next, m.sessions[sid]);
            IsHistory(EMPTY, InsertAt(ops, |ops|, op), tx.next) && Replay(EMPTY, InsertAt(ops, |ops|, op)) == tx.db
  {
    var tx := Written(m.db, m.next, m.sessions[sid]);
    NextGrows(m.db, op);
    BoundGrows(EMPTY, ops, m.next, tx.next);
    HistoriesJoin(EMPTY, ops, [op], tx.next);
    assert IsHistory(m.db, [op], tx.next) && Replay(m.db, [op]) == tx.db;
    assert InsertAt(ops, |ops|, op) == ops + [op];
  }

  lemma NextGrows(db: InventoryDb, op: Op)
    requires Apply(db, op).Ok?
    ensures op.id <= Apply(db, op).next
  {
  }

  lemma FirstReset(ops: seq<Op>, itemId: string) returns (p: nat)
    requires exists k :: 0 <= k < |ops| && IsReset(ops[k], itemId)
    ensures p < |ops| && IsReset(ops[p], itemId) && forall k :: 0 <= k < p ==> !IsReset(ops[k], itemId)
  {
    p := 0;
    while !IsReset(ops[p], itemId)
      invariant p < |ops| && forall k :: 0 <= k < p ==> !IsReset(ops[k], itemId)
      invariant exists k :: p <= k < |ops| && IsReset(ops[k], itemId)
      decreases |ops| - p
    {
      p := p + 1;
    }
  }

  lemma StaleWrites(m: Machine, sid: Sid, itemId: string)
    requires Missing(m, sid, itemId) && ReadsHold(m, sid) && Written(m.db, m.next, m.sessions[sid]).Ok?
    ensures var e := m.sessions[sid].task.event;
            && e.kind.OrderCreated? && e.payload.quantity.Some? && e.id !in m.db.processed
            && Written(m.db, m.next, m.sessions[sid]) == Ok(Rejecting(m.db, e, m.next), m.next + IDS_PER_EVENT)
  {
  }

  lemma ResetComesFirst(m: Machine, sid: Sid, itemId: string, ops: seq<Op>, starts: map<Sid, nat>, p: nat)
    requires Missing(m, sid, itemId) && MissedBefore(m, sid, itemId, ops, starts) && ResetsInOrder(ops)
    requires p < |ops| && IsReset(ops[p], itemId)
    ensures sid in starts && StartsBefore(starts[sid], ops, p)
  {
  }

  predicate NoReset(ops: seq<Op>, itemId: string) {
    forall k {:trigger ops[k]} :: 0 <= k < |ops| ==> !IsReset(ops[k], itemId)
  }

  lemma StaleHistory(before: seq<Op>, after: seq<Op>, itemId: string, op: Op, created: map<OrderId, EventId>)
    requires IsHistory(EMPTY, before + after, op.id) && AllExpected(before, created) && OpExpected(op, created)
    requires NoReset(before, itemId)
    requires op.task.OnEvent? && op.task.event.kind.OrderCreated?
    requires op.task.event.id !in Replay(EMPTY, before + after).processed
    requires op.task.event.payload.itemId == Some(itemId) && op.task.event.payload.quantity.Some?
    ensures IsHistory(EMPTY, before + [op] + after, op.id + IDS_PER_EVENT)
    ensures Replay(EMPTY, before + [op] + after) == Rejecting(Replay(EMPTY, before + after), op.task.event, op.id)
  {
    EarlierState(before, after, itemId, op, created);
    StaleRejectionIsEarlier(EMPTY, before, op, after);
  }

  /** Before the item was stocked, the order had no reservation. */
  lemma EarlierState(before: seq<Op>, after: seq<Op>, itemId: string, op: Op, created: map<OrderId, EventId>)
    requires IsHistory(EMPTY, before + after, op.id) && AllExpected(before, created) && OpExpected(op, created)
    requires NoReset(before, itemId)
    requires op.task.OnEvent? && op.task.event.kind.OrderCreated?
    requires op.task.event.id !in Replay(EMPTY, before + after).processed
    ensures itemId !in Replay(EMPTY, before).items
    ensures OrderIdOf(op.task.event) !in Replay(EMPTY, before).reservations
  {
    HistoriesJoin(EMPTY, before, after, op.id);
    ReplayKeys(EMPTY, before, op.id, itemId);
    ReplayKeys(Replay(EMPTY, before), after, op.id, itemId);
    ReplayGrants(EMPTY, before, op.id, OrderIdOf(op.task.event), created);
  }

  lemma StalePlace(m: Machine, sid: Sid, itemId: string, ops: seq<Op>, op: Op, starts: map<Sid, nat>,
      created: map<OrderId, EventId>)
    returns (p: nat)
    requires IsHistory(EMPTY, ops, m.next) && Replay(EMPTY, ops) == m.db && AllExpected(ops, created)
    requires ResetsInOrder(ops)
    requires Missing(m, sid, itemId) && itemId in m.db.items && ReadsHold(m, sid)
    requires Written(m.db, m.next, m.sessions[sid]).Ok?
    requires MissedBefore(m, sid, itemId, ops, starts)
    requires op.task == m.sessions[sid].task && op.id == m.next && OpExpected(op, created)
    ensures p <= |ops| && sid in starts && StartsBefore(starts[sid], ops, p)
    ensures var tx := Written(m.db, m.next, m.sessions[sid]);
            IsHistory(EMPTY, InsertAt(ops, p, op), tx.next) && Replay(EMPTY, InsertAt(ops, p, op)) == tx.db
  {
    ReplayKeys(EMPTY, ops, m.next, itemId);
    p := FirstReset(ops, itemId);
    ResetComesFirst(m, sid, itemId, ops, starts, p);
    StaleWrites(m, sid, itemId);
    assert ops[..p] + ops[p..] == ops;
    StaleHistory(ops[..p], ops[p..], itemId, op, created);
  }

  lemma CommitLeavesWritten(acts: seq<Action>, sid: Sid)
    requires IsRun(START, acts + [Commits(sid)]) && IsRun(START, acts) && Succeeds(acts + [Commits(sid)], |acts|)
    ensures var m, m' := Exec(START, acts), Exec(START, acts + [Commits(sid)]);
            sid in m.sessions && Written(m.db, m.next, m.sessions[sid]) == Ok(m'.db, m'.next)
  {
    LastStep(acts, Commits(sid));
  }

  /** A stale rejection goes just before the item is stocked. */
  lemma StaleGoesEarlier(acts: seq<Action>, sid: Sid, created: map<OrderId, EventId>, ops: seq<Op>,
      starts: map<Sid, nat>, itemId: string)
    returns (p: nat)
    requires IsRun(START, acts + [Commits(sid)]) && IsRun(START, acts) && Succeeds(acts + [Commits(sid)], |acts|)
    requires Witnessed(acts, created, ops, starts) && sid in starts
    requires var m := Exec(START, acts);
             && Missing(m, sid, itemId) && itemId in m.db.items
             && ReadsHold(m, sid) && OpExpected(Effect(acts, sid, starts), created)
    ensures p <= |ops| && StartsBefore(starts[sid], ops, p)
    ensures var op, m' := Effect(acts, sid, starts), Exec(START, acts + [Commits(sid)]);
            IsHistory(EMPTY, InsertAt(ops, p, op), m'.next) && Replay(EMPTY, InsertAt(ops, p, op)) == m'.db
  {
    CommitLeavesWritten(acts, sid);
    var m := Exec(START, acts);
    assert MissedBefore(m, sid, itemId, ops, starts);
    p := StalePlace(m, sid, itemId, ops, Effect(acts, sid, starts), starts, created);
  }

  lemma CommitStep(acts: seq<Action>, sid: Sid, created: map<OrderId, EventId>, ops: seq<Op>, starts: map<Sid, nat>)
    returns (ops': seq<Op>)
    requires IsRun(START, acts + [Commits(sid)]) && IsRun(START, acts) && Succeeds(acts + [Commits(sid)], |acts|)
    requires Witnessed(acts, created, ops, starts)
    requires Sound(Exec(START, acts)) && Disciplined(Exec(START, acts), created)
    ensures Witnessed(acts + [Commits(sid)], created, ops', starts)
  {
    LastStep(acts, Commits(sid));
    EffectIsGenuine(acts, sid, ops, starts);
    var m := Exec(START, acts);
    assert SessionExpected(m, sid, created) && ReadsHold(m, sid);
    var p := |ops|;
    if Atomic(m, sid) {
      CommitLeavesWritten(acts, sid);
      AtomicPlace(m, sid, ops, Effect(acts, sid, starts));
    } else {
      DisciplinedCommitIsAtomic(m, sid, created);
      p := StaleGoesEarlier(acts, sid, created, ops, starts, m.sessions[sid].task.event.payload.itemId.value);
    }
    PlaceEffect(acts, sid, created, ops, starts, p);
    ops' := InsertAt(ops, p, Effect(acts, sid, starts));
  }

  lemma {:induction false} Serialize(acts: seq<Action>, created: map<OrderId, EventId>)
    returns (ops: seq<Op>, starts: map<Sid, nat>)
    requires IsRun(START, acts) && DisciplinedRun(START, acts, created)
    ensures Witnessed(acts, created, ops, starts)
    decreases |acts|
  {
    if acts == [] {
      ops, starts := [], map[];
    } else {
      var prefix, a := acts[..|acts| - 1], acts[|acts| - 1];
      assert acts == prefix + [a];
      DisciplinedPrefix(START, acts, created, |prefix|);
      ops, starts := Serialize(prefix, created);
      if Succeeds(acts, |prefix|) {
        assert Disciplined(START, created);
        RunKeepsDisciplined(START, prefix, created);
        ops := CommitStep(prefix, a.sid, created, ops, starts);
      } else {
        QuietStep(prefix, a, created, ops, starts);
        starts := StartsAfter(starts, a, |prefix|);
      }
    }
  }

  /** Strict serializability: for every interleaving of expected handlers and resets there is one sequence of
      atomic operations, one for each successful commit and with its identifier, that ends in the same database
      and never puts an operation before one whose session had ended when its own session started. */
  lemma StrictlySerializable(acts: seq<Action>, created: map<OrderId, EventId>)
    requires IsRun(START, acts) && DisciplinedRun(START, acts, created)
    ensures exists ops :: Serializes(acts, ops)
  {
    var ops, starts := Serialize(acts, created);
  }
}
