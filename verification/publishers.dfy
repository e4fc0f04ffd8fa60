/** Any number of publishers on one outbox table, their select statements with `skip_locked`. */
module Publishers {
  import opened Events
  import opened Publisher

  type PublisherId = nat

  /** An open transaction of `publish_batch`: the rows it locked, and how many of them it has sent. */
  datatype Session = Session(rows: seq<nat>, sent: nat)

  /** `accepted` counts, by its position, how often the broker has accepted a row, and `wasted` how often
      for a batch that was rolled back afterwards. No step depends on either. */
  datatype Pool = Pool(
    table: Table,
    sessions: map<PublisherId, Session>,
    accepted: multiset<nat>,
    wasted: multiset<nat>)

  datatype Action =
    | Append(event: Event)
    | Begin(p: PublisherId, rows: seq<nat>)
    | Send(p: PublisherId)
    | Commit(p: PublisherId)
    | Abort(p: PublisherId, accepted: bool)  // an exception or a crash; the row being sent may have been accepted

  predicate HeldBy(pool: Pool, p: PublisherId, i: nat) {
    p in pool.sessions && i in pool.sessions[p].rows
  }

  function Locked(pool: Pool): (locked: set<nat>)
    ensures forall i :: i in locked <==> exists p :: HeldBy(pool, p, i)
  {
    var locked := set p, i | p in pool.sessions && i in pool.sessions[p].rows :: i;
    assert forall p, i {:trigger HeldBy(pool, p, i)} :: HeldBy(pool, p, i) ==> i in locked;
    assert forall i :: i in locked ==>
          exists p :: p in pool.sessions && i in pool.sessions[p].rows && HeldBy(pool, p, i);
    locked
  }

  /** Any unpublished rows that no one holds: the creation times of rows need not agree with the order of
      their commits, so nothing here depends on which of them a batch takes. */
  predicate Available(t: Table, locked: set<nat>, rows: seq<nat>) {
    && Increasing(rows)
    && forall i :: i in rows ==> i < |t| && !t[i].published && i !in locked
  }

  lemma BatchIsAvailable(t: Table, locked: set<nat>, size: nat)
    ensures Available(t, locked, Batch(t, locked, size))
  {
    PendingIsExact(t, locked, 0);
  }

  predicate SessionSound(t: Table, s: Session) {
    && s.sent <= |s.rows|
    && Increasing(s.rows)
    && forall i :: i in s.rows ==> i < |t| && !t[i].published
  }

  predicate SessionsSound(pool: Pool) {
    forall p {:trigger p in pool.sessions} :: p in pool.sessions ==> SessionSound(pool.table, pool.sessions[p])
  }

  /** The rows `p` has sent and not yet marked. */
  predicate SentBy(pool: Pool, p: PublisherId, i: nat) {
    && p in pool.sessions && pool.sessions[p].sent <= |pool.sessions[p].rows|
    && i in pool.sessions[p].rows[..pool.sessions[p].sent]
  }

  predicate Enabled(pool: Pool, a: Action) {
    match a
    case Append(_) => true
    case Begin(p, rows) => p !in pool.sessions && Available(pool.table, Locked(pool), rows)
    case Send(p) => p in pool.sessions && pool.sessions[p].sent < |pool.sessions[p].rows|
    case Commit(p) => p in pool.sessions && pool.sessions[p].sent == |pool.sessions[p].rows|
    case Abort(p, accepted) =>
      p in pool.sessions && pool.sessions[p].sent + (if accepted then 1 else 0) <= |pool.sessions[p].rows|
  }

  function Step(pool: Pool, a: Action): Pool
    requires Enabled(pool, a)
  {
    match a
    case Append(e) => pool.(table := pool.table + [Row(e, 0, false)])
    case Begin(p, rows) => pool.(sessions := pool.sessions[p := Session(rows, 0)])
    case Send(p) =>
      var s := pool.sessions[p];
      pool.(sessions := pool.sessions[p := Session(s.rows, s.sent + 1)],
            accepted := pool.accepted + multiset{s.rows[s.sent]})
    case Commit(p) =>
      pool.(table := Mark(pool.table, pool.sessions[p].rows), sessions := pool.sessions - {p})
    case Abort(p, accepted) =>
      var s := pool.sessions[p];
      var last := if accepted then multiset{s.rows[s.sent]} else multiset{};
      pool.(sessions := pool.sessions - {p},
            accepted := pool.accepted + last,
            wasted := pool.wasted + multiset(s.rows[..s.sent]) + last)
  }

  ghost predicate Disjoint(pool: Pool) {
    forall p, q, i {:trigger HeldBy(pool, p, i), HeldBy(pool, q, i)} :: HeldBy(pool, p, i) && HeldBy(pool, q, i) ==>
          p == q
  }

  ghost predicate SentSomewhere(pool: Pool, i: nat) {
    exists p {:trigger SentBy(pool, p, i)} :: SentBy(pool, p, i)
  }

  function Count(b: bool): nat {
    if b then 1 else 0
  }

  predicate Published(t: Table, i: nat) {
    i < |t| && t[i].published
  }

  /** Every acceptance of a row is accounted for: by its mark, by an open batch or by a rolled back one. */
  ghost predicate Accounted(pool: Pool, i: nat) {
    pool.accepted[i] == Count(Published(pool.table, i)) + Count(SentSomewhere(pool, i)) + pool.wasted[i]
  }

  /** The increment of `attempts` is rolled back with the mark, so it counts no failed attempt. */
  predicate AttemptsCountMarks(t: Table) {
    forall i {:trigger t[i]} :: 0 <= i < |t| ==> t[i].attempts == Count(t[i].published)
  }

  ghost predicate Valid(pool: Pool) {
    && SessionsSound(pool)
    && Disjoint(pool)
    && (forall i: nat {:trigger Accounted(pool, i)} :: Accounted(pool, i))
    && AttemptsCountMarks(pool.table)
  }

  lemma StepKeepsSessions(pool: Pool, a: Action)
    requires SessionsSound(pool) && Disjoint(pool) && Enabled(pool, a)
    ensures SessionsSound(Step(pool, a)) && Disjoint(Step(pool, a))
  {
    var pool' := Step(pool, a);
    forall p | p in pool'.sessions
      ensures SessionSound(pool'.table, pool'.sessions[p])
    {
      SessionStaysSound(pool, a, p);
    }
    forall p, q, i | HeldBy(pool', p, i) && HeldBy(pool', q, i)
      ensures p == q
    {
      HoldersBefore(pool, a, p, i);
      HoldersBefore(pool, a, q, i);
    }
  }

  lemma SessionStaysSound(pool: Pool, a: Action, p: PublisherId)
    requires SessionsSound(pool) && Disjoint(pool) && Enabled(pool, a)
    requires p in Step(pool, a).sessions
    ensures SessionSound(Step(pool, a).table, Step(pool, a).sessions[p])
  {
    var pool' := Step(pool, a);
    var rows := pool'.sessions[p].rows;
    forall i | i in rows
      ensures i < |pool'.table| && !pool'.table[i].published
    {
      HoldersBefore(pool, a, p, i);
      match a {
        case Commit(q) =>
          assert !HeldBy(pool, q, i);
        case Append(_) =>
        case Begin(_, _) =>
        case Send(_) =>
        case Abort(_, _) =>
      }
    }
  }

  /** For one row: each step changes both sides of the account alike. */
  lemma StepKeepsAccount(pool: Pool, a: Action, i: nat)
    requires SessionsSound(pool) && Disjoint(pool) && Accounted(pool, i) && Enabled(pool, a)
    ensures SessionsSound(Step(pool, a)) && Accounted(Step(pool, a), i)
  {
    StepKeepsSessions(pool, a);
    var pool' := Step(pool, a);
    match a {
      case Append(_) =>
        SentAlike(pool, pool', i);
      case Begin(p, rows) =>
        SentAlike(pool, pool', i);
      case Send(p) =>
        SendAccounts(pool, p, i);
      case Commit(p) =>
        CommitAccounts(pool, p, i);
      case Abort(p, accepted) =>
        AbortAccounts(pool, p, accepted, i);
    }
  }

  lemma HoldersBefore(pool: Pool, a: Action, p: PublisherId, i: nat)
    requires SessionsSound(pool) && Enabled(pool, a) && HeldBy(Step(pool, a), p, i)
    ensures HeldBy(pool, p, i) || (a.Begin? && a.p == p && i !in Locked(pool))
  {
  }

  lemma SentAlike(pool: Pool, pool': Pool, i: nat)
    requires SessionsSound(pool) && SessionsSound(pool')
    requires forall p {:trigger SentBy(pool, p, i)} {:trigger SentBy(pool', p, i)} ::
          SentBy(pool, p, i) == SentBy(pool', p, i)
    ensures SentSomewhere(pool, i) == SentSomewhere(pool', i)
  {
  }

  /** Who holds a row is the only one that can have sent it. */
  lemma OnlySender(pool: Pool, p: PublisherId, i: nat)
    requires SessionsSound(pool) && Disjoint(pool) && HeldBy(pool, p, i)
    ensures SentSomewhere(pool, i) == SentBy(pool, p, i)
  {
    forall q | SentBy(pool, q, i)
      ensures q == p
    {
      assert HeldBy(pool, q, i);
    }
  }

  /** Row `i` is not among those of the one session that a step ends or carries on. */
  lemma OtherRow(pool: Pool, pool': Pool, p: PublisherId, i: nat)
    requires SessionsSound(pool) && SessionsSound(pool')
    requires pool'.sessions - {p} == pool.sessions - {p}
    requires !HeldBy(pool, p, i) && !HeldBy(pool', p, i)
    ensures SentSomewhere(pool, i) == SentSomewhere(pool', i)
  {
    forall q
      ensures SentBy(pool, q, i) == SentBy(pool', q, i)
    {
      if q != p {
        assert q in pool.sessions <==> q in pool.sessions - {p};
        assert q in pool'.sessions <==> q in pool'.sessions - {p};
      }
    }
    SentAlike(pool, pool', i);
  }

  lemma SendAccounts(pool: Pool, p: PublisherId, i: nat)
    requires SessionsSound(pool) && Disjoint(pool) && Accounted(pool, i) && Enabled(pool, Send(p))
    requires SessionsSound(Step(pool, Send(p))) && Disjoint(Step(pool, Send(p)))
    ensures Accounted(Step(pool, Send(p)), i)
  {
    var pool' := Step(pool, Send(p));
    var s := pool.sessions[p];
    if i in s.rows {
      OnlySender(pool, p, i);
      OnlySender(pool', p, i);
      assert s.rows[..s.sent + 1] == s.rows[..s.sent] + [s.rows[s.sent]];
    } else {
      OtherRow(pool, pool', p, i);
    }
  }

  lemma CommitAccounts(pool: Pool, p: PublisherId, i: nat)
    requires SessionsSound(pool) && Disjoint(pool) && Accounted(pool, i) && Enabled(pool, Commit(p))
    requires SessionsSound(Step(pool, Commit(p)))
    ensures Accounted(Step(pool, Commit(p)), i)
  {
    var pool' := Step(pool, Commit(p));
    var s := pool.sessions[p];
    if i in s.rows {
      OnlySender(pool, p, i);
      assert s.rows[..s.sent] == s.rows;
      Released(pool, pool', p, i);
    } else {
      OtherRow(pool, pool', p, i);
    }
  }

  lemma AbortAccounts(pool: Pool, p: PublisherId, accepted: bool, i: nat)
    requires SessionsSound(pool) && Disjoint(pool) && Accounted(pool, i) && Enabled(pool, Abort(p, accepted))
    requires SessionsSound(Step(pool, Abort(p, accepted)))
    ensures Accounted(Step(pool, Abort(p, accepted)), i)
  {
    var pool' := Step(pool, Abort(p, accepted));
    var s := pool.sessions[p];
    SentOnce(s.rows, s.sent, i);
    if i in s.rows {
      OnlySender(pool, p, i);
      Released(pool, pool', p, i);
    } else {
      OtherRow(pool, pool', p, i);
    }
  }

  lemma Released(pool: Pool, pool': Pool, p: PublisherId, i: nat)
    requires SessionsSound(pool) && Disjoint(pool) && HeldBy(pool, p, i)
    requires SessionsSound(pool') && pool'.sessions == pool.sessions - {p}
    ensures !SentSomewhere(pool', i)
  {
    forall q
      ensures !SentBy(pool', q, i)
    {
      if SentBy(pool', q, i) {
        assert HeldBy(pool, q, i);
      }
    }
  }

  lemma {:induction false} SentOnce(rows: seq<nat>, sent: nat, i: nat)
    requires Increasing(rows) && sent <= |rows|
    ensures multiset(rows[..sent])[i] == Count(i in rows[..sent])
  {
    if sent > 0 {
      SentOnce(rows, sent - 1, i);
      assert rows[..sent] == rows[..sent - 1] + [rows[sent - 1]];
    }
  }

  lemma StepKeepsAttempts(pool: Pool, a: Action)
    requires SessionsSound(pool) && Enabled(pool, a) && AttemptsCountMarks(pool.table)
    ensures AttemptsCountMarks(Step(pool, a).table)
  {
  }

  lemma StepKeepsValid(pool: Pool, a: Action)
    requires Valid(pool) && Enabled(pool, a)
    ensures Valid(Step(pool, a))
  {
    StepKeepsSessions(pool, a);
    StepKeepsAttempts(pool, a);
    forall i: nat
      ensures Accounted(Step(pool, a), i)
    {
      assert Accounted(pool, i);
      StepKeepsAccount(pool, a, i);
    }
  }

  /** `later` may have more rows and more marks, but every row of `t` is still there with its event. */
  predicate Extends(later: Table, t: Table) {
    && |t| <= |later|
    && forall i {:trigger later[i]} {:trigger t[i]} :: 0 <= i < |t| ==>
          later[i].event == t[i].event && (t[i].published ==> later[i] == t[i])
  }

  lemma StepExtends(pool: Pool, a: Action)
    requires SessionsSound(pool) && Enabled(pool, a)
    ensures Extends(Step(pool, a).table, pool.table)
    ensures pool.wasted <= Step(pool, a).wasted
  {
    if a.Commit? {
      forall i | 0 <= i < |pool.table| && pool.table[i].published
        ensures i !in pool.sessions[a.p].rows
      {
        assert SessionSound(pool.table, pool.sessions[a.p]);
      }
    }
  }

  predicate IsRun(pool: Pool, run: seq<Action>)
    decreases |run|
  {
    run == [] || (Enabled(pool, run[0]) && IsRun(Step(pool, run[0]), run[1..]))
  }

  function Outcome(pool: Pool, run: seq<Action>): Pool
    requires IsRun(pool, run)
    decreases |run|
  {
    if run == [] then pool else Outcome(Step(pool, run[0]), run[1..])
  }

  lemma {:induction false} RunKeepsValid(pool: Pool, run: seq<Action>)
    requires Valid(pool) && IsRun(pool, run)
    ensures Valid(Outcome(pool, run))
    decreases |run|
  {
    if run != [] {
      StepKeepsValid(pool, run[0]);
      RunKeepsValid(Step(pool, run[0]), run[1..]);
    }
  }

  lemma {:induction false} RunSplits(pool: Pool, run: seq<Action>, k: nat)
    requires IsRun(pool, run) && k <= |run|
    ensures IsRun(pool, run[..k]) && IsRun(Outcome(pool, run[..k]), run[k..])
    ensures Outcome(Outcome(pool, run[..k]), run[k..]) == Outcome(pool, run)
    decreases |run|
  {
    if k == 0 {
      assert run[..0] == [] && run[0..] == run;
    } else {
      RunSplits(Step(pool, run[0]), run[1..], k - 1);
      assert run[..k][1..] == run[1..][..k - 1] && run[..k][0] == run[0];
      assert run[k..] == run[1..][k - 1..];
    }
  }

  /** A table without marks that no one is publishing yet. */
  function Idle(t: Table): Pool {
    Pool(t, map[], multiset{}, multiset{})
  }

  predicate Unmarked(t: Table) {
    forall i {:trigger t[i]} :: 0 <= i < |t| ==> !t[i].published && t[i].attempts == 0
  }

  lemma IdleIsValid(t: Table)
    requires Unmarked(t)
    ensures Valid(Idle(t))
  {
  }

  lemma {:induction false} RunExtends(pool: Pool, run: seq<Action>)
    requires Valid(pool) && IsRun(pool, run)
    ensures Extends(Outcome(pool, run).table, pool.table)
    ensures pool.wasted <= Outcome(pool, run).wasted
    decreases |run|
  {
    if run != [] {
      StepKeepsValid(pool, run[0]);
      StepExtends(pool, run[0]);
      RunExtends(Step(pool, run[0]), run[1..]);
    }
  }

  /** Whatever the publishers do: no two hold the same row, the broker has accepted every marked row, and a
      row goes out again only after a batch that had sent it was rolled back. */
  lemma SentTwiceOnlyAfterRollback(t: Table, run: seq<Action>, i: nat)
    requires Unmarked(t) && IsRun(Idle(t), run)
    ensures var end := Outcome(Idle(t), run);
            && (forall p, q :: HeldBy(end, p, i) && HeldBy(end, q, i) ==> p == q)
            && (Published(end.table, i) ==> end.accepted[i] >= 1 && end.table[i].attempts == 1)
            && end.wasted[i] <= end.accepted[i] <= end.wasted[i] + 1
            && (end.accepted[i] > 1 ==> end.wasted[i] >= 1)
            && (end.accepted[i] >= 1 && !Published(end.table, i) && end.wasted[i] == 0 ==> SentSomewhere(end, i))
  {
    var end := Outcome(Idle(t), run);
    IdleIsValid(t);
    RunKeepsValid(Idle(t), run);
    assert Accounted(end, i);
    assert SentSomewhere(end, i) ==> !Published(end.table, i);
  }

  /** No row that is committed at any time, before the run or during it, is ever lost or changed but by its mark. */
  lemma NoRowIsLost(t: Table, run: seq<Action>, k: nat)
    requires Unmarked(t) && IsRun(Idle(t), run) && k <= |run|
    ensures IsRun(Idle(t), run[..k])
    ensures Extends(Outcome(Idle(t), run).table, Outcome(Idle(t), run[..k]).table)
  {
    RunSplits(Idle(t), run, k);
    IdleIsValid(t);
    RunKeepsValid(Idle(t), run[..k]);
    RunExtends(Outcome(Idle(t), run[..k]), run[k..]);
  }

  /** The events that a run's transactions append. */
  function Appended(run: seq<Action>): seq<Event>
    decreases |run|
  {
    if run == [] then [] else (if run[0].Append? then [run[0].event] else []) + Appended(run[1..])
  }

  function EventsOf(t: Table): seq<Event> {
    seq(|t|, i requires 0 <= i < |t| => t[i].event)
  }

  lemma JoinedInOrder(a: seq<Event>, b: seq<Event>, c: seq<Event>)
    ensures (a + b) + c == a + (b + c)
  {
  }

  lemma StepAppends(pool: Pool, a: Action)
    requires Enabled(pool, a)
    ensures EventsOf(Step(pool, a).table) == EventsOf(pool.table) + (if a.Append? then [a.event] else [])
  {
  }

  /** The table is its first rows and what was appended since, in that order, whatever the publishers do. */
  lemma {:induction false} TableGrowsByAppends(pool: Pool, run: seq<Action>)
    requires IsRun(pool, run)
    ensures EventsOf(Outcome(pool, run).table) == EventsOf(pool.table) + Appended(run)
    decreases |run|
  {
    if run != [] {
      var first := if run[0].Append? then [run[0].event] else [];
      StepAppends(pool, run[0]);
      TableGrowsByAppends(Step(pool, run[0]), run[1..]);
      JoinedInOrder(EventsOf(pool.table), first, Appended(run[1..]));
    }
  }

  ghost predicate Undisturbed(run: seq<Action>) {
    forall k {:trigger run[k]} :: 0 <= k < |run| ==> !run[k].Abort?
  }

  lemma {:induction false} NothingWasted(pool: Pool, run: seq<Action>)
    requires Valid(pool) && IsRun(pool, run) && Undisturbed(run)
    ensures Outcome(pool, run).wasted == pool.wasted
    decreases |run|
  {
    if run != [] {
      StepKeepsValid(pool, run[0]);
      assert !run[0].Abort?;
      NothingWasted(Step(pool, run[0]), run[1..]);
    }
  }

  /** Without rollbacks, the broker has each row exactly once as soon as all batches are closed and no row is left. */
  lemma EachRowOnce(t: Table, run: seq<Action>)
    requires Unmarked(t) && IsRun(Idle(t), run) && Undisturbed(run)
    requires var end := Outcome(Idle(t), run); end.sessions == map[] && Pending(end.table, Locked(end)) == []
    ensures var end := Outcome(Idle(t), run);
            forall i: nat :: end.accepted[i] == Count(i < |end.table|)
  {
    var end := Outcome(Idle(t), run);
    IdleIsValid(t);
    RunKeepsValid(Idle(t), run);
    NothingWasted(Idle(t), run);
    PendingIsExact(end.table, Locked(end), 0);
    forall i: nat
      ensures end.accepted[i] == Count(i < |end.table|)
    {
      assert Accounted(end, i);
      assert !SentSomewhere(end, i);
      assert forall p :: !HeldBy(end, p, i);
    }
  }

  /** A batch could still be selected when it commits, and the broker has just one copy more of each of its
      rows: the commit is a `PublishBatch` without trouble, all at once, on the table as it is then. */
  lemma CommitIsAtomicBatch(pool: Pool, p: PublisherId)
    requires Valid(pool) && Enabled(pool, Commit(p))
    ensures var rows := pool.sessions[p].rows;
            && Available(pool.table, Locked(pool) - (set i | i in rows), rows)
            && (forall i :: i in rows ==> pool.accepted[i] == pool.wasted[i] + 1)
  {
    var s := pool.sessions[p];
    assert SessionSound(pool.table, s);
    assert s.rows[..s.sent] == s.rows;
    forall i | i in s.rows
      ensures pool.accepted[i] == pool.wasted[i] + 1
    {
      assert Accounted(pool, i);
      assert SentBy(pool, p, i);
    }
  }
}
