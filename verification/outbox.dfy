/** app/common/outbox.py: one publisher and its batches. */
module Publisher {
  import opened Events

  /** An outbox table in the order of its creation times. */
  type Table = seq<Row>

  /** The positions, from `i` on, of the rows that are neither published nor locked by another publisher. */
  function PendingFrom(t: Table, locked: set<nat>, i: nat): (ids: seq<nat>)
    requires i <= |t|
    ensures forall k {:trigger ids[k]} :: 0 <= k < |ids| ==> i <= ids[k] < |t|
    decreases |t| - i
  {
    if i == |t| then []
    else if t[i].published || i in locked then PendingFrom(t, locked, i + 1)
    else [i] + PendingFrom(t, locked, i + 1)
  }

  function Pending(t: Table, locked: set<nat>): seq<nat> {
    PendingFrom(t, locked, 0)
  }

  function Min(a: nat, b: nat): nat {
    if a <= b then a else b
  }

  /** What the select statement returns: the oldest such rows, at most `size` of them. */
  function Batch(t: Table, locked: set<nat>, size: nat): seq<nat> {
    Pending(t, locked)[..Min(size, |Pending(t, locked)|)]
  }

  function Mark(t: Table, ids: seq<nat>): (t': Table)
    ensures |t'| == |t|
  {
    seq(|t|, i requires 0 <= i < |t| => if i in ids then MarkRow(t[i]) else t[i])
  }

  function EventsAt(t: Table, ids: seq<nat>): seq<Event>
    requires forall k {:trigger ids[k]} :: 0 <= k < |ids| ==> ids[k] < |t|
  {
    seq(|ids|, k requires 0 <= k < |ids| => t[ids[k]].event)
  }

  predicate Increasing(ids: seq<nat>) {
    forall j, k {:trigger ids[j], ids[k]} :: 0 <= j < k < |ids| ==> ids[j] < ids[k]
  }

  lemma {:induction false} PendingIncreases(t: Table, locked: set<nat>, i: nat)
    requires i <= |t|
    ensures Increasing(PendingFrom(t, locked, i))
    decreases |t| - i
  {
    if i < |t| {
      PendingIncreases(t, locked, i + 1);
    }
  }

  lemma {:induction false} PendingMembers(t: Table, locked: set<nat>, i: nat, j: nat)
    requires i <= |t|
    ensures j in PendingFrom(t, locked, i) <==> i <= j < |t| && !t[j].published && j !in locked
    decreases |t| - i
  {
    if i < |t| {
      PendingMembers(t, locked, i + 1, j);
    }
  }

  /** The pending rows are exactly the unpublished and unlocked ones, each once, oldest first. */
  lemma {:induction false} PendingIsExact(t: Table, locked: set<nat>, i: nat)
    requires i <= |t|
    ensures var ids := PendingFrom(t, locked, i);
            && Increasing(ids)
            && (forall j :: j in ids <==> i <= j < |t| && !t[j].published && j !in locked)
  {
    PendingIncreases(t, locked, i);
    forall j
      ensures j in PendingFrom(t, locked, i) <==> i <= j < |t| && !t[j].published && j !in locked
    {
      if j >= 0 {
        PendingMembers(t, locked, i, j);
      }
    }
  }

  lemma {:induction false} PendingDependsOnRest(a: Table, b: Table, locked: set<nat>, i: nat)
    requires |a| == |b| && i <= |a| && forall j :: i <= j < |a| ==> a[j].published == b[j].published
    ensures PendingFrom(a, locked, i) == PendingFrom(b, locked, i)
    decreases |a| - i
  {
    if i < |a| {
      PendingDependsOnRest(a, b, locked, i + 1);
    }
  }

  /** Marking rows before `i` makes no difference to what is pending from `i` on. */
  lemma {:induction false} EarlierMark(t: Table, i: nat, ids: seq<nat>, locked: set<nat>)
    requires i < |t|
    ensures PendingFrom(Mark(t, [i] + ids), locked, i + 1) == PendingFrom(Mark(t, ids), locked, i + 1)
  {
    PendingDependsOnRest(Mark(t, [i] + ids), Mark(t, ids), locked, i + 1);
  }

  lemma {:induction false} MarkNone(t: Table)
    ensures Mark(t, []) == t
  {
  }

  /** Marking the first `k` pending rows leaves the others pending, in the same order. */
  lemma {:induction false} MarkingConsumesPrefix(t: Table, locked: set<nat>, i: nat, k: nat)
    requires i <= |t| && k <= |PendingFrom(t, locked, i)|
    ensures PendingFrom(Mark(t, PendingFrom(t, locked, i)[..k]), locked, i) == PendingFrom(t, locked, i)[k..]
    decreases |t| - i
  {
    if k == 0 {
      MarkNone(t);
      assert PendingFrom(t, locked, i)[..0] == [];
    } else if t[i].published || i in locked {
      MarkingConsumesPrefix(t, locked, i + 1, k);
      SkippedRow(t, locked, i, PendingFrom(t, locked, i + 1)[..k]);
    } else {
      var rest := PendingFrom(t, locked, i + 1);
      MarkingConsumesPrefix(t, locked, i + 1, k - 1);
      EarlierMark(t, i, rest[..k - 1], locked);
      TakenRow(t, locked, i, rest[..k - 1]);
      assert ([i] + rest)[..k] == [i] + rest[..k - 1];
    }
  }

  lemma {:induction false} SkippedRow(t: Table, locked: set<nat>, i: nat, ids: seq<nat>)
    requires i < |t| && (t[i].published || i in locked)
    ensures PendingFrom(Mark(t, ids), locked, i) == PendingFrom(Mark(t, ids), locked, i + 1)
  {
    assert Mark(t, ids)[i].published == t[i].published || i in ids;
  }

  lemma {:induction false} TakenRow(t: Table, locked: set<nat>, i: nat, ids: seq<nat>)
    requires i < |t|
    ensures PendingFrom(Mark(t, [i] + ids), locked, i) == PendingFrom(Mark(t, [i] + ids), locked, i + 1)
  {
    assert Mark(t, [i] + ids)[i].published;
  }

  /** One undisturbed batch: what it sends and what it leaves make up what was pending. */
  lemma {:induction false} BatchesDrain(t: Table, locked: set<nat>, size: nat)
    ensures var batch, t' := Batch(t, locked, size), Mark(t, Batch(t, locked, size));
            && Pending(t', locked) == Pending(t, locked)[|batch|..]
            && EventsAt(t, Pending(t, locked)) == EventsAt(t, batch) + EventsAt(t', Pending(t', locked))
            && Mark(t', Pending(t', locked)) == Mark(t, Pending(t, locked))
            && (size > 0 && batch == [] ==> Pending(t, locked) == [])
  {
    var batch := Batch(t, locked, size);
    var rest := Pending(t, locked)[|batch|..];
    MarkingConsumesPrefix(t, locked, 0, |batch|);
    assert batch == Pending(t, locked)[..|batch|];
    assert forall k {:trigger rest[k]} :: 0 <= k < |rest| ==> rest[k] !in batch by {
      PendingIncreases(t, locked, 0);
    }
    MarkedStaysMarked(t, batch, rest);
    assert batch + rest == Pending(t, locked);
    EventsAreKept(t, batch, rest);
  }

  lemma EventsAreKept(t: Table, a: seq<nat>, b: seq<nat>)
    requires forall k {:trigger a[k]} :: 0 <= k < |a| ==> a[k] < |t|
    requires forall k {:trigger b[k]} :: 0 <= k < |b| ==> b[k] < |t|
    ensures EventsAt(t, a + b) == EventsAt(t, a) + EventsAt(Mark(t, a), b)
  {
  }

  lemma {:induction false} MarkedStaysMarked(t: Table, a: seq<nat>, b: seq<nat>)
    requires forall k {:trigger b[k]} :: 0 <= k < |b| ==> b[k] !in a
    ensures Mark(Mark(t, a), b) == Mark(t, a + b)
  {
  }

  lemma {:induction false} MarkNext(t: Table, rows: seq<nat>, i: nat)
    requires i < |rows| && rows[i] < |t| && Increasing(rows)
    ensures Mark(t, rows[..i + 1]) == Mark(t, rows[..i])[rows[i] := MarkRow(Mark(t, rows[..i])[rows[i]])]
  {
    assert rows[..i + 1] == rows[..i] + [rows[i]];
    assert rows[i] !in rows[..i];
  }

  /** What the loop of `publish_batch` adds with its next row. */
  lemma {:induction false} NextOfBatch(t: Table, locked: set<nat>, size: nat, i: nat)
    requires i < |Batch(t, locked, size)|
    ensures var rows := Batch(t, locked, size);
            && Mark(t, rows[..i + 1]) == Mark(t, rows[..i])[rows[i] := MarkRow(Mark(t, rows[..i])[rows[i]])]
            && EventsAt(t, rows[..i + 1]) == EventsAt(t, rows[..i]) + [t[rows[i]].event]
  {
    var rows := Batch(t, locked, size);
    assert Increasing(rows) by {
      PendingIncreases(t, locked, 0);
    }
    MarkNext(t, rows, i);
    assert EventsAt(t, rows[..i + 1]) == EventsAt(t, rows[..i]) + [t[rows[i]].event];
  }

  /** Publishing what is still pending ends in the same table, with the same events sent, from both. */
  predicate SameEnd(t: Table, sent: seq<Event>, t': Table, sent': seq<Event>, locked: set<nat>) {
    && Mark(t', Pending(t', locked)) == Mark(t, Pending(t, locked))
    && sent' + EventsAt(t', Pending(t', locked)) == sent + EventsAt(t, Pending(t, locked))
  }

  lemma {:induction false} NothingPending(t: Table, locked: set<nat>, t0: Table, sent0: seq<Event>, sent: seq<Event>)
    requires Pending(t, locked) == [] && SameEnd(t0, sent0, t, sent, locked)
    ensures t == Mark(t0, Pending(t0, locked)) && sent == sent0 + EventsAt(t0, Pending(t0, locked))
  {
  }

  lemma {:induction false} BatchKeepsEnd(t0: Table, sent0: seq<Event>, t: Table, sent: seq<Event>, locked: set<nat>,
      size: nat)
    requires SameEnd(t0, sent0, t, sent, locked)
    ensures SameEnd(t0, sent0, Mark(t, Batch(t, locked, size)), sent + EventsAt(t, Batch(t, locked, size)), locked)
  {
    BatchesDrain(t, locked, size);
  }

  /** What goes wrong while a batch is published: nothing, the broker at the row at some position, which
      may have been accepted all the same, or the commit of the marks. */
  datatype Trouble = NoTrouble | PublishRaises(at: nat, accepted: bool) | CommitRaises

  predicate Fails(trouble: Trouble, rows: nat) {
    match trouble
    case NoTrouble => false
    case PublishRaises(at, _) => at < rows
    case CommitRaises => true
  }

  /** How many rows of a batch the broker has accepted by its end. */
  function Sent(trouble: Trouble, rows: nat): (sent: nat)
    ensures sent <= rows
    ensures !Fails(trouble, rows) ==> sent == rows
  {
    if trouble.PublishRaises? && trouble.at < rows then trouble.at + (if trouble.accepted then 1 else 0) else rows
  }

  /** What `publish_batch` does to a table and to what the broker has accepted, and what it returns. */
  predicate BatchRan(t: Table, sent: seq<Event>, locked: set<nat>, size: nat, trouble: Trouble, t': Table,
      sent': seq<Event>, published: nat) {
    var batch := Batch(t, locked, size);
    && sent' == sent + EventsAt(t, batch[..Sent(trouble, |batch|)])
    && (if Fails(trouble, |batch|) then published == 0 && t' == t else published == |batch| && t' == Mark(t, batch))
  }

  /** Which rows a batch takes: the oldest pending ones, all of them or as many as the batch size allows. */
  lemma BatchIsOldest(t: Table, locked: set<nat>, size: nat)
    ensures var batch, pending := Batch(t, locked, size), Pending(t, locked);
            && |batch| <= size && |batch| <= |pending|
            && (|batch| < size ==> |batch| == |pending|)
            && (forall k {:trigger batch[k]} :: 0 <= k < |batch| ==> batch[k] == pending[k])
  {
  }

  /** The contract of `publish_batch` in terms of what was pending: a success publishes min(batch size, pending) rows,
      and fewer than the batch size only if nothing is left; it marks the oldest of them and nothing else. Whatever
      happens, the broker gets the events of at most as many of the oldest rows, in their order and each once. */
  lemma BatchInWords(
    t: Table, sent: seq<Event>, locked: set<nat>, size: nat, trouble: Trouble, t': Table, sent': seq<Event>,
    published: nat)
    requires BatchRan(t, sent, locked, size, trouble, t', sent', published)
    ensures var pending, more := Pending(t, locked), |sent'| - |sent|;
            && published <= size && published <= |pending|
            && (trouble == NoTrouble || published > 0 ==> published == |pending| || published == size)
            && (trouble == NoTrouble && published < size ==> Pending(t', locked) == [])
            && (published > 0 ==> more == published) && 0 <= more <= size && more <= |pending|
            && sent' == sent + EventsAt(t, pending[..more])
            && |t'| == |t|
            && (forall i {:trigger t'[i]} :: 0 <= i < |t| ==>
                  && t'[i].event == t[i].event
                  && (i in pending[..published] ==> t'[i].published && t'[i].attempts == t[i].attempts + 1)
                  && (i !in pending[..published] ==> t'[i] == t[i]))
  {
    var batch := Batch(t, locked, size);
    BatchIsOldest(t, locked, size);
    assert batch == Pending(t, locked)[..|batch|];
    assert batch[..Sent(trouble, |batch|)] == Pending(t, locked)[..Sent(trouble, |batch|)];
    BatchesDrain(t, locked, size);
  }

  /** A batch that nothing disturbs brings the end closer, and an empty one is the end. */
  lemma {:induction false} BatchShrinks(t: Table, locked: set<nat>, size: nat, t': Table)
    requires size > 0 && t' == Mark(t, Batch(t, locked, size))
    ensures |Batch(t, locked, size)| > 0 ==> |Pending(t', locked)| < |Pending(t, locked)|
    ensures |Batch(t, locked, size)| == 0 ==> Pending(t', locked) == []
  {
    BatchesDrain(t, locked, size);
  }

  lemma {:induction false} BatchTowardsEnd(
    t0: Table, sent0: seq<Event>, t: Table, sent: seq<Event>, size: nat, t': Table, sent': seq<Event>, published: nat)
    requires size > 0 && SameEnd(t0, sent0, t, sent, {}) && BatchRan(t, sent, {}, size, NoTrouble, t', sent', published)
    ensures SameEnd(t0, sent0, t', sent', {})
    ensures if published > 0 then |Pending(t', {})| < |Pending(t, {})| else Pending(t', {}) == []
  {
    var batch := Batch(t, {}, size);
    assert batch[..|batch|] == batch;
    BatchKeepsEnd(t0, sent0, t, sent, {}, size);
    BatchShrinks(t, {}, size, t');
  }

  class OutboxPublisher {
    const batchSize: nat
    var table: Table
    var accepted: seq<Event>

    constructor (batchSize: nat, rows: Table)
      ensures this.batchSize == batchSize && table == rows && accepted == []
    {
      this.batchSize, table, accepted := batchSize, rows, [];
    }

    /** `locked` are the rows that other publishers hold: the select statement skips them. */
    method PublishBatch(locked: set<nat>, trouble: Trouble) returns (published: nat)
      modifies this
      ensures BatchRan(old(table), old(accepted), locked, batchSize, trouble, table, accepted, published)
    {
      var rows := Batch(table, locked, batchSize);
      var marked := table;
      var i := 0;
      while i < |rows|
        invariant i <= |rows|
        invariant table == old(table)
        invariant marked == Mark(table, rows[..i])
        invariant accepted == old(accepted) + EventsAt(table, rows[..i])
        invariant trouble.PublishRaises? ==> i <= trouble.at
      {
        var row := rows[i];
        NextOfBatch(table, locked, batchSize, i);
        if trouble.PublishRaises? && trouble.at == i && !trouble.accepted {
          return 0;
        }
        accepted := accepted + [table[row].event];
        if trouble.PublishRaises? && trouble.at == i {
          return 0;
        }
        marked := marked[row := MarkRow(marked[row])];
        i := i + 1;
      }
      assert rows[..i] == rows;
      if trouble == CommitRaises {
        return 0;
      }
      table := marked;
      return |rows|;
    }

    /** `run_forever` until it has nothing left to do, alone and with a broker that accepts everything. */
    method RunUntilIdle()
      requires batchSize > 0
      modifies this
      ensures table == Mark(old(table), Pending(old(table), {})) && Pending(table, {}) == []
      ensures accepted == old(accepted) + EventsAt(old(table), Pending(old(table), {}))
    {
      var published := 1;
      while published > 0
        invariant SameEnd(old(table), old(accepted), table, accepted, {})
        invariant published == 0 ==> Pending(table, {}) == []
        decreases |Pending(table, {})|, published
      {
        ghost var t, sent := table, accepted;
        published := PublishBatch({}, NoTrouble);
        BatchTowardsEnd(old(table), old(accepted), t, sent, batchSize, table, accepted, published);
      }
      NothingPending(table, {}, old(table), old(accepted), accepted);
    }
  }
}
