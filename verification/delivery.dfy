/** app/common/messaging.py: the retry queue, the dead-letter queue and the count of failed attempts.

    Taken from RabbitMQ: dead-lettering a message counts it in the `x-death` header entry for the
    (queue, reason) pair, and moves that entry to the front. */
module Delivery {
  import opened Events

  datatype Death = Death(queue: string, reason: string, count: nat)

  type Headers = seq<Death>

  const REJECTED := "rejected"
  const EXPIRED := "expired"

  function RetryQueue(queue: string): string {
    queue + ".retry"
  }

  predicate Matches(d: Death, queue: string, reason: string) {
    d.queue == queue && d.reason == reason
  }

  /** The entry for a (queue, reason) pair, or `|h|` when there is none. */
  function EntryFor(h: Headers, queue: string, reason: string): (i: nat)
    ensures i <= |h|
    ensures i < |h| ==> Matches(h[i], queue, reason)
  {
    if h == [] then 0
    else if Matches(h[0], queue, reason) then 0
    else 1 + EntryFor(h[1..], queue, reason)
  }

  /** The broker's bookkeeping when a message leaves `queue` for `reason`. */
  function DeadLettered(h: Headers, queue: string, reason: string): Headers {
    var i := EntryFor(h, queue, reason);
    if i < |h| then [Death(queue, reason, h[i].count + 1)] + (h[..i] + h[i + 1..])
    else [Death(queue, reason, 1)] + h
  }

  function Tally(h: Headers, queue: string, reason: string): nat {
    if h == [] then 0
    else (if Matches(h[0], queue, reason) then h[0].count else 0) + Tally(h[1..], queue, reason)
  }

  /** `_retry_count`: how often this queue's consumer rejected the message. */
  function RetryCount(h: Headers, queue: string): nat {
    Tally(h, queue, REJECTED)
  }

  lemma {:induction false} TallyConcat(a: Headers, b: Headers, queue: string, reason: string)
    ensures Tally(a + b, queue, reason) == Tally(a, queue, reason) + Tally(b, queue, reason)
  {
    if a == [] {
      assert a + b == b;
    } else {
      assert (a + b)[0] == a[0] && (a + b)[1..] == a[1..] + b;
      TallyConcat(a[1..], b, queue, reason);
    }
  }

  /** A dead-lettering adds one to the tally of its own (queue, reason) pair and to no other. */
  lemma DeadLetteredCountsOne(h: Headers, queue: string, reason: string, q: string, r: string)
    ensures Tally(DeadLettered(h, queue, reason), q, r)
         == Tally(h, q, r) + (if q == queue && r == reason then 1 else 0)
  {
    var i := EntryFor(h, queue, reason);
    if i < |h| {
      var rest := h[..i] + h[i + 1..];
      assert ([Death(queue, reason, h[i].count + 1)] + rest)[1..] == rest;
      TallyConcat(h[..i], h[i + 1..], q, r);
      TallyConcat(h[..i], h[i..], q, r);
      assert h[..i] + h[i..] == h;
      assert h[i..][1..] == h[i + 1..];
    } else {
      assert ([Death(queue, reason, 1)] + h)[1..] == h;
    }
  }

  /** A hop that the broker makes a message take, from any queue and for any reason. */
  datatype Hop = Hop(queue: string, reason: string)

  function HeadersAfter(hops: seq<Hop>): Headers {
    if hops == [] then []
    else
      var last := hops[|hops| - 1];
      DeadLettered(HeadersAfter(hops[..|hops| - 1]), last.queue, last.reason)
  }

  function Rejections(hops: seq<Hop>, queue: string): nat {
    if hops == [] then 0
    else Rejections(hops[..|hops| - 1], queue) + (if hops[|hops| - 1] == Hop(queue, "rejected") then 1 else 0)
  }

  /** Whatever else the header records, the consumer reads exactly its own earlier rejections from it. */
  lemma {:induction false} RetryCountIsExact(hops: seq<Hop>, queue: string)
    ensures RetryCount(HeadersAfter(hops), queue) == Rejections(hops, queue)
  {
    if hops != [] {
      var prefix, last := hops[..|hops| - 1], hops[|hops| - 1];
      RetryCountIsExact(prefix, queue);
      DeadLetteredCountsOne(HeadersAfter(prefix), last.queue, last.reason, queue, REJECTED);
    }
  }

  predicate OneEntryPerPair(h: Headers) {
    forall i, j {:trigger h[i], h[j]} :: 0 <= i < j < |h| ==> !Matches(h[i], h[j].queue, h[j].reason)
  }

  lemma {:induction false} FirstEntry(h: Headers, queue: string, reason: string, k: nat)
    requires k < EntryFor(h, queue, reason)
    ensures k < |h| && !Matches(h[k], queue, reason)
  {
    if k > 0 {
      FirstEntry(h[1..], queue, reason, k - 1);
    }
  }

  lemma DeadLetteringKeepsPairs(h: Headers, queue: string, reason: string)
    requires OneEntryPerPair(h)
    ensures OneEntryPerPair(DeadLettered(h, queue, reason))
  {
    var i, h' := EntryFor(h, queue, reason), DeadLettered(h, queue, reason);
    forall j, k | 0 <= j < k < |h'|
      ensures !Matches(h'[j], h'[k].queue, h'[k].reason)
    {
      if j == 0 {
        var x := if k <= i then k - 1 else if i < |h| then k else k - 1;
        assert h'[k] == h[x];
        if x < i {
          FirstEntry(h, queue, reason, x);
        }
      }
    }
  }

  /** The header has one entry for each queue and reason that the message has left by, and its count is the number
      of times. */
  lemma {:induction false} HeadersAreGrouped(hops: seq<Hop>)
    ensures OneEntryPerPair(HeadersAfter(hops))
  {
    if hops != [] {
      var prefix, last := hops[..|hops| - 1], hops[|hops| - 1];
      HeadersAreGrouped(prefix);
      DeadLetteringKeepsPairs(HeadersAfter(prefix), last.queue, last.reason);
    }
  }

  /** Which of a consumer's three queues a message is in. */
  datatype Stage = Main | Retry | Dead

  /** Where a message rests, and what its header records. */
  datatype Rest = Rest(stage: Stage, headers: Headers)

  predicate Exhausted(h: Headers, queue: string, maxRetries: nat) {
    RetryCount(h, queue) >= maxRetries
  }

  /** A delivery that the consumer answers with a failure. */
  function AfterReject(h: Headers, queue: string, maxRetries: nat): Rest {
    if Exhausted(h, queue, maxRetries) then Rest(Dead, h) else Rest(Retry, DeadLettered(h, queue, REJECTED))
  }

  /** The delay of the retry queue has passed. */
  function AfterExpiry(h: Headers, queue: string): Rest {
    Rest(Main, DeadLettered(h, RetryQueue(queue), EXPIRED))
  }

  /** A failure counts once, unless it is the last one; an expiry never counts as a failure. */
  lemma RestCounts(h: Headers, queue: string, maxRetries: nat)
    ensures RetryCount(AfterReject(h, queue, maxRetries).headers, queue)
         == RetryCount(h, queue) + (if Exhausted(h, queue, maxRetries) then 0 else 1)
    ensures RetryCount(AfterExpiry(h, queue).headers, queue) == RetryCount(h, queue)
    ensures Tally(AfterExpiry(h, queue).headers, RetryQueue(queue), "expired")
         == Tally(h, RetryQueue(queue), "expired") + 1
  {
    DeadLetteredCountsOne(h, queue, REJECTED, queue, REJECTED);
    DeadLetteredCountsOne(h, RetryQueue(queue), EXPIRED, queue, REJECTED);
    DeadLetteredCountsOne(h, RetryQueue(queue), EXPIRED, RetryQueue(queue), "expired");
  }

  /** `error` is the `final-error` header. */
  datatype Message = Message(event: Event, headers: Headers, error: Option<string>)

  /** Where a consumer dies, if it does: before the broker hears of the delivery's outcome, or after it has
      published to the dead-letter exchange and before the ack. */
  datatype Crash = NoCrash | BeforeAnswer | BeforeAck

  lemma AddedAndTaken(ms: multiset<Message>, m: Message)
    ensures ms + multiset{m} - multiset{m} == ms
  {
  }

  lemma TakenAndAdded(ms: multiset<Message>, m: Message)
    requires m in ms
    ensures ms - multiset{m} + multiset{m} == ms
  {
  }

  /** A service's consumer together with its three queues at the broker. */
  class ReliableConsumer {
    const queueName: string
    const maxRetries: nat
    var main: multiset<Message>
    var retry: multiset<Message>
    var dead: multiset<Message>

    constructor (queueName: string, maxRetries: nat)
      ensures this.queueName == queueName && this.maxRetries == maxRetries && main == retry == dead == multiset{}
    {
      this.queueName, this.maxRetries := queueName, maxRetries;
      main, retry, dead := multiset{}, multiset{}, multiset{};
    }

    /** `failure` is what the handler raised. A message that is not answered stays in the main queue. */
    method OnMessage(m: Message, failure: Option<string>, crash: Crash)
      requires m in main
      modifies this
      ensures crash == NoCrash ==> main == old(main) - multiset{m}
      ensures crash != NoCrash ==> main == old(main)
      ensures var rest := AfterReject(m.headers, queueName, maxRetries);
              && (if failure.Some? && crash == NoCrash && rest.stage == Retry then
                    retry == old(retry) + multiset{m.(headers := rest.headers)}
                  else
                    retry == old(retry))
              && (if failure.Some? && crash != BeforeAnswer && rest.stage == Dead then
                    dead == old(dead) + multiset{m.(error := failure)}
                  else
                    dead == old(dead))
    {
      if failure.None? {
        if crash == NoCrash {
          main := main - multiset{m};
        }
        return;
      }
      var retryCount := CountRejections(m.headers);
      if retryCount >= maxRetries {
        if crash == BeforeAnswer {
          return;
        }
        dead := dead + multiset{m.(error := failure)};
        if crash == BeforeAck {
          return;
        }
        main := main - multiset{m};
      } else if crash == NoCrash {
        main := main - multiset{m};
        retry := retry + multiset{m.(headers := DeadLettered(m.headers, queueName, REJECTED))};
      }
    }

    method CountRejections(deaths: Headers) returns (total: nat)
      ensures total == RetryCount(deaths, queueName)
    {
      total := 0;
      for i := 0 to |deaths|
        invariant total + RetryCount(deaths[i..], queueName) == RetryCount(deaths, queueName)
      {
        if deaths[i].queue == queueName && deaths[i].reason == "rejected" {
          total := total + deaths[i].count;
        }
      }
    }

    /** The retry queue gives a message back: the same event, with one expiry more on record and as many
        failures as before, whatever else the header counts. */
    method Expire(m: Message) returns (m': Message)
      requires m in retry
      modifies this`main, this`retry
      ensures m'.event == m.event && m'.error == m.error
      ensures RetryCount(m'.headers, queueName) == RetryCount(m.headers, queueName)
      ensures forall q, r {:trigger Tally(m'.headers, q, r)} ::
                Tally(m'.headers, q, r) == Tally(m.headers, q, r)
                        + (if q == RetryQueue(queueName) && r == "expired" then 1 else 0)
      ensures retry == old(retry) - multiset{m} && main == old(main) + multiset{m'}
    {
      m' := m.(headers := DeadLettered(m.headers, RetryQueue(queueName), EXPIRED));
      RestCounts(m.headers, queueName, maxRetries);
      forall q, r
        ensures Tally(m'.headers, q, r) == Tally(m.headers, q, r)
                + (if q == RetryQueue(queueName) && r == "expired" then 1 else 0)
      {
        DeadLetteredCountsOne(m.headers, RetryQueue(queueName), EXPIRED, q, r);
      }
      retry := retry - multiset{m};
      main := main + multiset{m'};
    }

    /** One failure with a retry left: the message comes back with one failure more on record. */
    method FailOnce(m: Message, error: string) returns (m': Message)
      requires m in main && RetryCount(m.headers, queueName) < maxRetries
      modifies this
      ensures m'.event == m.event && RetryCount(m'.headers, queueName) == RetryCount(m.headers, queueName) + 1
      ensures main == old(main) - multiset{m} + multiset{m'} && retry == old(retry) && dead == old(dead)
    {
      RestCounts(m.headers, queueName, maxRetries);
      OnMessage(m, Some(error), NoCrash);
      m' := m.(headers := AfterReject(m.headers, queueName, maxRetries).headers);
      AddedAndTaken(old(retry), m');
      m' := Expire(m');
    }

    /** Consuming a message whose handler fails every time: it is called once more than the message may be
        retried, and then the message is dead-lettered with the last error. */
    method ConsumeFailing(m: Message, error: string) returns (calls: nat, last: Message)
      requires m in main && RetryCount(m.headers, queueName) <= maxRetries
      modifies this
      ensures calls == maxRetries + 1 - RetryCount(m.headers, queueName)
      ensures last.event == m.event && last.error == Some(error) && RetryCount(last.headers, queueName) == maxRetries
      ensures main == old(main) - multiset{m} && retry == old(retry) && dead == old(dead) + multiset{last}
    {
      var current := m;
      calls := 0;
      ghost var others := main - multiset{m};
      TakenAndAdded(main, m);
      while RetryCount(current.headers, queueName) < maxRetries
        invariant current.event == m.event
        invariant calls + RetryCount(m.headers, queueName) == RetryCount(current.headers, queueName) <= maxRetries
        invariant main == others + multiset{current} && retry == old(retry) && dead == old(dead)
        decreases maxRetries - RetryCount(current.headers, queueName)
      {
        AddedAndTaken(others, current);
        current := FailOnce(current, error);
        calls := calls + 1;
      }
      AddedAndTaken(others, current);
      OnMessage(current, Some(error), NoCrash);
      calls := calls + 1;
      last := current.(error := Some(error));
    }
  }
}
