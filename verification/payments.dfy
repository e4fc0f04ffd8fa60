/** app/payment_service/service.py: one payment per order. */
module Payments {
  import opened Events

  datatype PaymentStatus = SUCCEEDED | FAILED

  datatype Payment = Payment(
    customerId: string,
    amountCents: int,
    status: PaymentStatus,
    providerReference: Option<Id>,
    failureReason: Option<string>)

  datatype PaymentDb = PaymentDb(payments: map<OrderId, Payment>, processed: set<EventId>, outbox: Outbox)

  const EMPTY := PaymentDb(map[], {}, map[])

  const DECLINE_REASON := "simulated_provider_decline"

  function LowerChar(c: char): char {
    if 'A' <= c <= 'Z' then c - 'A' + 'a' else c
  }

  /** `str.lower()`, as far as a comparison with an ASCII string can tell. */
  function Lower(s: string): string {
    seq(|s|, i requires 0 <= i < |s| => LowerChar(s[i]))
  }

  predicate EndsWith(s: string, suffix: string) {
    |s| >= |suffix| && s[|s| - |suffix|..] == suffix
  }

  predicate ShouldFailPayment(customerId: string, amountCents: int) {
    EndsWith(Lower(customerId), "-fail") || amountCents <= 0
  }

  /** A positive amount is declined exactly for customers whose last five characters spell the suffix, in any case. */
  lemma DeclinedExactlyForTheSuffix(customerId: string, amountCents: int)
    ensures ShouldFailPayment(customerId, amountCents) <==>
            || amountCents < 1
            || (&& |customerId| >= 5
                && var s := customerId[|customerId| - 5..];
                   s[0] == '-' && s[1] in "fF" && s[2] in "aA" && s[3] in "iI" && s[4] in "lL")
  {
    if |customerId| >= 5 {
      var n := |customerId| - 5;
      var tail := Lower(customerId)[n..];
      assert forall k :: 0 <= k < 5 ==> tail[k] == LowerChar(customerId[n + k]);
      assert tail == [tail[0], tail[1], tail[2], tail[3], tail[4]];
      assert EndsWith(Lower(customerId), "-fail") <==> tail == "-fail";
      assert tail == "-fail" <==>
            tail[0] == '-' && tail[1] == 'f' && tail[2] == 'a' && tail[3] == 'i' && tail[4] == 'l';
    }
  }

  /** The one transaction that records a payment, for an order that has none. */
  function Charge(db: PaymentDb, e: Event, o: OrderId, unused: Id): Tx<PaymentDb> {
    if e.payload.customerId.None? || e.payload.amountCents.None? then Raised
    else
      var customerId, amountCents := e.payload.customerId.value, e.payload.amountCents.value;
      if ShouldFailPayment(customerId, amountCents) then
        var declined := CreateEvent(PaymentFailed, o, e.payload.(reason := Some(DECLINE_REASON)), e.correlation,
                                    unused);
        Ok(PaymentDb(
             db.payments[o := Payment(customerId, amountCents, FAILED, None, Some(DECLINE_REASON))],
             db.processed + {e.id},
             AddOutbox(db.outbox, declined)),
           unused + IDS_PER_EVENT)
      else
        var reference := unused + IDS_PER_EVENT;
        var accepted := CreateEvent(PaymentSucceeded, o, e.payload.(providerReference := Some(reference)),
                                    e.correlation, unused);
        Ok(PaymentDb(
             db.payments[o := Payment(customerId, amountCents, SUCCEEDED, Some(reference), None)],
             db.processed + {e.id},
             AddOutbox(db.outbox, accepted)),
           unused + IDS_PER_EVENT + 1)
  }

  function Handle(db: PaymentDb, e: Event, unused: Id): Tx<PaymentDb> {
    var o := OrderIdOf(e);
    if e.id in db.processed then Ok(db, unused)
    else if o in db.payments then Ok(db.(processed := db.processed + {e.id}), unused)
    else Charge(db, e, o, unused)
  }

  /** The service's session. */
  class PaymentStore {
    var payments: map<OrderId, Payment>
    var processed: set<EventId>
    var outbox: Outbox
    var next: Id

    ghost function Db(): PaymentDb
      reads this
    {
      PaymentDb(payments, processed, outbox)
    }

    constructor ()
      ensures Db() == EMPTY && next == 0
    {
      payments, processed, outbox, next := map[], {}, map[], 0;
    }

    method HandleDomainEvent(e: Event) returns (ok: bool)
      modifies this
      ensures ok == Handle(old(Db()), e, old(next)).Ok?
      ensures ok ==> Ok(Db(), next) == Handle(old(Db()), e, old(next))
      ensures !ok ==> Db() == old(Db()) && next == old(next)
    {
      if e.id in processed {
        return true;
      }
      var o := OrderIdOf(e);
      if o in payments {
        processed := processed + {e.id};
        return true;
      }
      if e.payload.customerId.None? || e.payload.amountCents.None? {
        return false;
      }
      var customerId, amountCents := e.payload.customerId.value, e.payload.amountCents.value;
      var payment, result;
      if ShouldFailPayment(customerId, amountCents) {
        payment := Payment(customerId, amountCents, FAILED, None, Some(DECLINE_REASON));
        result := CreateEvent(PaymentFailed, o, e.payload.(reason := Some(DECLINE_REASON)), e.correlation, next);
        next := next + IDS_PER_EVENT;
      } else {
        var reference := next + IDS_PER_EVENT;
        payment := Payment(customerId, amountCents, SUCCEEDED, Some(reference), None);
        result := CreateEvent(PaymentSucceeded, o, e.payload.(providerReference := Some(reference)), e.correlation,
                              next);
        next := next + IDS_PER_EVENT + 1;
      }
      payments := payments[o := payment];
      processed := processed + {e.id};
      outbox := AddOutbox(outbox, result);
      ok := true;
    }
  }
}
