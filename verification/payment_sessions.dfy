/** The payment service with any number of competing consumers: each handler reads without locks, and its
    commit fails on a duplicate primary key, of the payment or of the processed event. */
module PaymentSessions {
  import opened Events
  import opened Payments

  type Sid = nat

  datatype Pc =
    | Begun
    /** the event was not among the processed ones */
    | Deduped
    /** the order had a payment */
    | Found
    /** the order had no payment; the provider has been asked */
    | Missing
    | Ended

  datatype Session = Session(event: Event, pc: Pc)

  datatype Machine = Machine(db: PaymentDb, next: Id, sessions: map<Sid, Session>)

  datatype Action = Start(sid: Sid, event: Event) | Reads(sid: Sid) | Commits(sid: Sid) | Aborts(sid: Sid)

  predicate Can(m: Machine, a: Action) {
    match a
    case Start(sid, _) => sid !in m.sessions
    case Reads(sid) => sid in m.sessions && (m.sessions[sid].pc.Begun? || m.sessions[sid].pc.Deduped?)
    case Commits(sid) => sid in m.sessions && (m.sessions[sid].pc.Found? || m.sessions[sid].pc.Missing?)
    case Aborts(sid) => sid in m.sessions
  }

  function Goto(m: Machine, sid: Sid, pc: Pc): Machine
    requires sid in m.sessions
  {
    m.(sessions := m.sessions[sid := m.sessions[sid].(pc := pc)])
  }

  /** What a session writes that is ready to; `Raised` on a duplicate key or an incomplete payload. */
  function Written(db: PaymentDb, next: Id, session: Session): Tx<PaymentDb> {
    var e := session.event;
    if e.id in db.processed then Raised
    else if session.pc.Found? then Ok(db.(processed := db.processed + {e.id}), next)
    else if OrderIdOf(e) in db.payments then Raised
    else Charge(db, e, OrderIdOf(e), next)
  }

  function Do(m: Machine, a: Action): Machine
    requires Can(m, a)
  {
    match a
    case Start(sid, e) => m.(sessions := m.sessions[sid := Session(e, Begun)])
    case Reads(sid) =>
      var e := m.sessions[sid].event;
      if m.sessions[sid].pc.Begun? then Goto(m, sid, if e.id in m.db.processed then Ended else Deduped)
      else Goto(m, sid, if OrderIdOf(e) in m.db.payments then Found else Missing)
    case Commits(sid) =>
      (match Written(m.db, m.next, m.sessions[sid])
       case Ok(db, next) => Goto(m, sid, Ended).(db := db, next := next)
       case Raised => Goto(m, sid, Ended))
    case Aborts(sid) => Goto(m, sid, Ended)
  }

  predicate IsRun(m: Machine, acts: seq<Action>)
    decreases |acts|
  {
    acts == [] || (Can(m, acts[0]) && IsRun(Do(m, acts[0]), acts[1..]))
  }

  function Exec(m: Machine, acts: seq<Action>): Machine
    requires IsRun(m, acts)
    decreases |acts|
  {
    if acts == [] then m else Exec(Do(m, acts[0]), acts[1..])
  }

  /** A payment that was found is still there. */
  predicate FoundHolds(m: Machine, sid: Sid) {
    sid in m.sessions && m.sessions[sid].pc.Found? ==> OrderIdOf(m.sessions[sid].event) in m.db.payments
  }

  ghost predicate Sound(m: Machine) {
    forall sid {:trigger FoundHolds(m, sid)} :: FoundHolds(m, sid)
  }

  predicate PaymentKept(m: Machine, m': Machine, o: OrderId) {
    o in m.db.payments ==> o in m'.db.payments && m'.db.payments[o] == m.db.payments[o]
  }

  predicate IsCharge(m: Machine, a: Action, o: OrderId) {
    && a.Commits? && a.sid in m.sessions && m.sessions[a.sid].pc.Missing? && OrderIdOf(m.sessions[a.sid].event) == o
    && Written(m.db, m.next, m.sessions[a.sid]).Ok?
  }

  lemma StepKeepsSound(m: Machine, a: Action)
    requires Sound(m) && Can(m, a)
    ensures Sound(Do(m, a))
  {
    forall sid
      ensures FoundHolds(Do(m, a), sid)
    {
      assert FoundHolds(m, sid);
    }
  }

  lemma {:induction false} RunKeepsSound(m: Machine, acts: seq<Action>)
    requires Sound(m) && IsRun(m, acts)
    ensures Sound(Exec(m, acts))
    decreases |acts|
  {
    if acts != [] {
      StepKeepsSound(m, acts[0]);
      RunKeepsSound(Do(m, acts[0]), acts[1..]);
    }
  }

  /** In every interleaving, a commit that succeeds is the handler run alone, all at once, at that moment. */
  lemma PaymentCommitsAreAtomic(db: PaymentDb, next: Id, acts: seq<Action>, sid: Sid)
    requires IsRun(Machine(db, next, map[]), acts)
    requires var m := Exec(Machine(db, next, map[]), acts);
             Can(m, Commits(sid)) && Written(m.db, m.next, m.sessions[sid]).Ok?
    ensures var m := Exec(Machine(db, next, map[]), acts);
            Written(m.db, m.next, m.sessions[sid]) == Payments.Handle(m.db, m.sessions[sid].event, m.next)
  {
    RunKeepsSound(Machine(db, next, map[]), acts);
    assert FoundHolds(Exec(Machine(db, next, map[]), acts), sid);
  }

  /** How many commits of a run charge an order. */
  function Charges(m: Machine, acts: seq<Action>, o: OrderId): nat
    requires IsRun(m, acts)
    decreases |acts|
  {
    if acts == [] then 0 else (if IsCharge(m, acts[0], o) then 1 else 0) + Charges(Do(m, acts[0]), acts[1..], o)
  }

  /** No order is charged twice, whichever events about it are delivered, how often and to how many
      consumers at once; and a payment never changes. */
  lemma {:induction false} ChargedAtMostOnce(m: Machine, acts: seq<Action>, o: OrderId)
    requires IsRun(m, acts)
    ensures Charges(m, acts, o) == (if o !in m.db.payments && o in Exec(m, acts).db.payments then 1 else 0)
    ensures PaymentKept(m, Exec(m, acts), o)
    decreases |acts|
  {
    if acts != [] {
      ChargedAtMostOnce(Do(m, acts[0]), acts[1..], o);
    }
  }

  /** A session for an event that is processed already has asked nobody for a payment and never will. */
  predicate Skips(m: Machine, sid: Sid, e: Event) {
    && sid in m.sessions && m.sessions[sid].event == e && e.id in m.db.processed
    && (m.sessions[sid].pc.Begun? || m.sessions[sid].pc.Ended?)
  }

  /** A repeat that arrives after its event was processed ends without reading or writing any payment. */
  lemma {:induction false} RepeatsAreSkipped(m: Machine, acts: seq<Action>, sid: Sid, e: Event)
    requires Skips(m, sid, e) && IsRun(m, acts)
    ensures Skips(Exec(m, acts), sid, e)
    decreases |acts|
  {
    if acts != [] {
      RepeatsAreSkipped(Do(m, acts[0]), acts[1..], sid, e);
    }
  }
}
