/** Idempotent order creation under races: any number of `create_order` calls, split at the first read
    and the commit, interleaved with each other and with the order service's event handler. */
module CreationRaces {
  import opened Events
  import opened Orders

  type CallerId = nat

  datatype Progress =
    | Asked
    /** the first read found no order with the key */
    | Missed
    /** the commit failed on the unique index and was rolled back */
    | Conflict
    | Told(order: OrderId, created: bool)
    /** the integrity error was raised again */
    | Failed
    /** the caller or the server died before the answer arrived, or after the order was inserted */
    | Lost(inserted: bool)

  datatype Caller = Caller(request: Request, key: string, progress: Progress)

  datatype Arena = Arena(db: OrderDb, next: Id, callers: map<CallerId, Caller>)

  datatype Action =
    | Arrive(c: CallerId, request: Request, key: string)
    | Look(c: CallerId)
    | Insert(c: CallerId)
    | LookAgain(c: CallerId)
    | Lose(c: CallerId)
    | Deliver(e: Event)

  predicate HasInserted(p: Progress) {
    (p.Told? && p.created) || p == Lost(true)
  }

  predicate At(a: Arena, c: CallerId, p: Progress) {
    c in a.callers && a.callers[c].progress == p
  }

  predicate Can(a: Arena, x: Action) {
    match x
    case Arrive(c, r, _) => c !in a.callers && Admissible(r)
    case Look(c) => At(a, c, Asked)
    case Insert(c) => At(a, c, Missed)
    case LookAgain(c) => At(a, c, Conflict)
    case Lose(c) => c in a.callers
    case Deliver(e) => Orders.Handle(a.db, e, a.next).Ok?
  }

  function Goto(a: Arena, c: CallerId, p: Progress): Arena
    requires c in a.callers
  {
    a.(callers := a.callers[c := a.callers[c].(progress := p)])
  }

  function Do(a: Arena, x: Action): Arena
    requires Can(a, x)
  {
    match x
    case Arrive(c, r, key) => a.(callers := a.callers[c := Caller(r, key, Asked)])
    case Look(c) =>
      var key := a.callers[c].key;
      Goto(a, c, if key in a.db.keys then Told(a.db.keys[key], false) else Missed)
    case Insert(c) =>
      var caller := a.callers[c];
      if caller.key in a.db.keys then Goto(a, c, Conflict)
      else Goto(a, c, Told(a.next, true)).(db := Orders.Insert(a.db, caller.request, caller.key, a.next),
             next := a.next + IDS_PER_ORDER)
    case LookAgain(c) =>
      var key := a.callers[c].key;
      Goto(a, c, if key in a.db.keys then Told(a.db.keys[key], false) else Failed)
    case Lose(c) => Goto(a, c, Lost(HasInserted(a.callers[c].progress)))
    case Deliver(e) => a.(db := Orders.Handle(a.db, e, a.next).db, next := Orders.Handle(a.db, e, a.next).next)
  }

  predicate IsRun(a: Arena, xs: seq<Action>)
    decreases |xs|
  {
    xs == [] || (Can(a, xs[0]) && IsRun(Do(a, xs[0]), xs[1..]))
  }

  function Exec(a: Arena, xs: seq<Action>): Arena
    requires IsRun(a, xs)
    decreases |xs|
  {
    if xs == [] then a else Exec(Do(a, xs[0]), xs[1..])
  }

  // ----- the invariant -----

  /** The order of a key, its unique index entry, and its one `order.created` row. */
  predicate OrderSound(db: OrderDb, o: OrderId)
    requires o in db.orders
  {
    && db.orders[o].key in db.keys && db.keys[db.orders[o].key] == o
    && o + 2 in db.outbox && db.outbox[o + 2].event == CreatedEvent(o, db.orders[o], o + 2)
  }

  predicate KeySound(db: OrderDb, k: string)
    requires k in db.keys
  {
    db.keys[k] in db.orders && db.orders[db.keys[k]].key == k
  }

  predicate RowSound(a: Arena, id: EventId)
    requires id in a.db.outbox
  {
    id < a.next && (a.db.outbox[id].event.kind.OrderCreated? ==>
          a.db.outbox[id].event.aggregate in a.db.orders && id == a.db.outbox[id].event.aggregate + 2)
  }

  predicate CallerSound(a: Arena, c: CallerId)
    requires c in a.callers
  {
    match a.callers[c].progress
    case Told(o, _) => a.callers[c].key in a.db.keys && a.db.keys[a.callers[c].key] == o
    case Conflict => a.callers[c].key in a.db.keys
    case Lost(inserted) => inserted ==> a.callers[c].key in a.db.keys
    case Failed => false
    case _ => true
  }

  /** The caller's insertion of the key's order was committed. */
  predicate Inserted(a: Arena, c: CallerId, key: string) {
    c in a.callers && a.callers[c].key == key && HasInserted(a.callers[c].progress)
  }

  predicate OneInserter(a: Arena, c: CallerId, d: CallerId) {
    (c in a.callers && Inserted(a, c, a.callers[c].key) && Inserted(a, d, a.callers[c].key)) ==> c == d
  }

  ghost predicate Claimed(a: Arena, k: string) {
    exists c :: Inserted(a, c, k)
  }

  ghost predicate Consistent(a: Arena) {
    && (forall o {:trigger OrderSound(a.db, o)} :: o in a.db.orders ==> OrderSound(a.db, o) && o < a.next)
    && (forall k {:trigger KeySound(a.db, k)} :: k in a.db.keys ==> KeySound(a.db, k))
    && (forall id {:trigger RowSound(a, id)} :: id in a.db.outbox ==> RowSound(a, id))
  }

  ghost predicate Sound(a: Arena, known: set<string>) {
    && Consistent(a)
    && (forall c {:trigger CallerSound(a, c)} :: c in a.callers ==> CallerSound(a, c))
    && (forall c, d {:trigger OneInserter(a, c, d)} :: OneInserter(a, c, d))
    && (forall k {:trigger Claimed(a, k)} :: k in a.db.keys && k !in known ==> Claimed(a, k))
    && (forall c {:trigger Inserted(a, c, a.callers[c].key)} :: c in a.callers && Inserted(a, c, a.callers[c].key) ==>
          a.callers[c].key !in known)
    && (forall k {:trigger k in known} :: k in known ==> k in a.db.keys)
  }

  // ----- the callers' steps -----

  /** A step that leaves the database alone and changes nobody's record of having inserted. */
  lemma TellingKeepsSound(a: Arena, a': Arena, c: CallerId, known: set<string>)
    requires Sound(a, known) && a'.db == a.db && a'.next == a.next
    requires c in a'.callers && a'.callers == a.callers[c := a'.callers[c]]
    requires c in a.callers ==> a.callers[c].key == a'.callers[c].key
    requires CallerSound(a', c)
    requires HasInserted(a'.callers[c].progress) <==> c in a.callers && HasInserted(a.callers[c].progress)
    ensures Sound(a', known)
  {
    ConsistentKept(a, a');
    forall x | x in a'.callers ensures CallerSound(a', x) {
      assert x != c ==> CallerSound(a, x);
    }
    forall x, y ensures OneInserter(a', x, y) {
      assert OneInserter(a, x, y);
    }
    forall k | k in a'.db.keys && k !in known ensures Claimed(a', k) {
      assert Claimed(a, k);
      var w :| Inserted(a, w, k);
      assert Inserted(a', w, k);
    }
    forall x | x in a'.callers && Inserted(a', x, a'.callers[x].key) ensures a'.callers[x].key !in known {
      assert Inserted(a, x, a.callers[x].key);
    }
  }

  lemma ConsistentKept(a: Arena, a': Arena)
    requires Consistent(a) && a'.db == a.db && a'.next == a.next
    ensures Consistent(a')
  {
    forall o | o in a'.db.orders ensures OrderSound(a'.db, o) && o < a'.next {
      assert OrderSound(a.db, o);
    }
    forall id | id in a'.db.outbox ensures RowSound(a', id) {
      assert RowSound(a, id);
    }
  }

  lemma NextIsNew(a: Arena)
    requires Consistent(a)
    ensures a.next !in a.db.orders
  {
    forall o | o in a.db.orders ensures o < a.next {
      assert OrderSound(a.db, o);
    }
  }

  lemma InsertKeepsConsistent(a: Arena, r: Request, key: string, a': Arena)
    requires Consistent(a) && key !in a.db.keys
    requires a'.db == Orders.Insert(a.db, r, key, a.next) && a'.next == a.next + IDS_PER_ORDER
    ensures Consistent(a')
  {
    NextIsNew(a);
    forall o | o in a'.db.orders ensures OrderSound(a'.db, o) && o < a'.next {
      assert o in a.db.orders ==> OrderSound(a.db, o);
      assert a.next + 2 in a.db.outbox ==> RowSound(a, a.next + 2);
    }
    forall k | k in a'.db.keys ensures KeySound(a'.db, k) {
      assert k in a.db.keys ==> KeySound(a.db, k);
    }
    forall id | id in a'.db.outbox ensures RowSound(a', id) {
      assert id in a.db.outbox ==> RowSound(a, id);
    }
  }

  lemma InsertKeepsSound(a: Arena, c: CallerId, known: set<string>)
    requires Sound(a, known) && At(a, c, Missed) && a.callers[c].key !in a.db.keys
    ensures Sound(Do(a, Action.Insert(c)), known)
  {
    var a', key := Do(a, Action.Insert(c)), a.callers[c].key;
    InsertKeepsConsistent(a, a.callers[c].request, key, a');
    forall x | x in a'.callers ensures CallerSound(a', x) {
      assert CallerSound(a, x);
    }
    forall x, y ensures OneInserter(a', x, y) {
      assert OneInserter(a, x, y);
      assert x in a.callers ==> CallerSound(a, x);
      assert y in a.callers ==> CallerSound(a, y);
    }
    forall k | k in a'.db.keys && k !in known ensures Claimed(a', k) {
      if k == key {
        assert Inserted(a', c, k);
      } else {
        assert Claimed(a, k);
        var w :| Inserted(a, w, k);
        assert Inserted(a', w, k);
      }
    }
    forall x | x in a'.callers && Inserted(a', x, a'.callers[x].key) ensures a'.callers[x].key !in known {
      assert x != c ==> Inserted(a, x, a.callers[x].key);
    }
  }

  // ----- the event handler's steps -----

  predicate SameIdentity(a: OrderDb, b: OrderDb, o: OrderId) {
    && (o in a.orders <==> o in b.orders)
    && (o in a.orders ==> b.orders[o] == a.orders[o].(status := b.orders[o].status, reason := b.orders[o].reason))
  }

  lemma DeliverKeepsConsistent(a: Arena, e: Event)
    requires Consistent(a) && Orders.Handle(a.db, e, a.next).Ok?
    ensures Consistent(Do(a, Deliver(e)))
  {
    var a' := Do(a, Deliver(e));
    assert a.next in a.db.outbox ==> RowSound(a, a.next);
    assert a.next + IDS_PER_EVENT in a.db.outbox ==> RowSound(a, a.next + IDS_PER_EVENT);
    forall o | o in a'.db.orders ensures OrderSound(a'.db, o) && o < a'.next {
      assert SameIdentity(a.db, a'.db, o);
      assert OrderSound(a.db, o);
    }
    forall k | k in a'.db.keys ensures KeySound(a'.db, k) {
      assert KeySound(a.db, k) && SameIdentity(a.db, a'.db, a.db.keys[k]);
    }
    forall id | id in a'.db.outbox ensures RowSound(a', id) {
      if id in a.db.outbox {
        assert RowSound(a, id) && SameIdentity(a.db, a'.db, a.db.outbox[id].event.aggregate);
      }
    }
  }

  lemma DeliverKeepsSound(a: Arena, e: Event, known: set<string>)
    requires Sound(a, known) && Orders.Handle(a.db, e, a.next).Ok?
    ensures Sound(Do(a, Deliver(e)), known)
  {
    var a' := Do(a, Deliver(e));
    DeliverKeepsConsistent(a, e);
    forall x | x in a'.callers ensures CallerSound(a', x) {
      assert CallerSound(a, x);
    }
    forall x, y ensures OneInserter(a', x, y) {
      assert OneInserter(a, x, y);
    }
    forall k | k in a'.db.keys && k !in known ensures Claimed(a', k) {
      assert Claimed(a, k);
      var w :| Inserted(a, w, k);
      assert Inserted(a', w, k);
    }
    forall x | x in a'.callers && Inserted(a', x, a'.callers[x].key) ensures a'.callers[x].key !in known {
      assert Inserted(a, x, a.callers[x].key);
    }
  }

  lemma StepKeepsSound(a: Arena, x: Action, known: set<string>)
    requires Sound(a, known) && Can(a, x)
    ensures Sound(Do(a, x), known)
  {
    match x
    case Deliver(e) => DeliverKeepsSound(a, e, known);
    case Insert(c) =>
      if a.callers[c].key in a.db.keys {
        TellingKeepsSound(a, Do(a, x), c, known);
      } else {
        InsertKeepsSound(a, c, known);
      }
    case Arrive(c, _, _) => TellingKeepsSound(a, Do(a, x), c, known);
    case Look(c) => TellingKeepsSound(a, Do(a, x), c, known);
    case Lose(c) =>
      assert CallerSound(a, c);
      TellingKeepsSound(a, Do(a, x), c, known);
    case LookAgain(c) =>
      assert CallerSound(a, c);
      TellingKeepsSound(a, Do(a, x), c, known);
  }

  lemma {:induction false} RunKeepsSound(a: Arena, xs: seq<Action>, known: set<string>)
    requires Sound(a, known) && IsRun(a, xs)
    ensures Sound(Exec(a, xs), known)
    decreases |xs|
  {
    if xs != [] {
      StepKeepsSound(a, xs[0], known);
      RunKeepsSound(Do(a, xs[0]), xs[1..], known);
    }
  }

  // ----- what callers can rely on -----

  predicate Announces(db: OrderDb, id: EventId, o: OrderId) {
    id in db.outbox && db.outbox[id].event.kind.OrderCreated? && db.outbox[id].event.aggregate == o
  }

  /** A key never has two orders, its order has exactly one `order.created` row, every caller that got an
      answer got that order, and no caller is ever told of an integrity error. */
  lemma OneOrderPerKey(db: OrderDb, next: Id, xs: seq<Action>)
    requires Consistent(Arena(db, next, map[])) && IsRun(Arena(db, next, map[]), xs)
    ensures var a := Exec(Arena(db, next, map[]), xs);
            && (forall o, p :: o in a.db.orders && p in a.db.orders && a.db.orders[o].key == a.db.orders[p].key ==>
                  o == p)
            && (forall o :: o in a.db.orders ==>
                  exists id :: id in a.db.outbox && a.db.outbox[id].event == CreatedEvent(o, a.db.orders[o], id))
            && (forall o, i, j :: Announces(a.db, i, o) && Announces(a.db, j, o) ==> i == j)
            && (forall c :: c in a.callers ==> a.callers[c].progress != Failed)
            && (forall c :: c in a.callers && a.callers[c].progress.Told? ==>
                  var o := a.callers[c].progress.order; o in a.db.orders && a.db.orders[o].key == a.callers[c].key)
  {
    var a0 := Arena(db, next, map[]);
    var a := Exec(a0, xs);
    RunKeepsSound(a0, xs, db.keys.Keys);
    forall o, p | o in a.db.orders && p in a.db.orders && a.db.orders[o].key == a.db.orders[p].key ensures o == p {
      assert OrderSound(a.db, o) && OrderSound(a.db, p);
    }
    forall o | o in a.db.orders
      ensures exists id :: id in a.db.outbox && a.db.outbox[id].event == CreatedEvent(o, a.db.orders[o], id)
    {
      assert OrderSound(a.db, o);
    }
    forall o, i, j | Announces(a.db, i, o) && Announces(a.db, j, o) ensures i == j {
      assert RowSound(a, i) && RowSound(a, j);
    }
    forall c | c in a.callers
      ensures a.callers[c].progress != Failed
      ensures a.callers[c].progress.Told? ==>
                var o := a.callers[c].progress.order; o in a.db.orders && a.db.orders[o].key == a.callers[c].key
    {
      assert CallerSound(a, c);
      if a.callers[c].progress.Told? {
        assert KeySound(a.db, a.callers[c].key);
      }
    }
  }

  predicate Inserts(a: Arena, x: Action, key: string) {
    x.Insert? && x.c in a.callers && a.callers[x.c].key == key && key !in a.db.keys
  }

  /** How many callers' commits insert an order for the key in a run. */
  function Insertions(a: Arena, xs: seq<Action>, key: string): nat
    requires IsRun(a, xs)
    decreases |xs|
  {
    if xs == [] then 0 else (if Inserts(a, xs[0], key) then 1 else 0) + Insertions(Do(a, xs[0]), xs[1..], key)
  }

  lemma KeysAfterStep(a: Arena, x: Action, key: string)
    requires Can(a, x)
    ensures key in Do(a, x).db.keys <==> key in a.db.keys || Inserts(a, x, key)
  {
  }

  lemma {:induction false} InsertionsCounted(a: Arena, xs: seq<Action>, key: string)
    requires IsRun(a, xs)
    ensures Insertions(a, xs, key) == (if key !in a.db.keys && key in Exec(a, xs).db.keys then 1 else 0)
    ensures key in a.db.keys ==> key in Exec(a, xs).db.keys
    decreases |xs|
  {
    if xs != [] {
      KeysAfterStep(a, xs[0], key);
      InsertionsCounted(Do(a, xs[0]), xs[1..], key);
    }
  }

  predicate ToldCreated(a: Arena, c: CallerId, key: string) {
    c in a.callers && a.callers[c].key == key && a.callers[c].progress.Told? && a.callers[c].progress.created
  }

  /** In every run, lost callers included: a new key that has an order in the end was inserted exactly once, by
      exactly one caller, who was told that they created it or was cut off after that; nobody else is told so,
      and a key without an order was inserted by nobody. */
  lemma ExactlyOneCreates(db: OrderDb, next: Id, xs: seq<Action>, key: string)
    requires Consistent(Arena(db, next, map[])) && IsRun(Arena(db, next, map[]), xs) && key !in db.keys
    ensures var a := Exec(Arena(db, next, map[]), xs);
            && Insertions(Arena(db, next, map[]), xs, key) == (if key in a.db.keys then 1 else 0)
            && (key in a.db.keys <==> exists c :: Inserted(a, c, key))
            && (forall c, d :: Inserted(a, c, key) && Inserted(a, d, key) ==> c == d)
            && (forall c :: Inserted(a, c, key) <==>
                  || ToldCreated(a, c, key)
                  || (c in a.callers && a.callers[c].key == key && a.callers[c].progress == Lost(true)))
  {
    var a0 := Arena(db, next, map[]);
    var a := Exec(a0, xs);
    RunKeepsSound(a0, xs, db.keys.Keys);
    InsertionsCounted(a0, xs, key);
    forall c, d | Inserted(a, c, key) && Inserted(a, d, key) ensures c == d {
      assert OneInserter(a, c, d);
    }
    if key in a.db.keys {
      assert Claimed(a, key);
    }
    forall c | Inserted(a, c, key) ensures key in a.db.keys {
      assert CallerSound(a, c);
    }
  }

  /** A caller with a known key waits, has been told the key's order, or was lost; it has tried no insertion. */
  predicate Replayed(a: Arena, c: CallerId, key: string, o: OrderId) {
    && key in a.db.keys && a.db.keys[key] == o
    && (c in a.callers && a.callers[c].key == key ==>
          a.callers[c].progress in {Asked, Told(o, false), Lost(false)})
  }

  lemma {:induction false} RunKeepsReplayed(a: Arena, xs: seq<Action>, c: CallerId, key: string, o: OrderId)
    requires IsRun(a, xs) && Replayed(a, c, key, o)
    ensures Replayed(Exec(a, xs), c, key, o)
    decreases |xs|
  {
    if xs != [] {
      RunKeepsReplayed(Do(a, xs[0]), xs[1..], c, key, o);
    }
  }

  /** For a key that was known already, every caller who gets an answer gets the key's order, as not created, from
      its first read: nobody tries to insert, let alone inserts. */
  lemma KnownKeysAreReplayed(db: OrderDb, next: Id, xs: seq<Action>, key: string, c: CallerId)
    requires IsRun(Arena(db, next, map[]), xs) && key in db.keys
    ensures var a := Exec(Arena(db, next, map[]), xs);
            && key in a.db.keys && a.db.keys[key] == db.keys[key]
            && !Inserted(a, c, key) && !ToldCreated(a, c, key)
            && (c in a.callers && a.callers[c].key == key ==>
                  a.callers[c].progress in {Asked, Told(db.keys[key], false), Lost(false)})
  {
    RunKeepsReplayed(Arena(db, next, map[]), xs, c, key, db.keys[key]);
  }
}
