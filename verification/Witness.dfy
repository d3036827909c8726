/** Runs, step by step, to states the theorems speak of, and to the two in which the bookkeeping stops agreeing. */
module Witness {
  import opened Basics
  import opened Lifecycle
  import opened Records
  import opened Evidence
  import opened Tables
  import opened Chains
  import opened Reading
  import opened Protocol
  import opened Consistency
  import opened Reachable
  import opened Index
  import opened Observing
  import opened IndexAgrees
  import opened Bookkeeping
  import opened Arrivals
  import opened Agreement
  import opened Confirmations

  /** A run with one observer at a time, nothing final given up on, and this at its end. */
  ghost predicate Reached(env: Env, w: World) {
    exists ws: seq<World>, ss: seq<Step> :: Ends(env, ws, ss, w)
  }

  ghost predicate Ends(env: Env, ws: seq<World>, ss: seq<Step>, w: World) {
    Run(env, ws, ss) && LoneRun(ws, ss) && TruthfulRun(ws, ss) && ws[|ws| - 1] == w
  }

  lemma Starts(env: Env, w: World)
    requires Initial(env, w)
    ensures Reached(env, w)
  {
    assert Ends(env, [w], [], w);
  }

  lemma Goes(env: Env, w: World, s: Step)
    requires Reached(env, w) && Enabled(env, w, s) && Lone(w, s) && Truthful(w, s)
    ensures Reached(env, Apply(env, w, s))
  {
    var ws: seq<World>, ss: seq<Step> :| Ends(env, ws, ss, w);
    var v := Apply(env, w, s);
    hide Enabled, Lone, Truthful, Initial;
    var vs, rs := ws + [v], ss + [s];
    forall i | 0 <= i < |rs| ensures Next(env, vs[i], rs[i], vs[i + 1]) && Lone(vs[i], rs[i]) && Truthful(vs[i], rs[i]) {
      if i < |ss| {
        assert vs[i] == ws[i] && vs[i + 1] == ws[i + 1] && rs[i] == ss[i];
      }
    }
    assert Ends(env, vs, rs, v);
  }

  lemma ObserverGoes(env: Env, w: World, m: ObserverMove)
    requires Reached(env, w) && ObserverMoves(w, m) && (m.Begin? ==> w.rounds == map[])
    ensures Reached(env, AfterObserver(env, w, m))
  {
    hide Reached, ObserverMoves, AfterObserver;
    Goes(env, w, ByObserver(m));
  }

  lemma ChainGoes(env: Env, w: World, m: ChainMove)
    requires Reached(env, w) && ChainMoves(env, w, m)
    ensures Reached(env, AfterChain(env, w, m))
  {
    hide Reached, ChainMoves, AfterChain;
    Goes(env, w, ByChain(m));
  }

  lemma WorkerGoes(env: Env, w: World, m: WorkerMove)
    requires Reached(env, w) && WorkerMoves(w, m) && !m.GiveUpOn?
    ensures Reached(env, AfterWorker(w, m))
  {
    hide Reached, WorkerMoves, AfterWorker;
    Goes(env, w, ByWorker(m));
  }

  lemma RequestGoes(env: Env, w: World, m: RequestMove)
    requires Reached(env, w) && RequestMoves(env, w, m)
    ensures Reached(env, AfterRequest(env, w, m))
  {
    hide Reached, RequestMoves, AfterRequest;
    Goes(env, w, ByRequest(m));
  }

  /** What every reached state keeps. */
  lemma ReachedKeeps(env: Env, w: World)
    requires Reached(env, w)
    ensures Consistent(w) && Indexed(env, w)
  {
    var ws: seq<World>, ss: seq<Step> :| Ends(env, ws, ss, w);
    hide Next, Lone, Truthful, Initial, Consistent, Indexed;
    ConsistentRun(env, ws, ss, |ws| - 1);
    IndexedRun(env, ws, ss, |ws| - 1);
  }

  lemma ReachedSound(env: Env, w: World)
    requires Reached(env, w)
    ensures AttemptsLinked(w.db) && RefundsLinked(w.db) && ValidChain(w.chain, env.ledger)
  {
    ReachedKeeps(env, w);
    LinkedOf(w);
    Disjoint(w.db);
  }

  // ---- a block that holds one transaction, or none

  /** One transaction in a block, with one transfer of a watched asset. */
  ghost predicate Holds(env: Env, c: Chain, h: nat, x: Tx, t: Transfer) {
    && h < |c.blocks| && c.blocks[h].txs == [x] && x in env.ledger && env.ledger[x] == [t] && t.asset in env.watched
  }

  lemma ScansOne(env: Env, c: Chain, h: nat, x: Tx, t: Transfer)
    requires Holds(env, c, h, x, t)
    ensures KeysIn(c, h, h, env.ledger, env.watched) == [Consumed(t.key, x)]
  {
    assert KeysIn(c, h + 1, h, env.ledger, env.watched) == [];
    assert KeysOfTransfers([t], x, env.watched) == [Consumed(t.key, x)] by {
      assert KeysOfTransfers([t][1..], x, env.watched) == [];
    }
    assert KeysOfTxs([x][1..], env.ledger, env.watched) == [];
    assert KeysOfTxs([x], env.ledger, env.watched) == [Consumed(t.key, x)];
  }

  lemma ScansNone(env: Env, c: Chain, h: nat)
    requires h < |c.blocks| && c.blocks[h].txs == []
    ensures KeysIn(c, h, h, env.ledger, env.watched) == []
  {
    assert KeysIn(c, h + 1, h, env.ledger, env.watched) == [];
  }

  /** The one attempt a key belongs to is what is looked up. */
  lemma LooksOne(db: Rows, a: AttemptId, k: Key, x: Tx)
    requires AttemptsLinked(db) && RefundsLinked(db) && a in db.attempts && db.attempts[a].key == k
    ensures var work := Looked(db, [Consumed(k, x)]);
            && work.todo == [x]
            && k in work.against
            && work.against[k] == Hit(a, db.attempts[a], db.attempts[a].payment, db.payments[db.attempts[a].payment])
  {
    var consumed := [Consumed(k, x)];
    assert consumed[0].key == k;
    assert HoldsAttempt(db, a, k);
    assert !RefundKey(db, k);
    TransactionOf(k, x, Against(db, consumed).Keys + Backs(db, consumed).Keys);
  }

  lemma TransactionOf(k: Key, x: Tx, held: set<Key>)
    requires k in held
    ensures Transactions([Consumed(k, x)], held) == [x]
  {
    var consumed := [Consumed(k, x)];
    var spent: set<Key>, read: set<Tx> := {}, {};
    assert consumed[1..] == [];
    assert TransactionsAfter(consumed[1..], held, spent + {k}, read + {x}) == [];
    assert TransactionsAfter(consumed, held, spent, read) == [x];
  }

  lemma LooksNone(db: Rows)
    ensures var work := Looked(db, []); work.todo == [] && work.seen == [] && work.sent == []
  {
  }

  function SeenAt(db: Rows, a: AttemptId, x: Tx, at: Place, t: Transfer): Option<Seen>
    requires a in db.attempts && db.attempts[a].payment in db.payments
  {
    var attempt := db.attempts[a];
    match Judge(t, at.time, attempt, db.payments[attempt.payment])
    case None => None
    case Some(reason) => Some(Seen(a, attempt, attempt.payment, x, at, t, reason))
  }

  lemma Scanned(env: Env, w: World, h: nat, x: Tx, t: Transfer) returns (v: World)
    requires Reached(env, w) && Reads(w, 0) && w.rounds[0].work.Scanning?
    requires w.rounds[0].first == h && w.rounds[0].last == h && Holds(env, w.chain, h, x, t)
    ensures Reached(env, v) && v == WithWork(w, 0, Looking([Consumed(t.key, x)]))
  {
    hide Reached;
    ObserverGoes(env, w, Scan(0));
    ScansOne(env, w.chain, h, x, t);
    v := DoScan(env, w, 0);
  }

  lemma LookedUp(env: Env, w: World, x: Tx, k: Key, a: AttemptId) returns (v: World)
    requires Reached(env, w) && Reads(w, 0) && w.rounds[0].work == Looking([Consumed(k, x)])
    requires a in w.db.attempts && w.db.attempts[a].key == k
    ensures Reached(env, v) && Reads(v, 0)
    ensures var work := v.rounds[0].work;
            && v == WithWork(w, 0, work) && work == Looked(w.db, [Consumed(k, x)])
            && work.todo == [x] && k in work.against && work.against[k].attempt == a
            && work.against[k].read == w.db.attempts[a] && work.against[k].payment == w.db.attempts[a].payment
            && work.against[k].payment in w.db.payments && work.against[k].payer == w.db.payments[work.against[k].payment]
  {
    ReachedSound(env, w);
    LooksOne(w.db, a, k, x);
    hide Reached, AttemptsLinked, RefundsLinked, ValidChain, Against, Backs, Transactions;
    ObserverGoes(env, w, Look(0));
    v := DoLook(w, 0);
  }

  lemma ReceiptRead(env: Env, w: World, h: nat, x: Tx, t: Transfer) returns (v: World)
    requires Reached(env, w) && Reads(w, 0) && w.rounds[0].work.Receiving? && Holds(env, w.chain, h, x, t)
    requires w.rounds[0].work.todo == [x] && w.rounds[0].work.seen == [] && w.rounds[0].work.sent == []
    requires t.key in w.rounds[0].work.against
    ensures Reached(env, v) && Reads(v, 0)
    ensures var work := v.rounds[0].work;
            && v == WithWork(w, 0, work) && work.Receiving? && work.todo == [] && work.sent == []
            && work.seen == Optional(SeenOf(t, x, PlaceAt(w.chain, h), w.rounds[0].work.against))
  {
    ReachedSound(env, w);
    assert On(w.chain, h, x);
    FoundAt(w.chain, env.ledger, h, x);
    hide Reached, ValidChain, Find, AttemptsLinked, RefundsLinked;
    ObserverGoes(env, w, Receipt(0));
    ReceiptIs(env, w, 0);
    v := DoReceipt(env, w, 0);
    ReceiptOf(x, PlaceAt(w.chain, h), t, w.rounds[0].work.against, w.rounds[0].work.back);
  }

  /** A round reads the one transaction of its one block, and has seen the one transfer in it. */
  lemma ReadsOne(env: Env, w: World, h: nat, x: Tx, t: Transfer, a: AttemptId) returns (v: World)
    requires Reached(env, w) && Reads(w, 0) && w.rounds[0].work.Scanning?
    requires w.rounds[0].first == h && w.rounds[0].last == h && Holds(env, w.chain, h, x, t)
    requires a in w.db.attempts && w.db.attempts[a].key == t.key && w.db.attempts[a].payment in w.db.payments
    requires SeenAt(w.db, a, x, PlaceAt(w.chain, h), t).Some?
    ensures Reached(env, v) && Reads(v, 0)
    ensures var work := v.rounds[0].work;
            && v == WithWork(w, 0, work) && work.Receiving? && work.todo == [] && work.sent == []
            && work.seen == [SeenAt(w.db, a, x, PlaceAt(w.chain, h), t).value]
  {
    hide Reached;
    var scanned := Scanned(env, w, h, x, t);
    var looked := LookedUp(env, scanned, x, t.key, a);
    v := ReceiptRead(env, looked, h, x, t);
  }

  lemma FoundAt(c: Chain, ledger: Ledger, h: nat, x: Tx)
    requires ValidChain(c, ledger) && On(c, h, x)
    ensures Find(c, x) == Some(PlaceAt(c, h))
  {
    assert Find(c, x).Some?;
    assert On(c, Find(c, x).value.height, x);
  }

  lemma ReceiptOf(x: Tx, at: Place, t: Transfer, against: map<Key, Hit>, back: map<Key, Back>)
    requires t.key in against
    ensures SeenIn([t], x, at, against) == Optional(SeenOf(t, x, at, against))
    ensures SentIn([t], x, at, against, back) == []
  {
    assert [t][..0] == [];
  }

  lemma ReadsNone(env: Env, w: World, h: nat) returns (v: World)
    requires Reached(env, w) && Reads(w, 0) && w.rounds[0].work.Scanning?
    requires w.rounds[0].first == h && w.rounds[0].last == h && h < |w.chain.blocks| && w.chain.blocks[h].txs == []
    ensures Reached(env, v) && Reads(v, 0)
    ensures var work := v.rounds[0].work;
            v == WithWork(w, 0, work) && work.Receiving? && work.todo == [] && work.seen == [] && work.sent == []
  {
    hide Reached;
    ObserverGoes(env, w, Scan(0));
    ScansNone(env, w.chain, h);
    var scanned := DoScan(env, w, 0);
    ObserverGoes(env, scanned, Look(0));
    LooksNone(w.db);
    v := DoLook(scanned, 0);
    assert v.rounds[0].work == Looked(w.db, []);
  }

  // ---- whole rounds

  /** Nothing is under way but what a round does. */
  ghost predicate AtRest(w: World) { w.rounds == map[] && w.calls == map[] && w.decisions == {} && w.returning == {} }

  /** The next block is final, and the cursor is on the one below it. */
  ghost predicate NextIsFinal(w: World, h: nat) {
    && h >= 1 && w.chain.final == h && |w.chain.blocks| == h + 1
    && w.db.cursor == Some(PositionAt(w.chain, h - 1))
  }

  ghost function FinalRead(w: World, h: nat, seen: seq<Seen>): Option<World>
    requires NextIsFinal(w, h)
  {
    match WriteRange(w.db, h, h, PositionAt(w.chain, h - 1), PositionAt(w.chain, h), seen, [])
    case None => None
    case Some(after) => Some(w.(db := after, ranges := w.ranges + [Range(h, h)]))
  }

  lemma FinalReadIs(w: World, h: nat, seen: seq<Seen>, d: Rows)
    requires NextIsFinal(w, h) && Record(w.db, h, h, true, seen, []) == Some(d) && d.cursor == w.db.cursor
    ensures FinalRead(w, h, seen)
            == Some(w.(db := d.(cursor := Some(PositionAt(w.chain, h))), ranges := w.ranges + [Range(h, h)]))
  {
  }

  lemma BeginsFinal(env: Env, w: World, h: nat) returns (v: World)
    requires Reached(env, w) && AtRest(w) && NextIsFinal(w, h)
    ensures Reached(env, v)
    ensures v == w.(rounds := map[0 := Settling(PositionAt(w.chain, h - 1), PositionAt(w.chain, h), h, h, h, h, Scanning)])
  {
    hide Reached;
    ObserverGoes(env, w, Begin(0, h, h, 1));
    v := w.(rounds := w.rounds[0 := BeginRound(w, h, h, 1)]);
  }

  lemma WritesFinal(env: Env, w: World, u: World, h: nat, seen: seq<Seen>)
    requires AtRest(w) && NextIsFinal(w, h) && FinalRead(w, h, seen).Some?
    requires Reached(env, u) && Reads(u, 0) && u.rounds[0].work.Receiving?
    requires var work := u.rounds[0].work;
             && work.todo == [] && work.seen == seen && work.sent == []
             && u == w.(rounds := map[0 := Settling(PositionAt(w.chain, h - 1), PositionAt(w.chain, h), h, h, h, h, work)])
    ensures Reached(env, FinalRead(w, h, seen).value)
  {
    hide Reached, WriteRange;
    ObserverGoes(env, u, Write(0));
    var written := DoWrite(u, 0);
    ObserverGoes(env, written, GoAhead(0, 1));
    assert Dropped(written.rounds, 0) == map[];
    assert DoGoAhead(written, 0, 1) == FinalRead(w, h, seen).value;
  }

  /** A round over one final block that holds a payment, from its head to its write. */
  lemma ReadsFinal(env: Env, w: World, h: nat, x: Tx, t: Transfer, a: AttemptId)
    requires Reached(env, w) && AtRest(w) && NextIsFinal(w, h) && Holds(env, w.chain, h, x, t)
    requires a in w.db.attempts && w.db.attempts[a].key == t.key && w.db.attempts[a].payment in w.db.payments
    requires SeenAt(w.db, a, x, PlaceAt(w.chain, h), t).Some?
    requires FinalRead(w, h, [SeenAt(w.db, a, x, PlaceAt(w.chain, h), t).value]).Some?
    ensures Reached(env, FinalRead(w, h, [SeenAt(w.db, a, x, PlaceAt(w.chain, h), t).value]).value)
  {
    hide Reached, WriteRange;
    var begun := BeginsFinal(env, w, h);
    var u := ReadsOne(env, begun, h, x, t, a);
    WritesFinal(env, w, u, h, [SeenAt(w.db, a, x, PlaceAt(w.chain, h), t).value]);
  }

  lemma ReadsFinalNone(env: Env, w: World, h: nat)
    requires Reached(env, w) && AtRest(w) && NextIsFinal(w, h) && w.chain.blocks[h].txs == []
    requires FinalRead(w, h, []).Some?
    ensures Reached(env, FinalRead(w, h, []).value)
  {
    hide Reached, WriteRange;
    var begun := BeginsFinal(env, w, h);
    var u := ReadsNone(env, begun, h);
    WritesFinal(env, w, u, h, []);
  }

  /** A round that finds nothing new final, and reads one block ahead that holds a payment. */
  lemma ReadsAhead(env: Env, w: World, h: nat, x: Tx, t: Transfer, a: AttemptId)
    requires Reached(env, w) && AtRest(w) && Holds(env, w.chain, h, x, t)
    requires h >= 1 && w.chain.final == h - 1 && |w.chain.blocks| == h + 1 && w.db.cursor == Some(PositionAt(w.chain, h - 1))
    requires a in w.db.attempts && w.db.attempts[a].key == t.key && w.db.attempts[a].payment in w.db.payments
    requires SeenAt(w.db, a, x, PlaceAt(w.chain, h), t).Some?
    requires Record(w.db, h, h, false, [SeenAt(w.db, a, x, PlaceAt(w.chain, h), t).value], []).Some?
    ensures Reached(env, w.(db := Record(w.db, h, h, false, [SeenAt(w.db, a, x, PlaceAt(w.chain, h), t).value], []).value))
  {
    hide Reached, Record;
    var seen := [SeenAt(w.db, a, x, PlaceAt(w.chain, h), t).value];
    ObserverGoes(env, w, Begin(0, h - 1, h, 1));
    var begun := w.(rounds := w.rounds[0 := BeginRound(w, h - 1, h, 1)]);
    ObserverGoes(env, begun, Stand(0));
    var stood := DoStand(begun, 0);
    assert stood == w.(rounds := map[0 := Between(h - 1, h)]);
    ObserverGoes(env, stood, GoAhead(0, 1));
    var ahead := DoGoAhead(stood, 0, 1);
    assert ahead == w.(rounds := map[0 := Ahead(h - 1, h, h, Scanning)]);
    var u := ReadsOne(env, ahead, h, x, t, a);
    ObserverGoes(env, u, Write(0));
    assert Dropped(u.rounds, 0) == map[];
    assert DoWrite(u, 0) == w.(db := Record(w.db, h, h, false, seen, []).value);
  }

  // ---- a worker's moves, and a request's

  lemma Decides(env: Env, w: World, p: PaymentId, to: Status, now: Time, ref: Ref)
    requires Reached(env, w) && AtRest(w) && p in w.db.payments
    requires Grounds(w.db, p, to, now, ref) && Move(w.db.payments[p], to, now).Some?
    ensures SavePayment(w.db, p, Move(w.db.payments[p], to, now).value, w.db.payments[p].version).Some?
    ensures Reached(env, w.(db := SavePayment(w.db, p, Move(w.db.payments[p], to, now).value, w.db.payments[p].version).value))
  {
    var d := Decision(p, w.db.payments[p], Move(w.db.payments[p], to, now).value);
    hide Reached, Grounds;
    WorkerGoes(env, w, Decide(p, to, now, ref));
    var decided := w.(decisions := w.decisions + {d});
    WorkerGoes(env, decided, Save(d));
    assert decided.decisions - {d} == {};
    assert DoSave(decided, d) == w.(db := SavePayment(w.db, p, d.moved, d.read.version).value);
  }

  lemma DecidesRefund(env: Env, w: World, r: RefundId, to: RefundStatus, now: Time, ref: Ref)
    requires Reached(env, w) && AtRest(w) && r in w.db.refunds
    requires RefundGrounds(w.db, r, to, now, ref) && w.db.refunds[r].MoveTo(to).Some?
    ensures SaveRefund(w.db, r, to, w.db.refunds[r].version).Some?
    ensures Reached(env, w.(db := SaveRefund(w.db, r, to, w.db.refunds[r].version).value))
  {
    var d := Return(r, w.db.refunds[r], to);
    hide Reached, RefundGrounds;
    WorkerGoes(env, w, DecideRefund(r, to, now, ref));
    var decided := w.(returning := w.returning + {d});
    WorkerGoes(env, decided, SaveReturn(d));
    assert decided.returning - {d} == {};
    assert DoSaveReturn(decided, d) == w.(db := SaveRefund(w.db, r, to, d.read.version).value);
  }

  lemma Issues(env: Env, w: World, p: PaymentId, now: Time, a: AttemptId, key: Key)
    requires Reached(env, w) && AtRest(w) && Payable(w.db, p) && !HasLive(w.db, p) && w.db.cursor.Some?
    requires NewAttempt(p, w.db.payments[p].expiresAt, now, key).Some? && a !in w.db.attempts && FreshKey(env, w, key)
    ensures Reached(env, w.(db := w.db.(attempts :=
              w.db.attempts[a := NewAttempt(p, w.db.payments[p].expiresAt, now, key).value])))
  {
    hide Reached, FreshKey, HasLive;
    var e := w.db.payments[p].expiresAt;
    RequestGoes(env, w, AskIssue(0, p));
    var found := Went(w, 0, IssueFound(p, e));
    RequestGoes(env, found, Proceed(0, now, a, key));
    var free := Went(found, 0, IssueFree(p, e));
    RequestGoes(env, free, Proceed(0, now, a, key));
    var watched := Went(free, 0, IssueWatched(p, e));
    assert FreshKey(env, watched, key) by { StillFresh(env, w, watched, key); }
    RequestGoes(env, watched, Proceed(0, now, a, key));
    NobodyHolds(env, w, key);
    var issued := DoProceed(watched, 0, now, a, key);
    assert issued.calls == map[];
  }

  lemma StillFresh(env: Env, w: World, v: World, key: Key)
    requires FreshKey(env, w, key) && v.landed == w.landed && v.db == w.db
    ensures FreshKey(env, v, key)
  {
  }

  lemma NobodyHolds(env: Env, w: World, key: Key)
    requires FreshKey(env, w, key)
    ensures forall b :: b in w.db.attempts ==> w.db.attempts[b].key != key
  {
  }

  // ---- a payment of five, opened, made payable and offered

  const EXPIRY: Time := 600 * SECOND

  function Pay(value: Option<nat>): Transfer { Transfer(Eip3009, 1, 3, Some(9), 9, 7, value, true) }

  /** The same payment again under another key. */
  function PayAgain(): Transfer { Pay(Some(5)).(key := 5) }

  /**
   Three transactions spend the key, of which a chain holds at most one: one pays,
   one carries nothing anybody can read, one pays short. A fourth pays under
   another key.
   */
  function Here(): Env {
    Env(map[1 := [Pay(Some(5))], 2 := [Pay(None)], 3 := [Pay(Some(3))], 4 := [PayAgain()]], {1})
  }

  function Genesis(): Block { Block(100, 0, []) }

  function Asked(status: Status, received: Option<nat>, version: nat): Payment {
    Payment(1, 5, 7, EXPIRY, status, received, version)
  }

  function Offered(status: AttemptStatus, signer: Option<Address>, revision: nat): Attempt {
    Attempt(0, Eip3009, 3, EXPIRY, status, signer, revision)
  }

  function Nothing(): World {
    World(Chain([Genesis()], 0), {}, Rows(map[], map[], map[], map[], None, []), map[], {}, {}, map[], 0, [])
  }

  /** The same world with its rows as they have become. */
  function WithRows(payment: Payment, attempts: map<AttemptId, Attempt>, outbox: seq<Event>): World {
    Nothing().(db := Rows(map[0 := payment], attempts, map[], map[], Some(Position(0, 100, 0)), outbox))
  }

  function Ready(): World {
    WithRows(Asked(AwaitingPayment, None, 2), map[0 := Offered(Issued, None, 1)], [PaymentMoved(0, AwaitingPayment)])
  }

  lemma LedgerHere()
    ensures ValidLedger(Here().ledger)
    ensures forall x, k :: Spends(Here().ledger, x, k) ==> k == 3 || (x == 4 && k == 5)
  {
  }

  lemma NothingStarts()
    ensures Reached(Here(), Nothing())
  {
    LedgerHere();
    Starts(Here(), Nothing());
  }

  lemma GetsWatched()
    ensures Reached(Here(), Nothing().(db := Nothing().db.(cursor := Some(Position(0, 100, 0)))))
  {
    NothingStarts();
    hide Reached;
    ObserverGoes(Here(), Nothing(), ObserverMove.Init(0));
  }

  lemma GetsOpened()
    ensures Reached(Here(), WithRows(Asked(Created, None, 1), map[], []))
  {
    GetsWatched();
    hide Reached;
    var w := Nothing().(db := Nothing().db.(cursor := Some(Position(0, 100, 0))));
    RequestGoes(Here(), w, Open(0, Asked(Created, None, 1)));
    assert w.db.payments[0 := Asked(Created, None, 1)] == map[0 := Asked(Created, None, 1)];
  }

  lemma GetsPayable()
    ensures Reached(Here(), WithRows(Asked(AwaitingPayment, None, 2), map[], [PaymentMoved(0, AwaitingPayment)]))
  {
    GetsOpened();
    hide Reached;
    var w := WithRows(Asked(Created, None, 1), map[], []);
    Decides(Here(), w, 0, AwaitingPayment, 0, Ref(0, 0));
    var after := SavePayment(w.db, 0, Move(w.db.payments[0], AwaitingPayment, 0).value, 1).value;
    assert after.payments == map[0 := Asked(AwaitingPayment, None, 2)];
    assert w.(db := after) == WithRows(Asked(AwaitingPayment, None, 2), map[], [PaymentMoved(0, AwaitingPayment)]);
  }

  lemma GetsReady()
    ensures Reached(Here(), Ready())
  {
    GetsPayable();
    LedgerHere();
    hide Reached;
    var w := WithRows(Asked(AwaitingPayment, None, 2), map[], [PaymentMoved(0, AwaitingPayment)]);
    Issues(Here(), w, 0, 0, 0, 3);
    assert NewAttempt(0, EXPIRY, 0, 3).value == Offered(Issued, None, 1);
    assert w.db.attempts[0 := Offered(Issued, None, 1)] == map[0 := Offered(Issued, None, 1)];
  }

  // ---- one transfer seen of it

  function SeenHere(attempt: Attempt, x: Tx, at: Place, value: Option<nat>, reason: Reason): Seen {
    Seen(0, attempt, 0, x, at, Pay(value), reason)
  }

  function RowHere(at: Place, value: Option<nat>, reason: Reason, final: bool): Observation {
    Observation(0, ForAttempt(0), at, Pay(value), reason, final)
  }

  lemma OneEntry(s: Seen)
    ensures Entries([s], []) == [SeenEntry(s)]
    ensures TxsOf([SeenEntry(s)]) == {s.tx}
    ensures Storable([SeenEntry(s)]) <==> s.transfer.storable
    ensures forall rows: map<Ref, Observation>, final :: Put(rows, [SeenEntry(s)], final) == PutOne(rows, SeenEntry(s), final)
    ensures forall ps: map<PaymentId, Payment> :: Arrive(ps, [s]) == ArriveOne(ps, s)
    ensures forall db: Rows :: Confirm(db, [s]) == ConfirmOne(db, s)
  {
    var e := SeenEntry(s);
    assert [e][0] == e && [e][..0] == [] && [s][..0] == [];
    assert e.ref.tx in TxsOf([e]);
  }

  /** What a round makes of the one transfer it saw. */
  lemma RecordsOne(db: Rows, h: nat, final: bool, s: Seen)
    requires s.transfer.storable
    ensures var es := [SeenEntry(s)];
            Record(db, h, h, final, [s], []) == ConfirmOne(Credited(Written(db, h, h, final, es), [s]), s)
    ensures var put := PutOne(db.observations, SeenEntry(s), final);
            Written(db, h, h, final, [SeenEntry(s)]) ==
              if final then Lose(db.(observations := put), LostIn(put, h, h, {s.tx})) else db.(observations := put)
    ensures forall ps: map<PaymentId, Payment> :: Arrive(ps, [s]) == ArriveOne(ps, s)
  {
    OneEntry(s);
  }

  /** The payment's block, one minute on. */
  const FIRST := Place(1, 101, MINUTE)

  /** The rows once the payment was seen. */
  function Told(final: bool, cursor: Position): Rows {
    Rows(map[0 := Asked(AwaitingPayment, Some(5), 3)], map[0 := Offered(Confirming, Some(9), 2)], map[],
         map[Ref(3, 1) := RowHere(FIRST, Some(5), Matched, final)], Some(cursor),
         [PaymentMoved(0, AwaitingPayment), AttemptConfirming(0)])
  }

  function AtGenesis(): Position { Position(0, 100, 0) }

  lemma LosesNone(db: Rows)
    ensures Lose(db, {}) == db
  {
    var d := Lose(db, {});
    assert d.observations == db.observations && d.attempts == db.attempts && d.payments == db.payments;
  }

  const FIRST_SEEN := Seen(0, Offered(Issued, None, 1), 0, 1, FIRST, Pay(Some(5)), Matched)

  lemma PutsFirst(final: bool)
    ensures PutOne(map[], SeenEntry(FIRST_SEEN), final) == Told(final, AtGenesis()).observations
    ensures LostIn(Told(final, AtGenesis()).observations, 1, 1, {1}) == {}
  {
  }

  lemma CreditsFirst()
    ensures ArriveOne(Ready().db.payments, FIRST_SEEN) == Told(false, AtGenesis()).payments
  {
    var paid := Asked(AwaitingPayment, Some(5), 3);
    assert Ready().db.payments[0 := paid] == map[0 := paid];
    assert ArriveOne(Ready().db.payments, FIRST_SEEN) == Ready().db.payments[0 := paid];
  }

  lemma ConfirmsFirst(db: Rows)
    requires db.attempts == Ready().db.attempts
    ensures ConfirmOne(db, FIRST_SEEN)
            == Some(db.(attempts := Told(false, AtGenesis()).attempts, outbox := db.outbox + [AttemptConfirming(0)]))
  {
    var confirming := Offered(Confirming, Some(9), 2);
    assert db.attempts[0 := confirming] == map[0 := confirming];
  }

  /** The payment seen once, ahead of the final block or at it. */
  lemma TellsFirst(final: bool)
    ensures Record(Ready().db, 1, 1, final, [FIRST_SEEN], []) == Some(Told(final, AtGenesis()))
  {
    RecordsOne(Ready().db, 1, final, FIRST_SEEN);
    PutsFirst(final);
    CreditsFirst();
    var put := Ready().db.(observations := Told(final, AtGenesis()).observations);
    LosesNone(put);
    assert Written(Ready().db, 1, 1, final, [SeenEntry(FIRST_SEEN)]) == put;
    hide Written, Lose, PutOne, ArriveOne, ConfirmOne, Record, Arrive;
    var credited := Credited(put, [FIRST_SEEN]);
    ConfirmsFirst(credited);
    assert credited.payments == Told(final, AtGenesis()).payments;
    assert credited.outbox + [AttemptConfirming(0)] == Told(final, AtGenesis()).outbox;
  }

  // ---- chains of two blocks

  function Two(b: Block, final: nat): Chain { Chain([Genesis(), b], final) }

  lemma TwoValid(b: Block, final: nat)
    requires final < 2 && b.time >= 0 && (b.txs == [] || b.txs == [1] || b.txs == [2] || b.txs == [3])
    ensures ValidChain(Two(b, final), Here().ledger)
  {
    var c := Two(b, final);
    forall h: nat, x: Tx | On(c, h, x) ensures h == 1 && x in Here().ledger && b.txs == [x] {
      assert c.blocks[0].txs == [];
    }
  }

  lemma Mines(w: World, b: Block)
    requires Reached(Here(), w) && w.chain == Chain([Genesis()], 0)
    requires b.time >= 0 && (b.txs == [] || b.txs == [1] || b.txs == [2] || b.txs == [3])
    ensures Reached(Here(), w.(chain := Two(b, 0), landed := Landed(w, b)))
  {
    TwoValid(b, 0);
    hide Reached, ValidChain;
    assert Mined(w.chain, b) == Two(b, 0);
    ChainGoes(Here(), w, Mine(b));
  }

  lemma Finalizes(w: World, b: Block)
    requires Reached(Here(), w) && w.chain == Two(b, 0)
    ensures Reached(Here(), w.(chain := Two(b, 1)))
  {
    hide Reached;
    ChainGoes(Here(), w, Finalize(1));
  }

  lemma Reorgs(w: World, b: Block, into: Block)
    requires Reached(Here(), w) && w.chain == Two(b, 0)
    requires into.time >= 0 && (into.txs == [] || into.txs == [1] || into.txs == [2])
    ensures Reached(Here(), w.(chain := Two(into, 0), landed := Landed(w, into)))
  {
    TwoValid(into, 0);
    hide Reached, ValidChain;
    assert Reorged(w.chain, 1, into) == Two(into, 0);
    ChainGoes(Here(), w, Reorg(1, into));
  }

  /** Read ahead of the final block, the payment is told of and its attempt confirms. */
  lemma GetsTold()
    ensures Reached(Here(), Ready().(chain := Two(Block(101, MINUTE, [1]), 0), landed := {1}, db := Told(false, AtGenesis())))
  {
    var b := Block(101, MINUTE, [1]);
    GetsReady();
    hide Reached, Record;
    Mines(Ready(), b);
    var w := Ready().(chain := Two(b, 0), landed := {1});
    assert Landed(Ready(), b) == {1};
    TellsFirst(false);
    ReadsAhead(Here(), w, 1, 1, Pay(Some(5)), 0);
  }

  // ---- where the bookkeeping stops agreeing

  /** The block the payment's transaction is moved into, at its deadline. */
  const MOVED := Place(1, 103, EXPIRY)

  function ReadLate(): World {
    Ready().(chain := Two(Block(103, EXPIRY, [1]), 1), landed := {1},
             db := Told(false, AtGenesis()).(observations := map[Ref(3, 1) := RowHere(MOVED, Some(5), Late, true)],
                                             cursor := Some(Position(1, 103, EXPIRY))),
             ranges := [Range(1, 1)])
  }

  lemma RecordsLate()
    ensures Record(Told(false, AtGenesis()), 1, 1, true, [SeenHere(Offered(Confirming, Some(9), 2), 1, MOVED, Some(5), Late)], [])
            == Some(ReadLate().db.(cursor := Some(AtGenesis())))
  {
    var db := Told(false, AtGenesis());
    var s := SeenHere(Offered(Confirming, Some(9), 2), 1, MOVED, Some(5), Late);
    RecordsOne(db, 1, true, s);
    PutsLate(db, s);
    var put := db.(observations := ReadLate().db.observations);
    LosesNone(put);
    hide Lose, LostIn, PutOne, Record, Written;
    assert Credited(put, [s]) == put;
  }

  lemma PutsLate(db: Rows, s: Seen)
    requires db == Told(false, AtGenesis()) && s == SeenHere(Offered(Confirming, Some(9), 2), 1, MOVED, Some(5), Late)
    ensures PutOne(db.observations, SeenEntry(s), true) == ReadLate().db.observations
    ensures LostIn(ReadLate().db.observations, 1, 1, {1}) == {}
  {
  }

  lemma LateIsRead(w: World)
    requires w == Ready().(chain := Two(Block(103, EXPIRY, [1]), 1), landed := {1}, db := Told(false, AtGenesis()))
    requires Reached(Here(), w)
    ensures Reached(Here(), ReadLate())
  {
    var s := SeenHere(Offered(Confirming, Some(9), 2), 1, MOVED, Some(5), Late);
    hide Reached, Record;
    RecordsLate();
    FinalReadIs(w, 1, [s], ReadLate().db.(cursor := Some(AtGenesis())));
    assert w.ranges + [Range(1, 1)] == ReadLate().ranges;
    hide FinalRead;
    assert SeenAt(w.db, 0, 1, PlaceAt(w.chain, 1), Pay(Some(5))) == Some(s);
    ReadsFinal(Here(), w, 1, 1, Pay(Some(5)), 0);
  }

  /**
   A payment that was told of, then moved by a reorg into a block at its deadline:
   read again it is late, and what the payment received stays though nothing tells of
   it, as its attempt stays confirming though no row matches it.
   */
  lemma LateStrands()
    ensures Reached(Here(), ReadLate())
    ensures var db := ReadLate().db;
            && db.payments[0].Open() && db.payments[0].received == Some(5)
            && !TellingStands(db.observations, 0) && !Agrees(db, 0)
            && db.attempts[0].status == Confirming && !TrulyConfirming(db, 0)
  {
    GetsTold();
    var before, after := Block(101, MINUTE, [1]), Block(103, EXPIRY, [1]);
    var w := Ready().(chain := Two(before, 0), landed := {1}, db := Told(false, AtGenesis()));
    hide Reached, Record;
    Reorgs(w, before, after);
    var moved := w.(chain := Two(after, 0));
    assert Landed(w, after) == {1};
    Finalizes(moved, after);
    LateIsRead(moved.(chain := Two(after, 1)));
  }

  /** Another transaction of the key, in the first one's place, with a value nobody can read. */
  const REPLACED := Place(1, 102, MINUTE)

  function ReadUnreadable(): World {
    Ready().(chain := Two(Block(102, MINUTE, [2]), 1), landed := {1, 2},
             db := Told(false, AtGenesis()).(
               attempts := map[0 := Offered(Issued, None, 3)],
               observations := map[Ref(3, 1) := RowHere(FIRST, Some(5), Vanished, false),
                                   Ref(3, 2) := RowHere(REPLACED, None, Short, true)],
               cursor := Some(Position(1, 102, MINUTE))),
             ranges := [Range(1, 1)])
  }

  lemma TakesUnreadable(db: Rows)
    requires db == Told(false, AtGenesis()).(observations := map[Ref(3, 1) := RowHere(FIRST, Some(5), Matched, false),
                                                                 Ref(3, 2) := RowHere(REPLACED, None, Short, true)])
    ensures Lose(db, {Ref(3, 1)}) == ReadUnreadable().db.(cursor := Some(AtGenesis()))
  {
    var lost := {Ref(3, 1)};
    var marked := Mark(db.observations, lost);
    assert marked == ReadUnreadable().db.observations;
    assert marked[Ref(3, 2)].payment == 0 && ArrivalStands(marked, 0);
    assert !AttemptMatched(marked, 0);
    assert 0 in LostAttempts(db.observations, lost) by {
      assert db.observations[Ref(3, 1)].against.attempt == 0;
    }
    var d := Lose(db, lost);
    assert d.payments == db.payments;
    assert d.attempts == map[0 := Offered(Issued, None, 3)];
  }

  lemma RecordsUnreadable()
    ensures Record(Told(false, AtGenesis()), 1, 1, true, [SeenHere(Offered(Confirming, Some(9), 2), 2, REPLACED, None, Short)], [])
            == Some(ReadUnreadable().db.(cursor := Some(AtGenesis())))
  {
    var db := Told(false, AtGenesis());
    var s := SeenHere(Offered(Confirming, Some(9), 2), 2, REPLACED, None, Short);
    RecordsOne(db, 1, true, s);
    var put := db.(observations := map[Ref(3, 1) := RowHere(FIRST, Some(5), Matched, false),
                                       Ref(3, 2) := RowHere(REPLACED, None, Short, true)]);
    PutsUnreadable(db, s, put.observations);
    TakesUnreadable(put);
    hide Lose, LostIn, PutOne, Record, Written;
    assert Credited(Lose(put, {Ref(3, 1)}), [s]) == Lose(put, {Ref(3, 1)});
  }

  lemma PutsUnreadable(db: Rows, s: Seen, put: map<Ref, Observation>)
    requires db == Told(false, AtGenesis()) && s == SeenHere(Offered(Confirming, Some(9), 2), 2, REPLACED, None, Short)
    requires put == map[Ref(3, 1) := RowHere(FIRST, Some(5), Matched, false), Ref(3, 2) := RowHere(REPLACED, None, Short, true)]
    ensures PutOne(db.observations, SeenEntry(s), true) == put
    ensures LostIn(put, 1, 1, {2}) == {Ref(3, 1)}
  {
  }

  lemma UnreadableIsRead(w: World)
    requires w == Ready().(chain := Two(Block(102, MINUTE, [2]), 1), landed := {1, 2}, db := Told(false, AtGenesis()))
    requires Reached(Here(), w)
    ensures Reached(Here(), ReadUnreadable())
  {
    var s := SeenHere(Offered(Confirming, Some(9), 2), 2, REPLACED, None, Short);
    hide Reached, Record;
    RecordsUnreadable();
    FinalReadIs(w, 1, [s], ReadUnreadable().db.(cursor := Some(AtGenesis())));
    assert w.ranges + [Range(1, 1)] == ReadUnreadable().ranges;
    hide FinalRead;
    assert SeenAt(w.db, 0, 2, PlaceAt(w.chain, 1), Pay(None)) == Some(s);
    ReadsFinal(Here(), w, 1, 2, Pay(None), 0);
  }

  /**
   A payment that was told of, then replaced by a reorg with a transfer of the same
   key nobody can read: the first is taken back and the second counts as standing,
   so what the payment received stays though nothing tells of it.
   */
  lemma UnreadableStrands()
    ensures Reached(Here(), ReadUnreadable())
    ensures var db := ReadUnreadable().db;
            db.payments[0].Open() && db.payments[0].received == Some(5) && !TellingStands(db.observations, 0) && !Agrees(db, 0)
  {
    GetsTold();
    var before, after := Block(101, MINUTE, [1]), Block(102, MINUTE, [2]);
    var w := Ready().(chain := Two(before, 0), landed := {1}, db := Told(false, AtGenesis()));
    hide Reached, Record;
    Reorgs(w, before, after);
    var moved := w.(chain := Two(after, 0), landed := {1, 2});
    assert Landed(w, after) == {1, 2};
    Finalizes(moved, after);
    UnreadableIsRead(moved.(chain := Two(after, 1)));
  }

  // ---- paid

  function Settled(): World {
    var told := Told(true, Position(1, 101, MINUTE));
    Ready().(chain := Two(Block(101, MINUTE, [1]), 1), landed := {1},
             db := told.(payments := map[0 := Asked(Succeeded, Some(5), 4)], outbox := told.outbox + [PaymentMoved(0, Succeeded)]),
             ranges := [Range(1, 1)])
  }

  /** A payment that was paid in a final block succeeds. */
  lemma GetsPaid()
    ensures Reached(Here(), Settled())
  {
    var b := Block(101, MINUTE, [1]);
    GetsReady();
    hide Reached, Record;
    Mines(Ready(), b);
    var w := Ready().(chain := Two(b, 0), landed := {1});
    assert Landed(Ready(), b) == {1};
    Finalizes(w, b);
    PaidIsRead(w.(chain := Two(b, 1)));
    PaidIsDecided(w.(chain := Two(b, 1), db := Told(true, Position(1, 101, MINUTE)), ranges := [Range(1, 1)]));
  }

  lemma PaidIsRead(w: World)
    requires w == Ready().(chain := Two(Block(101, MINUTE, [1]), 1), landed := {1}) && Reached(Here(), w)
    ensures Reached(Here(), w.(db := Told(true, Position(1, 101, MINUTE)), ranges := [Range(1, 1)]))
  {
    hide Reached, Record;
    TellsFirst(true);
    FinalReadIs(w, 1, [FIRST_SEEN], Told(true, AtGenesis()));
    assert w.ranges + [Range(1, 1)] == [Range(1, 1)];
    hide FinalRead;
    assert SeenAt(w.db, 0, 1, PlaceAt(w.chain, 1), Pay(Some(5))) == Some(FIRST_SEEN);
    ReadsFinal(Here(), w, 1, 1, Pay(Some(5)), 0);
  }

  lemma PaidIsDecided(w: World)
    requires w == Ready().(chain := Two(Block(101, MINUTE, [1]), 1), landed := {1},
                           db := Told(true, Position(1, 101, MINUTE)), ranges := [Range(1, 1)])
    requires Reached(Here(), w)
    ensures Reached(Here(), Settled())
  {
    hide Reached;
    Decides(Here(), w, 0, Succeeded, 0, Ref(3, 1));
    assert w.db.payments[0 := Asked(Succeeded, Some(5), 4)] == Settled().db.payments;
    assert w.(db := SavePayment(w.db, 0, Move(w.db.payments[0], Succeeded, 0).value, 3).value) == Settled();
  }

  // ---- read past a deadline with nothing there

  /** A round that saw nothing and lost nothing moves the cursor and nothing else. */
  lemma RecordsNone(db: Rows, h: nat)
    requires forall ref :: ref in db.observations ==> db.observations[ref].place.height != h
    ensures Record(db, h, h, true, [], []) == Some(db)
  {
    assert LostIn(db.observations, h, h, {}) == {};
    assert TxsOf([]) == {} && Entries([], []) == [];
    LosesNone(db);
  }

  const NEVER := Block(104, EXPIRY, [])

  function ReadPastIt(payment: Payment, outbox: seq<Event>): World {
    Ready().(chain := Two(NEVER, 1),
             db := Ready().db.(payments := map[0 := payment], cursor := Some(Position(1, 104, EXPIRY)), outbox := outbox),
             ranges := [Range(1, 1)])
  }

  lemma NothingIsRead()
    ensures Reached(Here(), ReadPastIt(Asked(AwaitingPayment, None, 2), [PaymentMoved(0, AwaitingPayment)]))
  {
    GetsReady();
    hide Reached, Record;
    Mines(Ready(), NEVER);
    assert Landed(Ready(), NEVER) == {};
    Finalizes(Ready().(chain := Two(NEVER, 0)), NEVER);
    var w := Ready().(chain := Two(NEVER, 1));
    RecordsNone(w.db, 1);
    FinalReadIs(w, 1, [], w.db);
    assert w.ranges + [Range(1, 1)] == [Range(1, 1)];
    hide FinalRead;
    ReadsFinalNone(Here(), w, 1);
  }

  lemma GetsAwaiting()
    ensures Reached(Here(), ReadPastIt(Asked(AwaitingFinality, None, 3),
                                       [PaymentMoved(0, AwaitingPayment), PaymentMoved(0, AwaitingFinality)]))
  {
    var w := ReadPastIt(Asked(AwaitingPayment, None, 2), [PaymentMoved(0, AwaitingPayment)]);
    NothingIsRead();
    hide Reached;
    Decides(Here(), w, 0, AwaitingFinality, EXPIRY, Ref(0, 0));
    assert w.db.payments[0 := Asked(AwaitingFinality, None, 3)] == map[0 := Asked(AwaitingFinality, None, 3)];
    assert w.db.outbox + [PaymentMoved(0, AwaitingFinality)]
           == [PaymentMoved(0, AwaitingPayment), PaymentMoved(0, AwaitingFinality)];
  }

  /** A payment nobody paid, on a network read past its deadline, expires. */
  lemma GetsExpired()
    ensures Reached(Here(), ReadPastIt(Asked(Expired, None, 4),
              [PaymentMoved(0, AwaitingPayment), PaymentMoved(0, AwaitingFinality), PaymentMoved(0, Expired)]))
  {
    var w := ReadPastIt(Asked(AwaitingFinality, None, 3), [PaymentMoved(0, AwaitingPayment), PaymentMoved(0, AwaitingFinality)]);
    GetsAwaiting();
    hide Reached;
    Decides(Here(), w, 0, Expired, EXPIRY, Ref(0, 0));
    assert w.db.payments[0 := Asked(Expired, None, 4)] == map[0 := Asked(Expired, None, 4)];
    assert w.db.outbox + [PaymentMoved(0, Expired)]
           == [PaymentMoved(0, AwaitingPayment), PaymentMoved(0, AwaitingFinality), PaymentMoved(0, Expired)];
  }

  // ---- a refund nobody sent

  function Returning(status: RefundStatus, version: nat): Refund {
    Refund(0, 5, 9, Eip3009, 4, REFUND_LIFE, status, version)
  }

  function WithRefund(refund: Refund): World {
    Settled().(db := Settled().db.(refunds := map[0 := refund]))
  }

  lemma NothingHeld(db: Rows)
    requires db.refunds == map[]
    ensures Held(db, 0) == 0
  {
    assert Holding(db, 0) == {};
  }

  function Calling(call: Call): World { Settled().(calls := map[0 := call]) }

  lemma GetsAsked()
    ensures Reached(Here(), Calling(RefundAsked(0, Returning(RefundCreated, 1))))
  {
    var w, refund := Settled(), Returning(RefundCreated, 1);
    GetsPaid();
    hide Reached;
    RequestGoes(Here(), w, AskRefund(0, 0, 0, 5, 9, 4, 0));
    assert NewRefund(0, w.db.payments[0], 5, 9, 4, 0) == Some(refund);
    assert Went(w, 0, RefundAsked(0, refund)) == Calling(RefundAsked(0, refund));
  }

  lemma GetsLocked()
    ensures Reached(Here(), Calling(RefundLocked(0, Returning(RefundCreated, 1), 5)))
  {
    var refund := Returning(RefundCreated, 1);
    GetsAsked();
    hide Reached;
    RequestGoes(Here(), Calling(RefundAsked(0, refund)), Proceed(0, 0, 0, 0));
    assert DoProceed(Calling(RefundAsked(0, refund)), 0, 0, 0, 0) == Calling(RefundLocked(0, refund, 5));
  }

  lemma GetsMeasured()
    ensures Reached(Here(), Calling(RefundMeasured(0, Returning(RefundCreated, 1))))
  {
    var refund := Returning(RefundCreated, 1);
    GetsLocked();
    NothingHeld(Settled().db);
    hide Reached, Held;
    var locked := Calling(RefundLocked(0, refund, 5));
    RequestGoes(Here(), locked, Proceed(0, 0, 0, 0));
    assert DoProceed(locked, 0, 0, 0, 0) == Calling(RefundMeasured(0, refund));
  }

  lemma GetsInserted()
    ensures Reached(Here(), Calling(RefundInserted(0, Returning(RefundCreated, 1))))
  {
    var refund := Returning(RefundCreated, 1);
    GetsMeasured();
    hide Reached;
    RequestGoes(Here(), Calling(RefundMeasured(0, refund)), Proceed(0, 0, 0, 0));
    assert DoProceed(Calling(RefundMeasured(0, refund)), 0, 0, 0, 0) == Calling(RefundInserted(0, refund));
  }

  lemma GetsRefund()
    ensures Reached(Here(), WithRefund(Returning(RefundCreated, 1)))
  {
    var refund := Returning(RefundCreated, 1);
    GetsInserted();
    LedgerHere();
    hide Reached, Spends;
    var inserted := Calling(RefundInserted(0, refund));
    RequestGoes(Here(), inserted, Proceed(0, 0, 0, 0));
    assert inserted.db.refunds[0 := refund] == map[0 := refund];
    assert inserted.calls - {0} == map[];
  }

  const LATER := Block(105, REFUND_LIFE, [])

  function Three(final: nat): Chain { Chain([Genesis(), Block(101, MINUTE, [1]), LATER], final) }

  lemma ThreeValid()
    ensures ValidChain(Three(1), Here().ledger)
  {
    var c := Three(1);
    forall h: nat, x: Tx | On(c, h, x) ensures h == 1 && x == 1 {
      assert c.blocks[0].txs == [] && c.blocks[2].txs == [];
    }
  }

  function Unsent(status: RefundStatus, version: nat, outbox: seq<Event>): World {
    var w := WithRefund(Returning(status, version));
    w.(chain := Three(2), db := w.db.(cursor := Some(Position(2, 105, REFUND_LIFE)), outbox := outbox),
       ranges := [Range(1, 1), Range(2, 2)])
  }

  lemma UnsentIsRead()
    ensures Reached(Here(), Unsent(RefundCreated, 1, Settled().db.outbox))
  {
    var w := WithRefund(Returning(RefundCreated, 1));
    GetsRefund();
    ThreeValid();
    hide Reached, Record, ValidChain;
    assert Mined(w.chain, LATER) == Three(1);
    ChainGoes(Here(), w, Mine(LATER));
    assert Landed(w, LATER) == w.landed;
    var mined := w.(chain := Three(1));
    ChainGoes(Here(), mined, Finalize(2));
    var final := w.(chain := Three(2));
    RecordsNone(final.db, 2);
    FinalReadIs(final, 2, [], final.db);
    assert final.ranges + [Range(2, 2)] == [Range(1, 1), Range(2, 2)];
    hide FinalRead;
    ReadsFinalNone(Here(), final, 2);
  }

  /** A refund nobody sent, on a network read past its deadline, expires. */
  lemma GetsRefundExpired()
    ensures Reached(Here(), Unsent(RefundExpired, 3, Settled().db.outbox + [RefundMoved(0, RefundExpired)]))
  {
    UnsentIsRead();
    hide Reached;
    var w := Unsent(RefundCreated, 1, Settled().db.outbox);
    DecidesRefund(Here(), w, 0, RefundAwaitingFinality, REFUND_LIFE, Ref(0, 0));
    var waiting := Unsent(RefundAwaitingFinality, 2, Settled().db.outbox);
    assert w.db.refunds[0 := Returning(RefundAwaitingFinality, 2)] == waiting.db.refunds;
    DecidesRefund(Here(), waiting, 0, RefundExpired, REFUND_LIFE, Ref(0, 0));
    assert waiting.db.refunds[0 := Returning(RefundExpired, 3)] == map[0 := Returning(RefundExpired, 3)];
  }

  /** Every outcome the theorems speak of is reached by a run they speak of. */
  lemma OutcomesReached()
    ensures exists w :: Reached(Here(), w) && 0 in w.db.payments && w.db.payments[0].status == Succeeded
    ensures exists w :: Reached(Here(), w) && 0 in w.db.payments && w.db.payments[0].status == Expired
    ensures exists w :: Reached(Here(), w) && 0 in w.db.refunds && w.db.refunds[0].status == RefundExpired
  {
    GetsPaid();
    GetsExpired();
    GetsRefundExpired();
    hide Reached;
    assert Settled().db.payments[0].status == Succeeded;
    var expired := ReadPastIt(Asked(Expired, None, 4),
      [PaymentMoved(0, AwaitingPayment), PaymentMoved(0, AwaitingFinality), PaymentMoved(0, Expired)]);
    assert expired.db.payments[0].status == Expired;
    var unsent := Unsent(RefundExpired, 3, Settled().db.outbox + [RefundMoved(0, RefundExpired)]);
    assert unsent.db.refunds[0].status == RefundExpired;
  }
}
