/**
 What being paid, expired and refunded means on the final chain: success is
 sound, a paid payment never expires, and an expired refund never went out.
 */
module Settlement {
  import opened Basics
  import opened Lifecycle
  import opened Records
  import opened Evidence
  import opened Tables
  import opened Chains
  import opened Reading
  import opened RowFacts
  import opened Protocol
  import opened Consistency
  import opened Reachable
  import opened Index
  import opened Indexing
  import opened Observing
  import opened Writing
  import opened IndexAgrees

  /** A block of the chain carries a transfer that pays a payment through one of its attempts. */
  predicate PaysIn(env: Env, c: Chain, db: Rows, p: PaymentId, a: AttemptId, h: nat, x: Tx, t: Transfer) {
    && p in db.payments && a in db.attempts && db.attempts[a].payment == p
    && On(c, h, x) && Carries(env.ledger, x, t)
    && Pays(t, c.blocks[h].time, db.attempts[a], db.payments[p])
  }

  ghost predicate PaidOn(env: Env, c: Chain, db: Rows, p: PaymentId) {
    exists a, h: nat, x, t :: h <= c.final && PaysIn(env, c, db, p, a, h, x, t)
  }

  /** The network was read past the deadline, and no block carries a transfer that pays. */
  ghost predicate NeverPaid(env: Env, c: Chain, db: Rows, p: PaymentId) {
    && p in db.payments && ReadPast(db, db.payments[p].expiresAt)
    && forall a, h, x, t :: !PaysIn(env, c, db, p, a, h, x, t)
  }

  /** A block of the chain carries a transfer that settles a refund. */
  predicate SettlesIn(env: Env, c: Chain, db: Rows, r: RefundId, h: nat, x: Tx, t: Transfer) {
    && r in db.refunds && db.refunds[r].payment in db.payments
    && On(c, h, x) && Carries(env.ledger, x, t)
    && JudgeRefund(t, c.blocks[h].time, db.refunds[r], db.payments[db.refunds[r].payment]) == Some(Matched)
  }

  ghost predicate NeverSent(env: Env, c: Chain, db: Rows, r: RefundId) {
    && r in db.refunds && ReadPast(db, db.refunds[r].expiresAt)
    && forall h, x, t :: !SettlesIn(env, c, db, r, h, x, t)
  }

  // ---- what a step is to the chain and the rows

  /** One world after another: the final chain stays, rows grow, keys come fresh and the cursor is no earlier. */
  ghost predicate Stepped(env: Env, w: World, v: World) {
    && Follows(w.chain, v.chain)
    && Grows(w.db, v.db)
    && KeysFresh(env, w.landed, w.db, v.db)
    && (w.db.cursor.Some? ==> v.db.cursor.Some? && w.db.cursor.value.height <= v.db.cursor.value.height)
  }

  lemma ObserverKeys(env: Env, w: World, m: ObserverMove)
    requires ObserverMoves(w, m) && RoundsLinked(w.db, w.rounds)
    ensures var d := AfterObserver(env, w, m).db;
            d.attempts.Keys == w.db.attempts.Keys && d.refunds.Keys == w.db.refunds.Keys
            && d.payments.Keys == w.db.payments.Keys
            && forall p :: p in w.db.payments ==> d.payments[p].status == w.db.payments[p].status
  {
    if m.Write? {
      hide RoundsLinked, WorkLinked, DoWrite;
      RoundWork(w, m.observer);
      var d := Wrote(w, m.observer);
      forall p | p in w.db.payments ensures d.payments[p].status == w.db.payments[p].status {
        assert OnlyReceived(w.db.payments[p], d.payments[p]);
      }
    }
  }

  lemma ObserverSteps(env: Env, w: World, m: ObserverMove)
    requires ObserverMoves(w, m) && Lone(w, ByObserver(m)) && Consistent(w) && Indexed(env, w)
    ensures Stepped(env, w, AfterObserver(env, w, m))
  {
    LinkedRounds(w);
    LinkedRows(w);
    SameChain(env, w);
    hide Consistent, AfterObserver, ChainTrue, RowsTrue, RowsWhole, KeysFresh, Grows;
    ObserverGrows(env, w, m);
    ObserverKeys(env, w, m);
    ObserverLeaves(env, w, m);
    KeysStay(env, w.landed, w.db, AfterObserver(env, w, m).db);
    if w.db.cursor.Some? {
      ObserverCursor(env, w, m);
    }
  }

  lemma ObserverCursor(env: Env, w: World, m: ObserverMove)
    requires ObserverMoves(w, m) && Lone(w, ByObserver(m)) && Indexed(env, w) && RoundsLinked(w.db, w.rounds)
    requires w.db.cursor.Some?
    ensures var d := AfterObserver(env, w, m).db;
            d.cursor.Some? && w.db.cursor.value.height <= d.cursor.value.height
  {
    hide WorkFinal, WorkAhead, RowsTrue, RowsWhole, ChainTrue, WorkLinked, RoundsLinked;
    if m.Write? {
      OneRound(env, w, m.observer);
      RoundWork(w, m.observer);
      hide DoWrite;
      var d := Wrote(w, m.observer);
    } else if m.Stand? {
      OneRound(env, w, m.observer);
    }
  }

  lemma StepForward(env: Env, w: World, s: Step, v: World)
    requires Next(env, w, s, v) && Lone(w, s) && Consistent(w) && Indexed(env, w)
    ensures Stepped(env, w, v)
  {
    hide Consistent, Indexed, AfterChain, AfterWorker, AfterRequest, AfterObserver, KeysFresh, Grows, Follows;
    match s
    case ByChain(m) => ChainSteps(env, w, m);
    case ByWorker(m) => WorkerSteps(env, w, m);
    case ByRequest(m) => RequestSteps(env, w, m);
    case ByObserver(m) => ObserverSteps(env, w, m);
  }

  lemma ChainSteps(env: Env, w: World, m: ChainMove)
    requires ChainMoves(env, w, m) && Indexed(env, w)
    ensures Stepped(env, w, AfterChain(env, w, m))
  {
    ChainFollows(env, w, m);
    assert AfterChain(env, w, m).db == w.db;
  }

  lemma WorkerSteps(env: Env, w: World, m: WorkerMove)
    requires WorkerMoves(w, m) && Consistent(w) && Indexed(env, w)
    ensures Stepped(env, w, AfterWorker(w, m))
  {
    WorkerLeaves(w, m);
    WorkerGrows(w, m);
    SameChain(env, w);
    hide AfterWorker, WorkerMoves;
    KeysStay(env, w.landed, w.db, AfterWorker(w, m).db);
  }

  lemma RequestSteps(env: Env, w: World, m: RequestMove)
    requires RequestMoves(env, w, m) && Consistent(w) && Indexed(env, w)
    ensures Stepped(env, w, AfterRequest(env, w, m))
  {
    hide AfterRequest, RequestMoves, KeysFresh, Grows, RowsTrue, RowsWhole;
    RequestLeaves(env, w, m);
    RequestRows(env, w, m);
    RequestIndex(env, w, m);
    SameChain(env, w);
  }

  // ---- what was paid stays paid

  lemma PaidStays(env: Env, w: World, v: World, p: PaymentId)
    requires Stepped(env, w, v) && PaidOn(env, w.chain, w.db, p)
    ensures PaidOn(env, v.chain, v.db, p)
  {
    var a, h: nat, x, t :| h <= w.chain.final && PaysIn(env, w.chain, w.db, p, a, h, x, t);
    FollowsOn(w.chain, v.chain, h, x);
    assert PaymentGrows(w.db.payments[p], v.db.payments[p]);
    assert SameAttempt(w.db.attempts[a], v.db.attempts[a]);
    assert PaysIn(env, v.chain, v.db, p, a, h, x, t);
  }

  // ---- what was never paid never is

  /** A block above the cursor is no earlier than the cursor's. */
  lemma AboveIsLater(env: Env, c: Chain, landed: set<Tx>, cursor: Option<Position>, h: nat)
    requires ChainTrue(env, c, landed) && CursorTrue(c, cursor) && cursor.Some?
    requires cursor.value.height <= h < |c.blocks|
    ensures cursor.value.time <= c.blocks[h].time
  {
  }

  /** The cursor's block stays where it is, so what was read past stays read past. */
  lemma ReadPastStays(env: Env, w: World, v: World, deadline: Time)
    requires Stepped(env, w, v) && Indexed(env, w) && Indexed(env, v) && ReadPast(w.db, deadline)
    ensures ReadPast(v.db, deadline)
  {
    hide RowsTrue, RowsWhole, RoundsTrue, RowsSound, Grows, KeysFresh;
    assert v.chain.blocks[w.db.cursor.value.height] == w.chain.blocks[w.db.cursor.value.height];
    AboveIsLater(env, v.chain, v.landed, Some(PositionAt(v.chain, w.db.cursor.value.height)), v.db.cursor.value.height);
  }

  /** Whoever holds a key held it when it was issued. */
  lemma IssuedIsHeld(db: Rows, d: Rows, k: Key)
    requires Grows(db, d) && AttemptsLinked(d) && RefundsLinked(d) && IssuedKey(db, k)
    ensures forall a :: a in d.attempts && d.attempts[a].key == k ==> a in db.attempts
    ensures forall r :: r in d.refunds && d.refunds[r].key == k ==> r in db.refunds
  {
    KeysSurvive(db, d);
    if AttemptKey(db, k) {
      var b :| HoldsAttempt(db, b, k);
      assert d.attempts[b].key == k;
    } else {
      var q :| HoldsRefund(db, q, k);
      assert d.refunds[q].key == k;
    }
  }

  lemma FreshIsUnspent(env: Env, w: World, d: Rows, h: nat, x: Tx, t: Transfer, k: Key)
    requires ChainTrue(env, w.chain, w.landed) && KeysFresh(env, w.landed, w.db, d)
    requires IssuedKey(d, k) && !IssuedKey(w.db, k) && On(w.chain, h, x) && Carries(env.ledger, x, t)
    ensures t.key != k
  {
    var i :| 0 <= i < |env.ledger[x]| && env.ledger[x][i] == t;
    assert x in w.landed && !Spends(env.ledger, x, k);
  }

  /** An attempt that is new since has a key no transaction that was on the chain spends. */
  lemma NewAttemptUnspent(env: Env, w: World, v: World, a: AttemptId, h: nat, x: Tx, t: Transfer)
    requires Stepped(env, w, v) && ChainTrue(env, w.chain, w.landed) && RowsLinked(v.db)
    requires a in v.db.attempts && a !in w.db.attempts && On(w.chain, h, x) && Carries(env.ledger, x, t)
    ensures t.key != v.db.attempts[a].key
  {
    hide KeysFresh, Grows, ObservationsLinked, RefundsLinked, ChainTrue;
    var k := v.db.attempts[a].key;
    assert HoldsAttempt(v.db, a, k);
    if IssuedKey(w.db, k) {
      IssuedIsHeld(w.db, v.db, k);
    } else {
      FreshIsUnspent(env, w, v.db, h, x, t, k);
    }
  }

  /** However the chain moved on, what is at or above where the cursor was is no earlier than it. */
  lemma CursorStaysEarlier(env: Env, w: World, v: World, h: nat)
    requires Stepped(env, w, v) && Indexed(env, w) && Indexed(env, v) && w.db.cursor.Some?
    requires w.db.cursor.value.height <= h < |v.chain.blocks|
    ensures w.db.cursor.value.time <= v.chain.blocks[h].time
  {
    hide KeysFresh, RowsTrue, RowsWhole, RoundsTrue, Watching;
    var cursor := w.db.cursor.value;
    assert v.chain.blocks[cursor.height] == w.chain.blocks[cursor.height];
    AboveIsLater(env, v.chain, v.landed, Some(PositionAt(v.chain, cursor.height)), h);
  }

  /** No block from the cursor upwards pays: its moment is at or past every attempt's deadline. */
  lemma LateBlocksPayNothing(env: Env, w: World, p: PaymentId, a: AttemptId, h: nat, x: Tx, t: Transfer)
    requires Indexed(env, w) && p in w.db.payments && ReadPast(w.db, w.db.payments[p].expiresAt)
    requires PaysIn(env, w.chain, w.db, p, a, h, x, t)
    ensures h < w.db.cursor.value.height
  {
    hide RowsTrue, RowsWhole, RoundsTrue;
    if h >= w.db.cursor.value.height {
      AboveIsLater(env, w.chain, w.landed, w.db.cursor, h);
    }
  }

  lemma LateBlocksSettleNothing(env: Env, w: World, r: RefundId, h: nat, x: Tx, t: Transfer)
    requires Indexed(env, w) && r in w.db.refunds && ReadPast(w.db, w.db.refunds[r].expiresAt)
    requires SettlesIn(env, w.chain, w.db, r, h, x, t)
    ensures h < w.db.cursor.value.height
  {
    hide RowsTrue, RowsWhole, RoundsTrue;
    if h >= w.db.cursor.value.height {
      AboveIsLater(env, w.chain, w.landed, w.db.cursor, h);
    }
  }

  lemma NeverPaidStays(env: Env, w: World, v: World, p: PaymentId)
    requires Stepped(env, w, v) && Indexed(env, w) && Indexed(env, v) && RowsLinked(w.db) && RowsLinked(v.db)
    requires NeverPaid(env, w.chain, w.db, p)
    ensures NeverPaid(env, v.chain, v.db, p)
  {
    assert PaymentGrows(w.db.payments[p], v.db.payments[p]);
    var deadline := w.db.payments[p].expiresAt;
    ReadPastStays(env, w, v, deadline);
    forall a, h, x, t ensures !PaysIn(env, v.chain, v.db, p, a, h, x, t) {
      if PaysIn(env, v.chain, v.db, p, a, h, x, t) {
        PaidEarlier(env, w, v, p, a, h, x, t);
      }
    }
  }

  /** What pays now, after the deadline was read past, paid already. */
  lemma PaidEarlier(env: Env, w: World, v: World, p: PaymentId, a: AttemptId, h: nat, x: Tx, t: Transfer)
    requires Stepped(env, w, v) && Indexed(env, w) && Indexed(env, v) && RowsLinked(w.db) && RowsLinked(v.db)
    requires p in w.db.payments && ReadPast(w.db, w.db.payments[p].expiresAt)
    requires PaysIn(env, v.chain, v.db, p, a, h, x, t)
    ensures PaysIn(env, w.chain, w.db, p, a, h, x, t)
  {
    hide KeysFresh, RowsTrue, RowsWhole, RoundsTrue, RowsLinked, Watching;
    assert PaymentGrows(w.db.payments[p], v.db.payments[p]);
    var cursor := w.db.cursor.value;
    if h >= cursor.height {
      CursorStaysEarlier(env, w, v, h);
    } else {
      FollowsOn(w.chain, v.chain, h, x);
      if a in w.db.attempts {
        assert SameAttempt(w.db.attempts[a], v.db.attempts[a]);
      } else {
        NewAttemptUnspent(env, w, v, a, h, x, t);
      }
    }
  }

  lemma NeverSentStays(env: Env, w: World, v: World, r: RefundId)
    requires Stepped(env, w, v) && Indexed(env, w) && Indexed(env, v) && RowsLinked(w.db) && RowsLinked(v.db)
    requires NeverSent(env, w.chain, w.db, r)
    ensures NeverSent(env, v.chain, v.db, r)
  {
    assert RefundGrows(w.db.refunds[r], v.db.refunds[r]);
    ReadPastStays(env, w, v, w.db.refunds[r].expiresAt);
    forall h, x, t ensures !SettlesIn(env, v.chain, v.db, r, h, x, t) {
      if SettlesIn(env, v.chain, v.db, r, h, x, t) {
        SentEarlier(env, w, v, r, h, x, t);
      }
    }
  }

  lemma SentEarlier(env: Env, w: World, v: World, r: RefundId, h: nat, x: Tx, t: Transfer)
    requires Stepped(env, w, v) && Indexed(env, w) && Indexed(env, v) && RowsLinked(w.db)
    requires r in w.db.refunds && ReadPast(w.db, w.db.refunds[r].expiresAt)
    requires SettlesIn(env, v.chain, v.db, r, h, x, t)
    ensures SettlesIn(env, w.chain, w.db, r, h, x, t)
  {
    assert Refundable(w.db, w.db.refunds[r].payment);
    hide KeysFresh, RowsTrue, RowsWhole, RoundsTrue, RowsLinked, Watching;
    assert RefundGrows(w.db.refunds[r], v.db.refunds[r]);
    assert PaymentGrows(w.db.payments[w.db.refunds[r].payment], v.db.payments[w.db.refunds[r].payment]);
    var cursor := w.db.cursor.value;
    if h >= cursor.height {
      CursorStaysEarlier(env, w, v, h);
    } else {
      FollowsOn(w.chain, v.chain, h, x);
    }
  }
}
