/** Every step of a run with one observer at a time leaves the rows saying what the chain says. */
module Indexing {
  import opened Basics
  import opened Lifecycle
  import opened Records
  import opened Evidence
  import opened Tables
  import opened Chains
  import opened Reading
  import opened RowFacts
  import opened Protocol
  import opened Consistency
  import opened Reachable
  import opened Index

  // ---- steps that read nothing of the chain

  /** The chain moved on, rows faded, keys were issued fresh, and nothing else happened to the index. */
  lemma IndexStays(env: Env, w: World, v: World)
    requires Indexed(env, w)
    requires Follows(w.chain, v.chain) && ChainTrue(env, v.chain, v.landed)
    requires KeysFresh(env, w.landed, w.db, v.db)
    requires v.db.cursor == w.db.cursor && Faded(w.db.observations, v.db.observations) && v.rounds == w.rounds
    requires RowsSound(env, v.db) && CallsSound(v.calls) && Watching(v.db, v.decisions)
    ensures Indexed(env, v)
  {
    hide ChainTrue, KeysFresh, Faded, RowsSound, CallsSound, Watching, RowsTrue, RowsWhole, RoundsTrue;
    RoundsStay(env, w.chain, v.chain, w.landed, w.db, v.db, w.rounds);
    RowsStay(env, w.chain, v.chain, w.db, v.db);
    WholeStays(env, w.chain, v.chain, w.landed, w.db, v.db);
  }

  lemma SameChain(env: Env, w: World)
    requires ChainTrue(env, w.chain, w.landed)
    ensures Follows(w.chain, w.chain)
  {
  }

  lemma ChainIndexed(env: Env, w: World, m: ChainMove)
    requires ChainMoves(env, w, m) && Indexed(env, w)
    ensures Indexed(env, AfterChain(env, w, m))
  {
    ChainFollows(env, w, m);
    var v := AfterChain(env, w, m);
    assert v.db == w.db && v.rounds == w.rounds && v.calls == w.calls && v.decisions == w.decisions;
    IndexStays(env, w, v);
  }

  /** Nothing opened, issued or refunded: every key here was here. */
  lemma KeysStay(env: Env, landed: set<Tx>, db: Rows, d: Rows)
    requires Grows(db, d) && AttemptsLinked(db) && RefundsLinked(db)
    requires d.attempts.Keys == db.attempts.Keys && d.refunds.Keys == db.refunds.Keys
    ensures KeysFresh(env, landed, db, d)
  {
    KeysSurvive(db, d);
    forall k | IssuedKey(d, k) ensures IssuedKey(db, k) {
      if AttemptKey(d, k) {
        var a :| HoldsAttempt(d, a, k);
        assert HoldsAttempt(db, a, k);
      } else {
        var r :| HoldsRefund(d, r, k);
        assert HoldsRefund(db, r, k);
      }
    }
  }

  lemma SoundStays(env: Env, db: Rows, d: Rows)
    requires Grows(db, d) && RowsSound(env, db)
    requires d.payments.Keys == db.payments.Keys
    requires d.attempts.Keys == db.attempts.Keys && d.refunds.Keys == db.refunds.Keys
    ensures RowsSound(env, d)
  {
    forall p | p in d.payments
      ensures d.payments[p].asset == db.payments[p].asset && d.payments[p].expiresAt == db.payments[p].expiresAt
    {
      assert PaymentGrows(db.payments[p], d.payments[p]);
    }
    forall a | a in d.attempts
      ensures d.attempts[a] == db.attempts[a].(
                status := d.attempts[a].status, authorizer := d.attempts[a].authorizer, revision := d.attempts[a].revision)
    {
      assert SameAttempt(db.attempts[a], d.attempts[a]);
    }
    forall r | r in d.refunds ensures d.refunds[r].scheme == db.refunds[r].scheme {
      assert RefundGrows(db.refunds[r], d.refunds[r]);
    }
  }

  // ---- workers

  /** What a worker's step leaves alone. */
  lemma WorkerLeaves(w: World, m: WorkerMove)
    requires WorkerMoves(w, m)
    ensures var v := AfterWorker(w, m);
            && v.db.payments.Keys == w.db.payments.Keys && v.db.attempts.Keys == w.db.attempts.Keys
            && v.db.refunds.Keys == w.db.refunds.Keys && v.db.cursor == w.db.cursor
            && Faded(w.db.observations, v.db.observations)
            && v.chain == w.chain && v.landed == w.landed && v.rounds == w.rounds && v.calls == w.calls
            && v.start == w.start && v.ranges == w.ranges
  {
    hide Grounds, RefundGrounds, Take, LostAttempts, LostPayments;
    if m.GiveUpOn? {
      LoseKeeps(w.db, {m.ref});
    }
  }

  lemma SeenHasSubject(db: Rows)
    requires RowsLinked(db)
    ensures db.observations == map[] || db.attempts != map[] || db.refunds != map[]
  {
    if db.observations != map[] {
      var ref :| ref in db.observations;
      assert RowLinked(db, ref, db.observations[ref]);
    }
  }

  lemma RefundHasPaid(db: Rows)
    requires RowsLinked(db)
    ensures db.refunds == map[] || exists p :: p in db.payments && db.payments[p].status == Succeeded
  {
    if db.refunds != map[] {
      var r :| r in db.refunds;
      assert Refundable(db, db.refunds[r].payment);
    }
  }

  /** Nothing is seen before there is a cursor, so nothing is a candidate. */
  lemma NothingSeen(db: Rows, decisions: set<Decision>)
    requires Watching(db, decisions) && RowsLinked(db) && db.cursor.None?
    ensures db.refunds == map[] && db.observations == map[]
  {
    RefundHasPaid(db);
    SeenHasSubject(db);
  }

  lemma WorkerWatching(w: World, m: WorkerMove)
    requires WorkerMoves(w, m) && Watching(w.db, w.decisions) && RowsLinked(w.db)
    ensures Watching(AfterWorker(w, m).db, AfterWorker(w, m).decisions)
  {
    WorkerLeaves(w, m);
    if w.db.cursor.None? {
      NothingSeen(w.db, w.decisions);
      if m.GiveUpOn? {
        LoseKeeps(w.db, {m.ref});
      }
    }
  }

  lemma WorkerIndexed(env: Env, w: World, m: WorkerMove)
    requires WorkerMoves(w, m) && Consistent(w) && Indexed(env, w)
    ensures Indexed(env, AfterWorker(w, m))
  {
    var v := AfterWorker(w, m);
    WorkerLeaves(w, m);
    WorkerGrows(w, m);
    WorkerWatching(w, m);
    hide AfterWorker, WorkerMoves, RowsWhole, RowsTrue, RoundsTrue, Watching;
    KeysStay(env, w.landed, w.db, v.db);
    SoundStays(env, w.db, v.db);
    SameChain(env, w);
    IndexStays(env, w, v);
  }

  // ---- requests

  /** An attempt issued has a key nothing on the chain spends. */
  lemma IssueIndex(env: Env, w: World, id: AttemptId, a: Attempt)
    requires Indexed(env, w) && RowsLinked(w.db) && FreshKey(env, w, a.key) && IssueAttempt(w.db, id, a).Some?
    requires a.scheme == Eip3009 && a.payment in w.db.payments
    requires a.validBefore <= w.db.payments[a.payment].expiresAt && w.db.cursor.Some?
    ensures var d := IssueAttempt(w.db, id, a).value;
            KeysFresh(env, w.landed, w.db, d) && RowsSound(env, d) && Watching(d, w.decisions)
  {
    var d := IssueAttempt(w.db, id, a).value;
    forall k | IssuedKey(d, k) ensures IssuedKey(w.db, k) || k == a.key {
      if AttemptKey(d, k) {
        var b :| HoldsAttempt(d, b, k);
        assert b == id || HoldsAttempt(w.db, b, k);
      } else {
        var r :| HoldsRefund(d, r, k);
        assert HoldsRefund(w.db, r, k);
      }
    }
  }

  lemma RefundIndex(env: Env, w: World, r: RefundId, refund: Refund)
    requires RowsSound(env, w.db) && Watching(w.db, w.decisions)
    requires RowsLinked(w.db) && FreshKey(env, w, refund.key) && r !in w.db.refunds
    requires refund.scheme == Eip3009
    ensures var d := w.db.(refunds := w.db.refunds[r := refund]);
            KeysFresh(env, w.landed, w.db, d) && RowsSound(env, d) && Watching(d, w.decisions)
  {
    var d := w.db.(refunds := w.db.refunds[r := refund]);
    hide RowsLinked;
    forall k | IssuedKey(d, k) ensures IssuedKey(w.db, k) || k == refund.key {
      if AttemptKey(d, k) {
        var b :| HoldsAttempt(d, b, k);
        assert HoldsAttempt(w.db, b, k);
      } else {
        var s :| HoldsRefund(d, s, k);
        assert s == r || HoldsRefund(w.db, s, k);
      }
    }
  }

  lemma OpenIndex(env: Env, w: World, p: PaymentId, row: Payment)
    requires Indexed(env, w) && RowsLinked(w.db) && p !in w.db.payments && row.status == Created && row.asset in env.watched
    ensures var d := w.db.(payments := w.db.payments[p := row]);
            KeysFresh(env, w.landed, w.db, d) && RowsSound(env, d) && Watching(d, w.decisions)
  {
    var d := w.db.(payments := w.db.payments[p := row]);
    assert Grows(w.db, d);
    KeysStay(env, w.landed, w.db, d);
  }

  /** Nothing is issued and nothing of a payment moves. */
  lemma QuietIndex(env: Env, w: World, d: Rows)
    requires Indexed(env, w) && RowsLinked(w.db) && Grows(w.db, d)
    requires d.payments == w.db.payments && d.attempts.Keys == w.db.attempts.Keys && d.refunds.Keys == w.db.refunds.Keys
    requires d.cursor == w.db.cursor
    ensures KeysFresh(env, w.landed, w.db, d) && RowsSound(env, d) && Watching(d, w.decisions)
  {
    KeysStay(env, w.landed, w.db, d);
    SoundStays(env, w.db, d);
  }

  lemma CallIsLinked(w: World, c: nat)
    requires Consistent(w) && c in w.calls
    ensures CallLinked(w.db, w.calls[c]) && RowsLinked(w.db)
  {
  }

  lemma IssueProceeds(env: Env, w: World, c: nat, now: Time, id: AttemptId, key: Key)
    requires c in w.calls && w.calls[c].IssueWatched? && FreshKey(env, w, key)
    requires RowsLinked(w.db) && CallLinked(w.db, w.calls[c]) && Indexed(env, w)
    ensures var d := DoProceed(w, c, now, id, key).db;
            KeysFresh(env, w.landed, w.db, d) && RowsSound(env, d) && Watching(d, w.decisions)
  {
    hide Indexed, KeysFresh, RowsSound, Watching, RowsLinked, FreshKey, IssueAttempt;
    var a := NewAttempt(w.calls[c].payment, w.calls[c].expiresAt, now, key);
    if a.Some? && IssueAttempt(w.db, id, a.value).Some? {
      IssueIndex(env, w, id, a.value);
    } else {
      NothingIndex(env, w);
    }
  }

  lemma ProceedIndex(env: Env, w: World, c: nat, now: Time, id: AttemptId, key: Key)
    requires c in w.calls && Runs(env, w, w.calls[c], id, key) && Consistent(w) && Indexed(env, w)
    ensures var d := DoProceed(w, c, now, id, key).db;
            KeysFresh(env, w.landed, w.db, d) && RowsSound(env, d) && Watching(d, w.decisions)
  {
    hide Indexed, Consistent, KeysFresh, RowsSound, Watching, RowsLinked, FreshKey, Held, HasLive, DoIssue;
    CallIsLinked(w, c);
    match w.calls[c]
    case IssueWatched(p, expiresAt) => IssueProceeds(env, w, c, now, id, key);
    case SupersedeCounted(a, read) =>
      ProceedGrows(env, w, c, now, id, key);
      QuietIndex(env, w, DoProceed(w, c, now, id, key).db);
    case RefundInserted(r, refund) =>
      CallsAreSound(env, w);
      RefundIndex(env, w, r, refund);
    case _ => NothingIndex(env, w);
  }

  lemma NothingIndex(env: Env, w: World)
    requires Indexed(env, w)
    ensures KeysFresh(env, w.landed, w.db, w.db) && RowsSound(env, w.db) && Watching(w.db, w.decisions)
  {
  }

  lemma CallsAreSound(env: Env, w: World)
    requires Indexed(env, w)
    ensures CallsSound(w.calls) && RowsSound(env, w.db) && Watching(w.db, w.decisions)
  {
  }

  lemma ProceedSound(w: World, c: nat, now: Time, id: AttemptId, key: Key)
    requires c in w.calls && CallsSound(w.calls)
    ensures CallsSound(DoProceed(w, c, now, id, key).calls)
  {
    assert CallSound(w.calls[c]);
    hide Held, HasLive, IssueAttempt, SaveAttempt;
  }

  lemma RequestSound(env: Env, w: World, m: RequestMove)
    requires RequestMoves(env, w, m) && CallsSound(w.calls)
    ensures CallsSound(AfterRequest(env, w, m).calls)
  {
    hide DoProceed;
    if m.Proceed? {
      ProceedSound(w, m.call, m.now, m.id, m.key);
    }
  }

  lemma RequestIndex(env: Env, w: World, m: RequestMove)
    requires RequestMoves(env, w, m) && Consistent(w) && Indexed(env, w)
    ensures var d := AfterRequest(env, w, m).db;
            KeysFresh(env, w.landed, w.db, d) && RowsSound(env, d) && Watching(d, w.decisions)
  {
    hide Indexed, KeysFresh, RowsSound, Watching, RowsLinked, DoProceed;
    if m.Proceed? {
      ProceedIndex(env, w, m.call, m.now, m.id, m.key);
    } else if m.Open? {
      OpenIndex(env, w, m.payment, m.row);
    } else {
      NothingIndex(env, w);
    }
  }

  lemma RequestIndexed(env: Env, w: World, m: RequestMove)
    requires RequestMoves(env, w, m) && Consistent(w) && Indexed(env, w)
    ensures Indexed(env, AfterRequest(env, w, m))
  {
    hide AfterRequest, RequestMoves, Consistent, RowsWhole, RowsTrue, RoundsTrue, Watching, RowsSound, CallsSound, KeysFresh;
    var v := AfterRequest(env, w, m);
    RequestLeaves(env, w, m);
    RequestIndex(env, w, m);
    RequestSound(env, w, m);
    SameChain(env, w);
    IndexStays(env, w, v);
  }
}
