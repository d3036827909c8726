/** Every world a run reaches is consistent, however many observers, workers and requests interleave. */
module Reachable {
  import opened Basics
  import opened Lifecycle
  import opened Records
  import opened Evidence
  import opened Tables
  import opened Chains
  import opened Reading
  import opened RowFacts
  import opened Protocol
  import opened Consistency

  lemma OthersSurvive(w: World, d: Rows)
    requires Consistent(w) && Grows(w.db, d)
    ensures RoundsLinked(d, w.rounds) && CallsLinked(d, w.calls) && PendingLinked(d, w.decisions, w.returning)
  {
    RoundsSurvive(w.db, d, w.rounds);
    CallsSurvive(w.db, d, w.calls);
    PendingSurvives(w.db, d, w.decisions, w.returning);
  }

  // ---- workers

  lemma MovedRight(p: Payment, to: Status, now: Time)
    requires Move(p, to, now).Some?
    ensures CanBecome(p.status, Move(p, to, now).value.status)
    ensures Move(p, to, now).value == p.(status := Move(p, to, now).value.status)
    ensures Move(p, to, now).value.status == to
    ensures to == Succeeded ==> p.Covered()
  {
  }

  lemma SaveConsistent(db: Rows, d: Decision)
    requires RowsLinked(db) && SucceededCovered(db) && DecisionLinked(db, d)
    ensures var after := SavePayment(db, d.id, d.moved, d.read.version);
            after.Some? ==> RowsLinked(after.value) && SucceededCovered(after.value)
  {
    var after := SavePayment(db, d.id, d.moved, d.read.version);
    if after.Some? {
      SaveGrows(db, d);
      RowsSurvive(db, after.value);
    }
  }

  lemma SaveReturnConsistent(db: Rows, d: Return)
    requires RowsLinked(db) && ReturnLinked(db, d)
    ensures var after := SaveRefund(db, d.id, d.to, d.read.version);
            after.Some? ==> RowsLinked(after.value) && after.value.payments == db.payments
  {
    var after := SaveRefund(db, d.id, d.to, d.read.version);
    if after.Some? {
      SaveReturnGrows(db, d);
      RowsSurvive(db, after.value);
    }
  }

  lemma GiveUpCovered(db: Rows, ref: Ref)
    requires SucceededCovered(db)
    ensures SucceededCovered(GiveUp(db, ref))
  {
    LoseKeeps(db, {ref});
    var d := GiveUp(db, ref);
    if d != db {
      ReceivedCovered(db, d);
    }
  }

  lemma ReceivedCovered(db: Rows, d: Rows)
    requires SucceededCovered(db) && PaymentsReceive(db.payments, d.payments)
    ensures SucceededCovered(d)
  {
    forall p | p in d.payments && d.payments[p].status == Succeeded ensures d.payments[p].Covered() {
      assert OnlyReceived(db.payments[p], d.payments[p]);
    }
  }

  lemma WorkerGrows(w: World, m: WorkerMove)
    requires WorkerMoves(w, m) && PendingLinked(w.db, w.decisions, w.returning)
    ensures Grows(w.db, AfterWorker(w, m).db)
  {
    match m
    case Save(d) => SaveGrows(w.db, d);
    case SaveReturn(d) => SaveReturnGrows(w.db, d);
    case GiveUpOn(ref) => GiveUpGrows(w.db, ref);
    case _ =>
  }

  lemma WorkerRows(w: World, m: WorkerMove)
    requires WorkerMoves(w, m) && RowsLinked(w.db) && SucceededCovered(w.db)
    requires PendingLinked(w.db, w.decisions, w.returning)
    ensures RowsLinked(AfterWorker(w, m).db) && SucceededCovered(AfterWorker(w, m).db)
  {
    match m
    case Save(d) => SaveConsistent(w.db, d);
    case SaveReturn(d) => SaveReturnConsistent(w.db, d);
    case GiveUpOn(ref) => GiveUpLinked(w.db, ref); GiveUpCovered(w.db, ref);
    case _ =>
  }

  lemma WorkerPending(w: World, m: WorkerMove)
    requires WorkerMoves(w, m) && PendingLinked(w.db, w.decisions, w.returning)
    ensures var v := AfterWorker(w, m); PendingLinked(v.db, v.decisions, v.returning)
  {
    WorkerGrows(w, m);
    PendingSurvives(w.db, AfterWorker(w, m).db, w.decisions, w.returning);
    if m.Decide? {
      MovedRight(w.db.payments[m.payment], m.to, m.now);
    }
  }

  lemma WorkerConsistent(w: World, m: WorkerMove)
    requires WorkerMoves(w, m) && Consistent(w)
    ensures Consistent(AfterWorker(w, m))
  {
    WorkerGrows(w, m);
    OthersSurvive(w, AfterWorker(w, m).db);
    WorkerRows(w, m);
    WorkerPending(w, m);
  }

  // ---- requests

  lemma IssueConsistent(env: Env, w: World, id: AttemptId, a: Attempt)
    requires RowsLinked(w.db) && FreshKey(env, w, a.key)
    requires a.payment in w.db.payments && w.db.payments[a.payment].status != Created
    ensures var after := IssueAttempt(w.db, id, a);
            after.Some? ==> RowsLinked(after.value) && after.value.payments == w.db.payments
  {
    var after := IssueAttempt(w.db, id, a);
    if after.Some? {
      IssueGrows(w.db, id, a);
      AllSurvive(w.db, after.value, w.db.observations);
    }
  }

  lemma SupersedeConsistent(db: Rows, id: AttemptId, read: Attempt)
    requires RowsLinked(db) && id in db.attempts && SameAttempt(read, db.attempts[id]) && read.Supersede().Some?
    ensures var after := SaveAttempt(db, id, read.Supersede().value, read.revision);
            after.Some? ==> RowsLinked(after.value) && after.value.payments == db.payments
  {
    var after := SaveAttempt(db, id, read.Supersede().value, read.revision);
    if after.Some? {
      SupersedeGrows(db, id, read);
      RowsSurvive(db, after.value);
    }
  }

  lemma RefundConsistent(env: Env, w: World, r: RefundId, refund: Refund)
    requires RowsLinked(w.db) && FreshKey(env, w, refund.key) && r !in w.db.refunds && Refundable(w.db, refund.payment)
    ensures RowsLinked(w.db.(refunds := w.db.refunds[r := refund]))
  {
    var d := w.db.(refunds := w.db.refunds[r := refund]);
    RefundAdded(w.db, r, refund);
    hide Grows, AllLinked, Spends;
    AllSurvive(w.db, d, w.db.observations);
  }

  lemma ProceedRows(env: Env, w: World, c: nat, now: Time, id: AttemptId, key: Key)
    requires c in w.calls && Runs(env, w, w.calls[c], id, key) && CallLinked(w.db, w.calls[c])
    requires RowsLinked(w.db)
    ensures RowsLinked(DoProceed(w, c, now, id, key).db)
    ensures DoProceed(w, c, now, id, key).db.payments == w.db.payments
  {
    match w.calls[c]
    case IssueWatched(p, expiresAt) =>
      var a := NewAttempt(p, expiresAt, now, key);
      if a.Some? {
        IssueConsistent(env, w, id, a.value);
      }
    case SupersedeCounted(a, read) =>
      if read.Supersede().Some? {
        SupersedeConsistent(w.db, a, read);
      }
    case RefundInserted(r, refund) => RefundConsistent(env, w, r, refund);
    case _ =>
  }

  /** The call a statement leaves behind is linked to the rows it read. */
  lemma ProceedCalls(env: Env, w: World, c: nat, now: Time, id: AttemptId, key: Key)
    requires c in w.calls && Runs(env, w, w.calls[c], id, key) && CallsLinked(w.db, w.calls)
    ensures CallsLinked(DoProceed(w, c, now, id, key).db, DoProceed(w, c, now, id, key).calls)
  {
    assert CallLinked(w.db, w.calls[c]);
    var v := DoProceed(w, c, now, id, key);
    ProceedGrows(env, w, c, now, id, key);
    CallsSurvive(w.db, v.db, w.calls);
    NextCall(env, w, c, now, id, key);
    hide DoProceed, CallLinked, Runs, Grows;
    forall b | b in v.calls ensures CallLinked(v.db, v.calls[b]) {
      assert b in w.calls && CallLinked(v.db, w.calls[b]);
    }
  }

  /** A statement ends its call, or changes no row and leaves the call at the next one. */
  predicate EndsOrGoesOn(w: World, c: nat, v: World) {
    || (v.calls == Dropped(w.calls, c) && (forall b :: b in v.calls ==> b in w.calls && b != c && v.calls[b] == w.calls[b]))
    || (c in v.calls && v.db == w.db && v.calls == w.calls[c := v.calls[c]])
  }

  lemma IssueEnds(w: World, c: nat, attempt: Option<Attempt>, id: AttemptId)
    ensures EndsOrGoesOn(w, c, DoIssue(w, c, attempt, id)) && c !in DoIssue(w, c, attempt, id).calls
  {
  }

  lemma SupersedeEnds(w: World, c: nat, a: AttemptId, read: Attempt)
    ensures EndsOrGoesOn(w, c, DoSupersede(w, c, a, read)) && c !in DoSupersede(w, c, a, read).calls
  {
  }

  lemma GoesOn(w: World, c: nat, now: Time, id: AttemptId, key: Key)
    requires c in w.calls
    ensures EndsOrGoesOn(w, c, DoProceed(w, c, now, id, key))
    ensures w.calls[c].IssueWatched? || w.calls[c].SupersedeCounted? ==> c !in DoProceed(w, c, now, id, key).calls
  {
    hide Held, HasLive, DoIssue, DoSupersede;
    match w.calls[c]
    case IssueWatched(p, expiresAt) => IssueEnds(w, c, NewAttempt(p, expiresAt, now, key), id);
    case SupersedeCounted(a, read) => SupersedeEnds(w, c, a, read);
    case _ =>
  }

  /** Where a statement leaves its call, the call is linked to the rows it read. */
  lemma NextLinked(env: Env, w: World, c: nat, now: Time, id: AttemptId, key: Key)
    requires c in w.calls && Runs(env, w, w.calls[c], id, key) && CallLinked(w.db, w.calls[c])
    requires !w.calls[c].IssueWatched? && !w.calls[c].SupersedeCounted?
    requires var v := DoProceed(w, c, now, id, key); c in v.calls && v.db == w.db
    ensures CallLinked(w.db, DoProceed(w, c, now, id, key).calls[c])
  {
    hide Held, HasLive, FreshKey, Locked, DoIssue, DoSupersede;
  }

  lemma NextCall(env: Env, w: World, c: nat, now: Time, id: AttemptId, key: Key)
    requires c in w.calls && Runs(env, w, w.calls[c], id, key) && CallLinked(w.db, w.calls[c])
    ensures var v := DoProceed(w, c, now, id, key);
            && v.calls.Keys <= w.calls.Keys
            && (forall b :: b in v.calls && b != c ==> v.calls[b] == w.calls[b])
            && (c in v.calls ==> CallLinked(v.db, v.calls[c]))
  {
    GoesOn(w, c, now, id, key);
    hide DoProceed, CallLinked, Runs;
    if c in DoProceed(w, c, now, id, key).calls {
      NextLinked(env, w, c, now, id, key);
    }
  }

  lemma OpenConsistent(db: Rows, p: PaymentId, row: Payment)
    requires RowsLinked(db) && SucceededCovered(db) && p !in db.payments && row.status == Created
    ensures Grows(db, db.(payments := db.payments[p := row]))
    ensures RowsLinked(db.(payments := db.payments[p := row]))
    ensures SucceededCovered(db.(payments := db.payments[p := row]))
  {
    RowsSurvive(db, db.(payments := db.payments[p := row]));
  }

  lemma RequestRows(env: Env, w: World, m: RequestMove)
    requires RequestMoves(env, w, m) && RowsLinked(w.db) && SucceededCovered(w.db) && CallsLinked(w.db, w.calls)
    ensures var v := AfterRequest(env, w, m);
            Grows(w.db, v.db) && RowsLinked(v.db) && SucceededCovered(v.db)
  {
    if m.Proceed? {
      assert CallLinked(w.db, w.calls[m.call]);
      ProceedGrows(env, w, m.call, m.now, m.id, m.key);
      ProceedRows(env, w, m.call, m.now, m.id, m.key);
    } else if m.Open? {
      OpenConsistent(w.db, m.payment, m.row);
    }
  }

  lemma RequestCalls(env: Env, w: World, m: RequestMove)
    requires RequestMoves(env, w, m) && CallsLinked(w.db, w.calls)
    requires Grows(w.db, AfterRequest(env, w, m).db)
    ensures var v := AfterRequest(env, w, m); CallsLinked(v.db, v.calls)
  {
    if m.Proceed? {
      ProceedCalls(env, w, m.call, m.now, m.id, m.key);
    } else {
      CallsSurvive(w.db, AfterRequest(env, w, m).db, w.calls);
    }
  }

  lemma RequestConsistent(env: Env, w: World, m: RequestMove)
    requires RequestMoves(env, w, m) && Consistent(w)
    ensures Consistent(AfterRequest(env, w, m))
  {
    RequestRows(env, w, m);
    RequestCalls(env, w, m);
    OthersSurvive(w, AfterRequest(env, w, m).db);
    RequestLeaves(env, w, m);
  }

  /** What a request has nothing to do with. */
  predicate OnlyRequests(w: World, v: World) {
    && v.rounds == w.rounds && v.decisions == w.decisions && v.returning == w.returning
    && v.chain == w.chain && v.landed == w.landed && v.start == w.start && v.ranges == w.ranges
    && v.db.observations == w.db.observations && v.db.cursor == w.db.cursor && v.db.outbox == w.db.outbox
  }

  lemma IssueLeaves(w: World, c: nat, attempt: Option<Attempt>, id: AttemptId)
    ensures OnlyRequests(w, DoIssue(w, c, attempt, id))
  {
    hide HasLive;
  }

  lemma SupersedeLeaves(w: World, c: nat, a: AttemptId, read: Attempt)
    ensures OnlyRequests(w, DoSupersede(w, c, a, read))
  {
  }

  lemma ProceedLeaves(w: World, c: nat, now: Time, id: AttemptId, key: Key)
    requires c in w.calls
    ensures OnlyRequests(w, DoProceed(w, c, now, id, key))
  {
    hide Held, HasLive, DoIssue, DoSupersede;
    match w.calls[c]
    case IssueWatched(p, expiresAt) => IssueLeaves(w, c, NewAttempt(p, expiresAt, now, key), id);
    case SupersedeCounted(a, read) => SupersedeLeaves(w, c, a, read);
    case _ =>
  }

  lemma RequestLeaves(env: Env, w: World, m: RequestMove)
    requires RequestMoves(env, w, m)
    ensures var v := AfterRequest(env, w, m);
            && v.rounds == w.rounds && v.decisions == w.decisions && v.returning == w.returning
            && v.chain == w.chain && v.landed == w.landed && v.start == w.start && v.ranges == w.ranges
            && v.db.observations == w.db.observations && v.db.cursor == w.db.cursor && v.db.outbox == w.db.outbox
  {
    hide Runs, DoProceed;
    if m.Proceed? {
      ProceedLeaves(w, m.call, m.now, m.id, m.key);
    }
  }

  // ---- observers

  lemma RoundWork(w: World, i: nat)
    requires Reads(w, i) && RoundsLinked(w.db, w.rounds)
    ensures WorkLinked(w.db, w.rounds[i].work)
  {
    assert RoundLinked(w.db, w.rounds[i]);
  }

  lemma LinkedRounds(w: World)
    requires Consistent(w)
    ensures RoundsLinked(w.db, w.rounds)
  {
  }

  lemma LookLinked(db: Rows, consumed: seq<Consumed>)
    requires AttemptsLinked(db)
    ensures forall k :: k in Against(db, consumed) ==> HitLinked(db, k, Against(db, consumed)[k])
    ensures forall k :: k in Backs(db, consumed) ==> BackLinked(db, k, Backs(db, consumed)[k])
  {
  }

  lemma SeenOfLinked(db: Rows, t: Transfer, x: Tx, at: Place, against: map<Key, Hit>)
    requires t.key in against && HitLinked(db, t.key, against[t.key])
    requires SeenOf(t, x, at, against).Some?
    ensures SeenLinked(db, SeenOf(t, x, at, against).value)
  {
    var hit := against[t.key];
    JudgeMeaning(t, at.time, hit.read, hit.payer);
  }

  lemma SentOfLinked(db: Rows, t: Transfer, x: Tx, at: Place, against: map<Key, Hit>, back: map<Key, Back>)
    requires t.key in back && BackLinked(db, t.key, back[t.key])
    requires SentOf(t, x, at, against, back).Some?
    ensures SentLinked(db, SentOf(t, x, at, against, back).value)
  {
    var hit := back[t.key];
    JudgeRefundMeaning(t, at.time, hit.read, hit.payer);
  }

  lemma ReceiptLinked(db: Rows, ts: seq<Transfer>, x: Tx, at: Place, work: Work)
    requires work.Receiving? && WorkLinked(db, work)
    ensures forall s :: s in work.seen + SeenIn(ts, x, at, work.against) ==> SeenLinked(db, s)
    ensures forall s :: s in work.sent + SentIn(ts, x, at, work.against, work.back) ==> SentLinked(db, s)
  {
    forall s | s in SeenIn(ts, x, at, work.against) ensures SeenLinked(db, s) {
      SeenInExact(ts, x, at, work.against, s);
      var t :| t in ts && SeenOf(t, x, at, work.against) == Some(s);
      SeenOfLinked(db, t, x, at, work.against);
    }
    forall s | s in SentIn(ts, x, at, work.against, work.back) ensures SentLinked(db, s) {
      SentInExact(ts, x, at, work.against, work.back, s);
      var t :| t in ts && SentOf(t, x, at, work.against, work.back) == Some(s);
      SentOfLinked(db, t, x, at, work.against, work.back);
    }
  }

  lemma WriteRows(w: World, i: nat)
    requires Reads(w, i) && w.rounds[i].work.Receiving? && WorkLinked(w.db, w.rounds[i].work)
    requires RowsLinked(w.db) && SucceededCovered(w.db)
    ensures RowsLinked(DoWrite(w, i).db) && SucceededCovered(DoWrite(w, i).db)
  {
    var r, work := w.rounds[i], w.rounds[i].work;
    var recorded := Record(w.db, r.first, r.last, r.Settling?, work.seen, work.sent);
    LinkedIsCurrent(w.db, work.seen);
    hide Record, RowsLinked, SucceededCovered, PaymentsReceive, AttemptsSeen, SeenLinked, SentLinked;
    if recorded.Some? {
      RecordLinked(w.db, r.first, r.last, r.Settling?, work.seen, work.sent);
      RecordKeeps(w.db, r.first, r.last, r.Settling?, work.seen, work.sent);
      ReceivedCovered(w.db, recorded.value);
      CursorMoves(recorded.value, DoWrite(w, i).db.cursor);
    }
  }

  lemma CursorMoves(db: Rows, to: Option<Position>)
    requires RowsLinked(db) && SucceededCovered(db)
    ensures RowsLinked(db.(cursor := to)) && SucceededCovered(db.(cursor := to))
  {
    var d := db.(cursor := to);
    forall ref | ref in db.observations ensures RowLinked(d, ref, db.observations[ref]) {
      assert RowLinked(db, ref, db.observations[ref]);
    }
  }

  lemma ObserverGrows(env: Env, w: World, m: ObserverMove)
    requires ObserverMoves(w, m) && RoundsLinked(w.db, w.rounds)
    ensures Grows(w.db, AfterObserver(env, w, m).db)
  {
    hide Grows, DoWrite, BeginRound, KeysIn, Against, Backs, Transactions, Find, SeenIn, SentIn, WorkLinked;
    if m.Write? {
      assert RoundLinked(w.db, w.rounds[m.observer]);
      WriteGrows(w, m.observer);
    } else {
      GrowsSelf(w.db, AfterObserver(env, w, m).db);
    }
  }

  lemma ObserverRows(env: Env, w: World, m: ObserverMove)
    requires ObserverMoves(w, m) && RoundsLinked(w.db, w.rounds)
    requires RowsLinked(w.db) && SucceededCovered(w.db)
    ensures RowsLinked(AfterObserver(env, w, m).db) && SucceededCovered(AfterObserver(env, w, m).db)
  {
    hide DoWrite, BeginRound, KeysIn, Against, Backs, Transactions, Find, SeenIn, SentIn, WorkLinked, RowsLinked, SucceededCovered;
    if m.Write? {
      assert RoundLinked(w.db, w.rounds[m.observer]);
      WriteRows(w, m.observer);
    } else {
      CursorMoves(w.db, AfterObserver(env, w, m).db.cursor);
    }
  }

  lemma ObserverRounds(env: Env, w: World, m: ObserverMove)
    requires ObserverMoves(w, m) && RoundsLinked(w.db, w.rounds) && AttemptsLinked(w.db)
    ensures RoundsLinked(AfterObserver(env, w, m).db, AfterObserver(env, w, m).rounds)
  {
    var v := AfterObserver(env, w, m);
    ObserverGrows(env, w, m);
    RoundsSurvive(w.db, v.db, w.rounds);
    if m.Look? {
      LookLinked(w.db, w.rounds[m.observer].work.consumed);
    } else if m.Receipt? {
      var work := w.rounds[m.observer].work;
      assert RoundLinked(w.db, w.rounds[m.observer]);
      var x := work.todo[0];
      if Find(w.chain, x).Some? {
        ReceiptLinked(w.db, if x in env.ledger then env.ledger[x] else [], x, Find(w.chain, x).value, work);
      }
    }
  }

  lemma ObserverLeaves(env: Env, w: World, m: ObserverMove)
    requires ObserverMoves(w, m)
    ensures var v := AfterObserver(env, w, m);
            && v.calls == w.calls && v.decisions == w.decisions && v.returning == w.returning
            && v.chain == w.chain && v.landed == w.landed
  {
  }

  lemma ObserverConsistent(env: Env, w: World, m: ObserverMove)
    requires ObserverMoves(w, m) && Consistent(w)
    ensures Consistent(AfterObserver(env, w, m))
  {
    ObserverGrows(env, w, m);
    ObserverRows(env, w, m);
    ObserverRounds(env, w, m);
    OthersSurvive(w, AfterObserver(env, w, m).db);
    ObserverLeaves(env, w, m);
  }

  // ---- runs

  lemma ConsistentStep(env: Env, w: World, s: Step, v: World)
    requires Next(env, w, s, v) && Consistent(w)
    ensures Consistent(v)
  {
    hide AfterWorker, AfterRequest, AfterObserver, RowsLinked, RoundsLinked, CallsLinked, PendingLinked, SucceededCovered;
    match s
    case ByChain(m) =>
    case ByWorker(m) => WorkerConsistent(w, m);
    case ByRequest(m) => RequestConsistent(env, w, m);
    case ByObserver(m) => ObserverConsistent(env, w, m);
  }

  lemma {:induction false} ConsistentRun(env: Env, ws: seq<World>, ss: seq<Step>, i: nat)
    requires Run(env, ws, ss) && i < |ws|
    ensures Consistent(ws[i])
  {
    if i > 0 {
      ConsistentRun(env, ws, ss, i - 1);
      ConsistentStep(env, ws[i - 1], ss[i - 1], ws[i]);
    }
  }
}
