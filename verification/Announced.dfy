/** What the outbox tells of refunds and of attempts: each refund's end once, and each confirmation once. */
module Announced {
  import opened Basics
  import opened Lifecycle
  import opened Records
  import opened Evidence
  import opened Tables
  import opened Chains
  import opened Reading
  import opened RowFacts
  import opened Protocol
  import opened Consistency
  import opened Reachable
  import opened Index
  import opened Indexing
  import opened Writing
  import opened Arrivals

  // ---- refunds

  function ToldOf(e: Event, r: RefundId): seq<RefundStatus> {
    if e.RefundMoved? && e.refund == r then [e.to] else []
  }

  /** The statuses the outbox told of one refund, in the order of its rows. */
  function Ends(outbox: seq<Event>, r: RefundId): seq<RefundStatus> {
    if outbox == [] then []
    else Ends(outbox[..|outbox| - 1], r) + ToldOf(outbox[|outbox| - 1], r)
  }

  lemma EndsNext(outbox: seq<Event>, e: Event, r: RefundId)
    ensures Ends(outbox + [e], r) == Ends(outbox, r) + ToldOf(e, r)
  {
    assert (outbox + [e])[..|outbox|] == outbox;
  }

  /** What a refund in a status was told of: its end, if that is one. */
  function EndOf(status: RefundStatus): seq<RefundStatus> {
    if status == RefundSucceeded || status == RefundExpired then [status] else []
  }

  ghost predicate EndsTold(db: Rows) {
    forall r :: Ends(db.outbox, r) == if r in db.refunds then EndOf(db.refunds[r].status) else []
  }

  lemma {:induction false} ConfirmingsEndNothing(before: seq<Event>, after: seq<Event>, r: RefundId)
    requires OnlyConfirmings(before, after)
    ensures Ends(after, r) == Ends(before, r)
    decreases |after|
  {
    if |before| < |after| {
      var front := after[..|after| - 1];
      assert front[..|before|] == before;
      ConfirmingsEndNothing(before, front, r);
    } else {
      assert after == before;
    }
  }

  lemma QuietEnds(db: Rows, d: Rows)
    requires EndsTold(db) && d.refunds == db.refunds && OnlyConfirmings(db.outbox, d.outbox)
    ensures EndsTold(d)
  {
    forall r ensures Ends(d.outbox, r) == Ends(db.outbox, r) {
      ConfirmingsEndNothing(db.outbox, d.outbox, r);
    }
  }

  lemma SaveEnds(db: Rows, id: PaymentId, moved: Payment, at: nat)
    requires EndsTold(db) && SavePayment(db, id, moved, at).Some?
    ensures EndsTold(SavePayment(db, id, moved, at).value)
  {
    forall r ensures Ends(SavePayment(db, id, moved, at).value.outbox, r) == Ends(db.outbox, r) {
      EndsNext(db.outbox, PaymentMoved(id, moved.status), r);
    }
  }

  /** The refund that is saved ends at most now, because it had not. */
  lemma SaveReturnEnd(db: Rows, d: Return, r: RefundId)
    requires Ends(db.outbox, r) == if r in db.refunds then EndOf(db.refunds[r].status) else []
    requires ReturnLinked(db, d) && SaveRefund(db, d.id, d.to, d.read.version).Some?
    ensures var after := SaveRefund(db, d.id, d.to, d.read.version).value;
            Ends(after.outbox, r) == if r in after.refunds then EndOf(after.refunds[r].status) else []
  {
    EndsNext(db.outbox, RefundMoved(d.id, d.to), r);
    hide Ends;
    assert d.read == db.refunds[d.id];
  }

  lemma SaveReturnEnds(db: Rows, d: Return)
    requires EndsTold(db) && ReturnLinked(db, d) && SaveRefund(db, d.id, d.to, d.read.version).Some?
    ensures EndsTold(SaveRefund(db, d.id, d.to, d.read.version).value)
  {
    var after := SaveRefund(db, d.id, d.to, d.read.version).value;
    hide ReturnLinked, SaveRefund, Ends, EndOf;
    forall r ensures Ends(after.outbox, r) == if r in after.refunds then EndOf(after.refunds[r].status) else [] {
      SaveReturnEnd(db, d, r);
    }
  }

  lemma WorkerEnds(w: World, m: WorkerMove)
    requires WorkerMoves(w, m) && PendingLinked(w.db, w.decisions, w.returning) && EndsTold(w.db)
    ensures EndsTold(AfterWorker(w, m).db)
  {
    hide Grounds, RefundGrounds, EndsTold, Lose, SavePayment, SaveRefund;
    match m
    case Save(d) =>
      if SavePayment(w.db, d.id, d.moved, d.read.version).Some? {
        SaveEnds(w.db, d.id, d.moved, d.read.version);
      }
    case SaveReturn(d) =>
      if SaveRefund(w.db, d.id, d.to, d.read.version).Some? {
        SaveReturnEnds(w.db, d);
      }
    case GiveUpOn(ref) =>
      LoseKeeps(w.db, {ref});
      QuietEnds(w.db, GiveUp(w.db, ref));
    case _ =>
  }

  /** A refund that is stored has not ended, and nothing was told of it. */
  lemma InsertEnds(db: Rows, r: RefundId, refund: Refund)
    requires EndsTold(db) && r !in db.refunds && refund.status == RefundCreated
    ensures EndsTold(db.(refunds := db.refunds[r := refund]))
  {
  }

  lemma ProceedEnds(env: Env, w: World, c: nat, now: Time, id: AttemptId, key: Key)
    requires c in w.calls && Runs(env, w, w.calls[c], id, key) && CallSound(w.calls[c]) && EndsTold(w.db)
    ensures EndsTold(DoProceed(w, c, now, id, key).db)
  {
    hide Held, HasLive, FreshKey, EndsTold, DoIssue, DoSupersede, DoLock;
    match w.calls[c]
    case RefundInserted(r, refund) => InsertEnds(w.db, r, refund);
    case IssueWatched(p, e) =>
      IssueRows(w, c, NewAttempt(p, e, now, key), id);
      QuietEnds(w.db, DoProceed(w, c, now, id, key).db);
    case SupersedeCounted(a, read) =>
      SupersedeRows(w, c, a, read);
      QuietEnds(w.db, DoProceed(w, c, now, id, key).db);
    case RefundAsked(r, refund) => LockRows(w, c, r, refund);
    case _ =>
  }

  lemma IssueRows(w: World, c: nat, attempt: Option<Attempt>, id: AttemptId)
    ensures var d := DoIssue(w, c, attempt, id).db; d.refunds == w.db.refunds && d.outbox == w.db.outbox
  {
    hide HasLive;
  }

  lemma SupersedeRows(w: World, c: nat, a: AttemptId, read: Attempt)
    ensures var d := DoSupersede(w, c, a, read).db; d.refunds == w.db.refunds && d.outbox == w.db.outbox
  {
  }

  lemma LockRows(w: World, c: nat, r: RefundId, refund: Refund)
    ensures DoLock(w, c, r, refund).db == w.db
  {
  }

  lemma RequestEnds(env: Env, w: World, m: RequestMove)
    requires RequestMoves(env, w, m) && CallsSound(w.calls) && EndsTold(w.db)
    ensures EndsTold(AfterRequest(env, w, m).db)
  {
    hide DoProceed, Runs;
    if m.Proceed? {
      assert CallSound(w.calls[m.call]);
      hide EndsTold;
      ProceedEnds(env, w, m.call, m.now, m.id, m.key);
    } else {
      QuietEnds(w.db, AfterRequest(env, w, m).db);
    }
  }

  /** What a step of an observer leaves of the events: those there were, and confirmings. */
  lemma ObserverAdds(env: Env, w: World, m: ObserverMove)
    requires ObserverMoves(w, m) && RoundsLinked(w.db, w.rounds)
    ensures var d := AfterObserver(env, w, m).db;
            d.refunds == w.db.refunds && OnlyConfirmings(w.db.outbox, d.outbox)
  {
    if m.Write? {
      hide RoundsLinked, WorkLinked, DoWrite;
      RoundWork(w, m.observer);
      var d := Wrote(w, m.observer);
    }
  }

  lemma ObserverEnds(env: Env, w: World, m: ObserverMove)
    requires ObserverMoves(w, m) && RoundsLinked(w.db, w.rounds) && EndsTold(w.db)
    ensures EndsTold(AfterObserver(env, w, m).db)
  {
    hide EndsTold, RoundsLinked, ObserverMoves, AfterObserver, OnlyConfirmings;
    ObserverAdds(env, w, m);
    QuietEnds(w.db, AfterObserver(env, w, m).db);
  }

  lemma EndsStep(env: Env, w: World, s: Step, v: World)
    requires Next(env, w, s, v) && Consistent(w) && CallsSound(w.calls) && EndsTold(w.db)
    ensures EndsTold(v.db)
  {
    LinkedOf(w);
    hide EndsTold, WorkerMoves, RequestMoves, ObserverMoves, AfterWorker, AfterRequest, AfterObserver, RoundsLinked, RowsLinked,
         CallsLinked, CallsSound;
    match s
    case ByChain(m) =>
    case ByWorker(m) => WorkerEnds(w, m);
    case ByRequest(m) => RequestEnds(env, w, m);
    case ByObserver(m) => ObserverEnds(env, w, m);
  }

  lemma CallsStep(env: Env, w: World, s: Step, v: World)
    requires Next(env, w, s, v) && CallsSound(w.calls)
    ensures CallsSound(v.calls)
  {
    hide CallsSound, RequestMoves, AfterRequest, Grounds, RefundGrounds, DoWrite, DoLook, DoReceipt, DoScan, Lose;
    match s
    case ByChain(m) =>
    case ByWorker(m) => WorkerLeaves(w, m);
    case ByRequest(m) => RequestSound(env, w, m);
    case ByObserver(m) => ObserverLeaves(env, w, m);
  }

  lemma {:induction false} EndsRun(env: Env, ws: seq<World>, ss: seq<Step>, i: nat)
    requires Run(env, ws, ss) && i < |ws|
    ensures EndsTold(ws[i].db) && CallsSound(ws[i].calls)
  {
    if i > 0 {
      hide Next, EndsTold, CallsSound, Consistent, Initial;
      EndsRun(env, ws, ss, i - 1);
      ConsistentRun(env, ws, ss, i - 1);
      assert Next(env, ws[i - 1], ss[i - 1], ws[i]);
      hide Run;
      EndsStep(env, ws[i - 1], ss[i - 1], ws[i]);
      CallsStep(env, ws[i - 1], ss[i - 1], ws[i]);
    }
  }

  /**
   Over every run, whichever writers raced: nothing is told of a refund until it has
   ended, and then how it ended is told once.
   */
  lemma RefundHistoryTheorem(env: Env, ws: seq<World>, ss: seq<Step>, i: nat, r: RefundId)
    requires Run(env, ws, ss) && i < |ws| && r in ws[i].db.refunds
    ensures var status := ws[i].db.refunds[r].status;
            Ends(ws[i].db.outbox, r) == if status in {RefundSucceeded, RefundExpired} then [status] else []
  {
    hide Run, CallsSound;
    EndsRun(env, ws, ss, i);
  }

  // ---- attempts

  predicate RevisionRight(a: Attempt) {
    match a.status
    case Issued => a.revision % 2 == 1
    case Confirming => a.revision % 2 == 0
    case Superseded => a.revision >= 2 && a.revision % 2 == 0
  }

  /** How often an attempt was confirmed: every move raises its revision, and confirming and taking back take turns. */
  function Confirmed(a: Attempt): nat {
    if a.status == Superseded && a.revision >= 2 then a.revision / 2 - 1 else a.revision / 2
  }

  ghost function Confirmations(attempts: map<AttemptId, Attempt>, ids: set<AttemptId>): nat
    requires ids <= attempts.Keys
  {
    if ids == {} then 0
    else
      var a :| a in ids;
      Confirmed(attempts[a]) + Confirmations(attempts, ids - {a})
  }

  lemma {:induction false} ConfirmationsTake(attempts: map<AttemptId, Attempt>, ids: set<AttemptId>, a: AttemptId)
    requires ids <= attempts.Keys && a in ids
    ensures Confirmations(attempts, ids) == Confirmed(attempts[a]) + Confirmations(attempts, ids - {a})
    decreases |ids|
  {
    var b :| b in ids && Confirmations(attempts, ids) == Confirmed(attempts[b]) + Confirmations(attempts, ids - {b});
    if b != a {
      ConfirmationsTake(attempts, ids - {b}, a);
      ConfirmationsTake(attempts, ids - {a}, b);
      assert ids - {b} - {a} == ids - {a} - {b};
    }
  }

  lemma {:induction false} ConfirmationsSame(xs: map<AttemptId, Attempt>, ys: map<AttemptId, Attempt>, ids: set<AttemptId>)
    requires ids <= xs.Keys && ids <= ys.Keys && forall a :: a in ids ==> Confirmed(xs[a]) == Confirmed(ys[a])
    ensures Confirmations(xs, ids) == Confirmations(ys, ids)
    decreases |ids|
  {
    if ids != {} {
      var a :| a in ids;
      ConfirmationsTake(xs, ids, a);
      ConfirmationsTake(ys, ids, a);
      ConfirmationsSame(xs, ys, ids - {a});
    }
  }

  /** How many events tell that an attempt at a payment is confirming. */
  function Confirmings(outbox: seq<Event>, p: PaymentId): nat {
    if outbox == [] then 0
    else
      Confirmings(outbox[..|outbox| - 1], p) + if outbox[|outbox| - 1] == AttemptConfirming(p) then 1 else 0
  }

  lemma ConfirmingsNext(outbox: seq<Event>, e: Event, p: PaymentId)
    ensures Confirmings(outbox + [e], p) == Confirmings(outbox, p) + if e == AttemptConfirming(p) then 1 else 0
  {
    assert (outbox + [e])[..|outbox|] == outbox;
  }

  ghost predicate AllRight(attempts: map<AttemptId, Attempt>) { forall a :: a in attempts ==> RevisionRight(attempts[a]) }

  ghost predicate ConfirmingsTold(db: Rows) {
    && AllRight(db.attempts)
    && forall p :: Confirmings(db.outbox, p) == Confirmations(db.attempts, AttemptsOf(db, p))
  }

  /** An attempt as often confirmed as it was, at the same payment. */
  predicate SameCount(a: Attempt, b: Attempt) { b.payment == a.payment && Confirmed(b) == Confirmed(a) && RevisionRight(b) }

  lemma SameCounts(db: Rows, d: Rows)
    requires ConfirmingsTold(db) && d.attempts.Keys == db.attempts.Keys
    requires forall a :: a in db.attempts ==> SameCount(db.attempts[a], d.attempts[a])
    requires forall p :: Confirmings(d.outbox, p) == Confirmings(db.outbox, p)
    ensures ConfirmingsTold(d)
  {
    forall p ensures Confirmings(d.outbox, p) == Confirmations(d.attempts, AttemptsOf(d, p)) {
      assert AttemptsOf(d, p) == AttemptsOf(db, p);
      ConfirmationsSame(db.attempts, d.attempts, AttemptsOf(db, p));
    }
  }

  lemma LoseCounts(db: Rows, lost: set<Ref>)
    requires ConfirmingsTold(db)
    ensures ConfirmingsTold(Lose(db, lost))
  {
    var d := Lose(db, lost);
    LoseKeeps(db, lost);
    forall a | a in db.attempts ensures SameCount(db.attempts[a], d.attempts[a]) {
      assert RevisionRight(db.attempts[a]);
    }
    SameCounts(db, d);
  }

  lemma ConfirmOneCounts(db: Rows, s: Seen)
    requires ConfirmingsTold(db) && Current(db, s) && s.payment == db.attempts[s.attempt].payment && ConfirmOne(db, s).Some?
    ensures ConfirmingsTold(ConfirmOne(db, s).value)
  {
    var d, a := ConfirmOne(db, s).value, s.attempt;
    if d != db {
      assert s.read == db.attempts[a] && RevisionRight(db.attempts[a]);
      assert d.outbox == db.outbox + [AttemptConfirming(s.payment)];
      forall p ensures Confirmings(d.outbox, p) == Confirmations(d.attempts, AttemptsOf(d, p)) {
        ConfirmingsNext(db.outbox, AttemptConfirming(s.payment), p);
        var ids := AttemptsOf(db, p);
        assert AttemptsOf(d, p) == ids;
        if a in ids {
          ConfirmationsTake(db.attempts, ids, a);
          ConfirmationsTake(d.attempts, ids, a);
        }
        ConfirmationsSame(db.attempts, d.attempts, ids - {a});
        assert a !in ids ==> ids - {a} == ids;
      }
    }
  }

  ghost predicate SeenAtPayments(db: Rows, seen: seq<Seen>) {
    forall s :: s in seen ==> Current(db, s) && s.payment == db.attempts[s.attempt].payment
  }

  lemma {:induction false} ConfirmCounts(db: Rows, seen: seq<Seen>)
    requires ConfirmingsTold(db) && SeenAtPayments(db, seen) && Confirm(db, seen).Some?
    ensures ConfirmingsTold(Confirm(db, seen).value)
  {
    if seen != [] {
      var front, last := seen[..|seen| - 1], seen[|seen| - 1];
      hide ConfirmingsTold, ConfirmOne;
      ConfirmCounts(db, front);
      assert last in seen && forall s :: s in front ==> s in seen;
      var between := Confirm(db, front).value;
      ConfirmKeeps(db, front);
      assert OnlySeen(db.attempts[last.attempt], between.attempts[last.attempt]);
      ConfirmOneCounts(between, last);
    }
  }

  lemma RecordCounts(db: Rows, first: nat, last: nat, final: bool, seen: seq<Seen>, sent: seq<Sent>)
    requires ConfirmingsTold(db) && SeenAtPayments(db, seen) && Record(db, first, last, final, seen, sent).Some?
    ensures ConfirmingsTold(Record(db, first, last, final, seen, sent).value)
  {
    var es := Entries(seen, sent);
    var put := db.(observations := Put(db.observations, es, final));
    var written := Written(db, first, last, final, es);
    WrittenKeeps(db, first, last, final, es);
    hide Put, Lose, Confirm, LostIn, Arrive;
    assert ConfirmingsTold(put);
    if final {
      LoseCounts(put, LostIn(put.observations, first, last, TxsOf(es)));
    }
    assert ConfirmingsTold(Credited(written, seen));
    forall s | s in seen ensures Current(Credited(written, seen), s) && s.payment == written.attempts[s.attempt].payment {
      assert Current(db, s) && OnlySeen(db.attempts[s.attempt], written.attempts[s.attempt]);
    }
    ConfirmCounts(Credited(written, seen), seen);
  }

  lemma WriteCounts(w: World, i: nat)
    requires Reads(w, i) && w.rounds[i].work.Receiving? && WorkLinked(w.db, w.rounds[i].work) && ConfirmingsTold(w.db)
    ensures ConfirmingsTold(DoWrite(w, i).db)
  {
    var r, work := w.rounds[i], w.rounds[i].work;
    assert SeenAtPayments(w.db, work.seen);
    hide Record, ConfirmingsTold, SeenAtPayments, WorkLinked;
    if Record(w.db, r.first, r.last, r.Settling?, work.seen, work.sent).Some? {
      RecordCounts(w.db, r.first, r.last, r.Settling?, work.seen, work.sent);
      CursorCounts(Record(w.db, r.first, r.last, r.Settling?, work.seen, work.sent).value, DoWrite(w, i).db.cursor);
    }
  }

  lemma CursorCounts(db: Rows, cursor: Option<Position>)
    requires ConfirmingsTold(db)
    ensures ConfirmingsTold(db.(cursor := cursor))
  {
    forall p ensures AttemptsOf(db.(cursor := cursor), p) == AttemptsOf(db, p) {
    }
  }

  lemma OtherEvent(db: Rows, d: Rows, e: Event)
    requires ConfirmingsTold(db) && d.attempts == db.attempts && d.outbox == db.outbox + [e] && !e.AttemptConfirming?
    ensures ConfirmingsTold(d)
  {
    forall p ensures Confirmings(d.outbox, p) == Confirmings(db.outbox, p) {
      ConfirmingsNext(db.outbox, e, p);
    }
    SameCounts(db, d);
  }

  lemma NoEvent(db: Rows, d: Rows)
    requires ConfirmingsTold(db) && d.attempts == db.attempts && d.outbox == db.outbox
    ensures ConfirmingsTold(d)
  {
    SameCounts(db, d);
  }

  lemma WorkerCounts(w: World, m: WorkerMove)
    requires WorkerMoves(w, m) && ConfirmingsTold(w.db)
    ensures ConfirmingsTold(AfterWorker(w, m).db)
  {
    hide Grounds, RefundGrounds, ConfirmingsTold, Lose;
    var d := AfterWorker(w, m).db;
    match m
    case GiveUpOn(ref) => LoseCounts(w.db, {ref});
    case Save(one) => if d != w.db { OtherEvent(w.db, d, PaymentMoved(one.id, one.moved.status)); }
    case SaveReturn(one) =>
      if d.outbox != w.db.outbox {
        OtherEvent(w.db, d, RefundMoved(one.id, one.to));
      } else {
        NoEvent(w.db, d);
      }
    case _ =>
  }

  lemma IssueCounts(w: World, c: nat, attempt: Option<Attempt>, id: AttemptId)
    requires ConfirmingsTold(w.db) && id !in w.db.attempts
    requires attempt.Some? ==> attempt.value.status == Issued && attempt.value.revision == 1
    ensures ConfirmingsTold(DoIssue(w, c, attempt, id).db)
  {
    hide HasLive;
    var d := DoIssue(w, c, attempt, id).db;
    if d != w.db {
      forall p ensures Confirmings(d.outbox, p) == Confirmations(d.attempts, AttemptsOf(d, p)) {
        var ids := AttemptsOf(w.db, p);
        if attempt.value.payment == p {
          assert AttemptsOf(d, p) == ids + {id};
          ConfirmationsTake(d.attempts, ids + {id}, id);
          assert ids + {id} - {id} == ids;
        } else {
          assert AttemptsOf(d, p) == ids;
        }
        ConfirmationsSame(w.db.attempts, d.attempts, ids);
      }
    }
  }

  /** Retired, an attempt was confirmed as often as it was. */
  lemma SupersededCount(read: Attempt, a: Attempt)
    requires SameAttempt(read, a) && read.Supersede().Some? && read.revision == a.revision && RevisionRight(a)
    ensures SameCount(a, Bumped(a.(status := read.Supersede().value.status, authorizer := read.Supersede().value.authorizer)))
  {
  }

  lemma SupersedeCounts(w: World, c: nat, a: AttemptId, read: Attempt)
    requires ConfirmingsTold(w.db) && a in w.db.attempts && SameAttempt(read, w.db.attempts[a])
    ensures ConfirmingsTold(DoSupersede(w, c, a, read).db)
  {
    var d := DoSupersede(w, c, a, read).db;
    if d != w.db {
      assert AllRight(w.db.attempts);
      hide ConfirmingsTold, SameCount, SameAttempt, RevisionRight;
      assert RevisionRight(w.db.attempts[a]);
      SupersededCount(read, w.db.attempts[a]);
      forall b | b in w.db.attempts && b != a ensures SameCount(w.db.attempts[b], d.attempts[b]) {
        Unmoved(w.db.attempts[b]);
      }
      SameCounts(w.db, d);
    }
  }

  lemma Unmoved(a: Attempt)
    requires RevisionRight(a)
    ensures SameCount(a, a)
  {
  }

  lemma ProceedCounts(env: Env, w: World, c: nat, now: Time, id: AttemptId, key: Key)
    requires c in w.calls && Runs(env, w, w.calls[c], id, key) && CallLinked(w.db, w.calls[c]) && ConfirmingsTold(w.db)
    ensures ConfirmingsTold(DoProceed(w, c, now, id, key).db)
  {
    hide Held, HasLive, FreshKey, ConfirmingsTold, DoIssue, DoSupersede;
    match w.calls[c]
    case IssueWatched(p, e) => IssueCounts(w, c, NewAttempt(p, e, now, key), id);
    case SupersedeCounted(a, read) => SupersedeCounts(w, c, a, read);
    case RefundInserted(r, refund) => NoEvent(w.db, DoProceed(w, c, now, id, key).db);
    case _ =>
  }

  lemma RequestCounts(env: Env, w: World, m: RequestMove)
    requires RequestMoves(env, w, m) && CallsLinked(w.db, w.calls) && ConfirmingsTold(w.db)
    ensures ConfirmingsTold(AfterRequest(env, w, m).db)
  {
    hide DoProceed, Runs, ConfirmingsTold;
    if m.Proceed? {
      assert CallLinked(w.db, w.calls[m.call]);
      ProceedCounts(env, w, m.call, m.now, m.id, m.key);
    } else {
      NoEvent(w.db, AfterRequest(env, w, m).db);
    }
  }

  lemma ObserverCounts(env: Env, w: World, m: ObserverMove)
    requires ObserverMoves(w, m) && RoundsLinked(w.db, w.rounds) && ConfirmingsTold(w.db)
    ensures ConfirmingsTold(AfterObserver(env, w, m).db)
  {
    hide ConfirmingsTold, RoundsLinked, WorkLinked, DoWrite;
    if m.Write? {
      RoundWork(w, m.observer);
      WriteCounts(w, m.observer);
    } else {
      NoEvent(w.db, AfterObserver(env, w, m).db);
    }
  }

  lemma CountsStep(env: Env, w: World, s: Step, v: World)
    requires Next(env, w, s, v) && Consistent(w) && ConfirmingsTold(w.db)
    ensures ConfirmingsTold(v.db)
  {
    LinkedOf(w);
    hide ConfirmingsTold, WorkerMoves, RequestMoves, ObserverMoves, AfterWorker, AfterRequest, AfterObserver, RoundsLinked,
         RowsLinked, CallsLinked;
    match s
    case ByChain(m) =>
    case ByWorker(m) => WorkerCounts(w, m);
    case ByRequest(m) => RequestCounts(env, w, m);
    case ByObserver(m) => ObserverCounts(env, w, m);
  }

  lemma {:induction false} CountsRun(env: Env, ws: seq<World>, ss: seq<Step>, i: nat)
    requires Run(env, ws, ss) && i < |ws|
    ensures ConfirmingsTold(ws[i].db)
  {
    if i > 0 {
      hide Next, ConfirmingsTold;
      CountsRun(env, ws, ss, i - 1);
      ConsistentRun(env, ws, ss, i - 1);
      hide Consistent;
      CountsStep(env, ws[i - 1], ss[i - 1], ws[i]);
    }
  }

  /**
   Over every run: of a payment there are as many events that an attempt at it is
   confirming as its attempts were confirmed, taken back or retired since or not.
   */
  lemma ConfirmingsTheorem(env: Env, ws: seq<World>, ss: seq<Step>, i: nat, p: PaymentId)
    requires Run(env, ws, ss) && i < |ws|
    ensures Confirmings(ws[i].db.outbox, p) == Confirmations(ws[i].db.attempts, AttemptsOf(ws[i].db, p))
    ensures forall a :: a in ws[i].db.attempts ==> RevisionRight(ws[i].db.attempts[a])
  {
    hide Run;
    CountsRun(env, ws, ss, i);
  }
}
