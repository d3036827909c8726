/**
 What holds of the rows, and of everything part way through, in every reachable
 world: whatever is linked stays linked, and whatever was read is either what
 the row still says or something its version tells apart.
 */
module Consistency {
  import opened Basics
  import opened Lifecycle
  import opened Records
  import opened Evidence
  import opened Tables
  import opened Chains
  import opened Reading
  import opened RowFacts
  import opened Protocol

  // ---- how rows may move

  /** A payment moves along its lifecycle, and one that has finished does not change. */
  predicate PaymentGrows(p: Payment, q: Payment) {
    && SamePayment(p, q)
    && (q.status == p.status || CanBecome(p.status, q.status))
    && (Final(p.status) ==> q.received == p.received)
  }

  predicate RefundGrows(r: Refund, s: Refund) {
    && s.payment == r.payment && s.amount == r.amount && s.destination == r.destination
    && s.scheme == r.scheme && s.key == r.key && s.expiresAt == r.expiresAt
    && (s.status == r.status || s.status in RefundMoves(r.status))
    && s.version >= r.version
    && (s.version == r.version ==> s == r)
  }

  /** Two readings of one refund, any number of writes apart. */
  predicate SameRefund(r: Refund, s: Refund) {
    && s.payment == r.payment && s.amount == r.amount && s.destination == r.destination
    && s.scheme == r.scheme && s.key == r.key && s.expiresAt == r.expiresAt
    && s.version >= r.version
    && (s.version == r.version ==> s == r)
  }

  ghost predicate Grows(db: Rows, d: Rows) {
    && (forall p :: p in db.payments ==> p in d.payments && PaymentGrows(db.payments[p], d.payments[p]))
    && (forall a :: a in db.attempts ==> a in d.attempts && SameAttempt(db.attempts[a], d.attempts[a]))
    && (forall r :: r in db.refunds ==> r in d.refunds && RefundGrows(db.refunds[r], d.refunds[r]))
    && (db.cursor.Some? ==> d.cursor.Some?)
  }

  // ---- what is linked

  ghost predicate AttemptsLinked(db: Rows) {
    && (forall a :: a in db.attempts ==>
          db.attempts[a].payment in db.payments && db.payments[db.attempts[a].payment].status != Created)
    && (forall a, b :: a in db.attempts && b in db.attempts && db.attempts[a].key == db.attempts[b].key ==> a == b)
  }

  ghost predicate RefundsLinked(db: Rows) {
    && (forall r :: r in db.refunds ==>
          && db.refunds[r].payment in db.payments
          && db.payments[db.refunds[r].payment].status == Succeeded
          && db.payments[db.refunds[r].payment].received.Some?)
    && (forall r, s :: r in db.refunds && s in db.refunds && db.refunds[r].key == db.refunds[s].key ==> r == s)
    && (forall a, r :: a in db.attempts && r in db.refunds ==> db.attempts[a].key != db.refunds[r].key)
  }

  /** A transfer of an attempt's key, with a verdict that still fits it. */
  predicate FitsAttempt(db: Rows, a: AttemptId, p: PaymentId, t: Transfer, at: Place, reason: Reason) {
    && a in db.attempts && p in db.payments
    && db.attempts[a].payment == p && db.attempts[a].key == t.key && db.attempts[a].scheme == t.scheme
    && reason != Vanished
    && Fits(reason, t, at.time, db.attempts[a], db.payments[p])
  }

  predicate FitsRefund(db: Rows, r: RefundId, p: PaymentId, t: Transfer, at: Place, reason: Reason) {
    && r in db.refunds && p in db.payments
    && db.refunds[r].payment == p && db.refunds[r].key == t.key
    && reason != Vanished
    && JudgeRefund(t, at.time, db.refunds[r], db.payments[p]) == Some(reason)
  }

  /** A row that stands still fits; one that vanished names what it stood against. */
  predicate RowLinked(db: Rows, ref: Ref, o: Observation) {
    && o.transfer.key == ref.key
    && match o.against {
      case ForAttempt(a) =>
        && a in db.attempts && db.attempts[a].key == ref.key && db.attempts[a].payment == o.payment
        && (Stands(o) ==> FitsAttempt(db, a, o.payment, o.transfer, o.place, o.reason))
      case ForRefund(r) =>
        && r in db.refunds && db.refunds[r].key == ref.key && db.refunds[r].payment == o.payment
        && (Stands(o) ==> FitsRefund(db, r, o.payment, o.transfer, o.place, o.reason))
    }
  }

  ghost predicate AllLinked(db: Rows, rows: map<Ref, Observation>) {
    forall ref :: ref in rows ==> RowLinked(db, ref, rows[ref])
  }

  ghost predicate ObservationsLinked(db: Rows) { AllLinked(db, db.observations) }

  ghost predicate RowsLinked(db: Rows) {
    AttemptsLinked(db) && RefundsLinked(db) && ObservationsLinked(db)
  }

  // ---- what is part way through

  predicate HitLinked(db: Rows, k: Key, h: Hit) {
    && h.attempt in db.attempts && SameAttempt(h.read, db.attempts[h.attempt])
    && h.read.key == k && h.read.payment == h.payment && h.payment in db.payments
    && SamePayment(h.payer, db.payments[h.payment])
    && db.payments[h.payment].status != Created
    && (db.payments[h.payment].Open() ==> h.payer.Open())
  }

  predicate BackLinked(db: Rows, k: Key, b: Back) {
    && b.refund in db.refunds && SameRefund(b.read, db.refunds[b.refund])
    && b.read.key == k && b.read.payment == b.payment && b.payment in db.payments
    && SamePayment(b.payer, db.payments[b.payment])
  }

  predicate SeenLinked(db: Rows, s: Seen) {
    && s.attempt in db.attempts && SameAttempt(s.read, db.attempts[s.attempt])
    && FitsAttempt(db, s.attempt, s.payment, s.transfer, s.place, s.reason)
  }

  predicate SentLinked(db: Rows, s: Sent) {
    FitsRefund(db, s.refund, s.payment, s.transfer, s.place, s.reason)
  }

  ghost predicate WorkLinked(db: Rows, work: Work) {
    work.Receiving? ==>
      && (forall k :: k in work.against ==> HitLinked(db, k, work.against[k]))
      && (forall k :: k in work.back ==> BackLinked(db, k, work.back[k]))
      && (forall s :: s in work.seen ==> SeenLinked(db, s))
      && (forall s :: s in work.sent ==> SentLinked(db, s))
  }

  ghost predicate RoundLinked(db: Rows, r: Round) {
    (r.Settling? || r.Ahead?) ==> WorkLinked(db, r.work)
  }

  ghost predicate RoundsLinked(db: Rows, rounds: map<nat, Round>) {
    forall i :: i in rounds ==> RoundLinked(db, rounds[i])
  }

  predicate Refundable(db: Rows, p: PaymentId) {
    p in db.payments && db.payments[p].status == Succeeded && db.payments[p].received.Some?
  }

  predicate IssuableAt(db: Rows, p: PaymentId, expiresAt: Time) {
    p in db.payments && db.payments[p].status != Created && db.payments[p].expiresAt == expiresAt
  }

  predicate CallLinked(db: Rows, c: Call) {
    match c
    case IssueFound(p, e) => IssuableAt(db, p, e)
    case IssueFree(p, e) => IssuableAt(db, p, e)
    case IssueWatched(p, e) => IssuableAt(db, p, e) && db.cursor.Some?
    case SupersedeFound(p, a) => true
    case SupersedeLive(a, read) => a in db.attempts && SameAttempt(read, db.attempts[a])
    case SupersedeCounted(a, read) => a in db.attempts && SameAttempt(read, db.attempts[a])
    case RefundAsked(r, refund) => refund.payment in db.payments && db.payments[refund.payment].status == Succeeded
    case RefundLocked(r, refund, received) =>
      Refundable(db, refund.payment) && db.payments[refund.payment].received == Some(received)
    case RefundMeasured(r, refund) => Refundable(db, refund.payment)
    case RefundInserted(r, refund) => Refundable(db, refund.payment)
  }

  ghost predicate CallsLinked(db: Rows, calls: map<nat, Call>) {
    forall c :: c in calls ==> CallLinked(db, calls[c])
  }

  predicate DecisionLinked(db: Rows, d: Decision) {
    && d.id in db.payments && SamePayment(d.read, db.payments[d.id])
    && CanBecome(d.read.status, d.moved.status)
    && d.moved.received == d.read.received
    && (d.moved.status == Succeeded ==> d.read.Covered())
  }

  predicate ReturnLinked(db: Rows, d: Return) {
    && d.id in db.refunds && SameRefund(d.read, db.refunds[d.id])
    && d.to in RefundMoves(d.read.status)
  }

  ghost predicate PendingLinked(db: Rows, decisions: set<Decision>, returning: set<Return>) {
    && (forall d :: d in decisions ==> DecisionLinked(db, d))
    && (forall d :: d in returning ==> ReturnLinked(db, d))
  }

  ghost predicate SucceededCovered(db: Rows) {
    forall p :: p in db.payments && db.payments[p].status == Succeeded ==> db.payments[p].Covered()
  }

  ghost predicate Consistent(w: World) {
    && RowsLinked(w.db)
    && RoundsLinked(w.db, w.rounds)
    && CallsLinked(w.db, w.calls)
    && PendingLinked(w.db, w.decisions, w.returning)
    && SucceededCovered(w.db)
  }

  // ---- links survive whatever moves the rows

  lemma FitsAttemptSurvives(db: Rows, d: Rows, a: AttemptId, p: PaymentId, t: Transfer, at: Place, reason: Reason)
    requires Grows(db, d) && FitsAttempt(db, a, p, t, at, reason) && db.payments[p].status != Created
    ensures FitsAttempt(d, a, p, t, at, reason)
  {
    assert PaymentGrows(db.payments[p], d.payments[p]);
    assert SameAttempt(db.attempts[a], d.attempts[a]);
  }

  lemma FitsRefundSurvives(db: Rows, d: Rows, r: RefundId, p: PaymentId, t: Transfer, at: Place, reason: Reason)
    requires Grows(db, d) && FitsRefund(db, r, p, t, at, reason)
    ensures FitsRefund(d, r, p, t, at, reason)
  {
    assert PaymentGrows(db.payments[p], d.payments[p]);
    assert RefundGrows(db.refunds[r], d.refunds[r]);
  }

  lemma RowSurvives(db: Rows, d: Rows, ref: Ref, o: Observation)
    requires Grows(db, d) && RowLinked(db, ref, o) && AttemptsLinked(db)
    ensures RowLinked(d, ref, o)
  {
    match o.against
    case ForAttempt(a) =>
      assert SameAttempt(db.attempts[a], d.attempts[a]);
      if Stands(o) {
        FitsAttemptSurvives(db, d, a, o.payment, o.transfer, o.place, o.reason);
      }
    case ForRefund(r) =>
      assert RefundGrows(db.refunds[r], d.refunds[r]);
      if Stands(o) {
        FitsRefundSurvives(db, d, r, o.payment, o.transfer, o.place, o.reason);
      }
  }

  lemma HitSurvives(db: Rows, d: Rows, k: Key, h: Hit)
    requires Grows(db, d) && HitLinked(db, k, h)
    ensures HitLinked(d, k, h)
  {
    assert PaymentGrows(db.payments[h.payment], d.payments[h.payment]);
    assert SameAttempt(db.attempts[h.attempt], d.attempts[h.attempt]);
  }

  lemma BackSurvives(db: Rows, d: Rows, k: Key, b: Back)
    requires Grows(db, d) && BackLinked(db, k, b)
    ensures BackLinked(d, k, b)
  {
    assert PaymentGrows(db.payments[b.payment], d.payments[b.payment]);
    assert RefundGrows(db.refunds[b.refund], d.refunds[b.refund]);
  }

  lemma WorkSurvives(db: Rows, d: Rows, work: Work)
    requires Grows(db, d) && WorkLinked(db, work) && AttemptsLinked(db)
    ensures WorkLinked(d, work)
  {
    if work.Receiving? {
      forall k | k in work.against ensures HitLinked(d, k, work.against[k]) { HitSurvives(db, d, k, work.against[k]); }
      forall k | k in work.back ensures BackLinked(d, k, work.back[k]) { BackSurvives(db, d, k, work.back[k]); }
      forall s | s in work.seen ensures SeenLinked(d, s) {
        assert SeenLinked(db, s) && SameAttempt(db.attempts[s.attempt], d.attempts[s.attempt]);
        FitsAttemptSurvives(db, d, s.attempt, s.payment, s.transfer, s.place, s.reason);
      }
      forall s | s in work.sent ensures SentLinked(d, s) {
        assert SentLinked(db, s);
        FitsRefundSurvives(db, d, s.refund, s.payment, s.transfer, s.place, s.reason);
      }
    }
  }

  lemma RoundsSurvive(db: Rows, d: Rows, rounds: map<nat, Round>)
    requires Grows(db, d) && RoundsLinked(db, rounds) && AttemptsLinked(db)
    ensures RoundsLinked(d, rounds)
  {
    forall i | i in rounds ensures RoundLinked(d, rounds[i]) {
      assert RoundLinked(db, rounds[i]);
      if rounds[i].Settling? || rounds[i].Ahead? {
        WorkSurvives(db, d, rounds[i].work);
      }
    }
  }

  lemma CallSurvives(db: Rows, d: Rows, c: Call)
    requires Grows(db, d) && CallLinked(db, c)
    ensures CallLinked(d, c)
  {
    if c.IssueFound? || c.IssueFree? || c.IssueWatched? {
      assert PaymentGrows(db.payments[c.payment], d.payments[c.payment]);
    } else if c.SupersedeLive? || c.SupersedeCounted? {
      assert SameAttempt(db.attempts[c.attempt], d.attempts[c.attempt]);
    } else if !c.SupersedeFound? {
      assert PaymentGrows(db.payments[c.refund.payment], d.payments[c.refund.payment]);
    }
  }

  lemma CallsSurvive(db: Rows, d: Rows, calls: map<nat, Call>)
    requires Grows(db, d) && CallsLinked(db, calls)
    ensures CallsLinked(d, calls)
  {
    forall c | c in calls ensures CallLinked(d, calls[c]) { CallSurvives(db, d, calls[c]); }
  }

  lemma PendingSurvives(db: Rows, d: Rows, decisions: set<Decision>, returning: set<Return>)
    requires Grows(db, d) && PendingLinked(db, decisions, returning)
    ensures PendingLinked(d, decisions, returning)
  {
    forall x | x in decisions ensures DecisionLinked(d, x) {
      assert DecisionLinked(db, x) && PaymentGrows(db.payments[x.id], d.payments[x.id]);
    }
    forall x | x in returning ensures ReturnLinked(d, x) {
      assert ReturnLinked(db, x) && RefundGrows(db.refunds[x.id], d.refunds[x.id]);
    }
  }

  // ---- every step only moves rows that way

  lemma RecordGrows(db: Rows, d: Rows)
    requires PaymentsReceive(db.payments, d.payments) && AttemptsSeen(db.attempts, d.attempts)
    requires d.refunds == db.refunds && (db.cursor.Some? ==> d.cursor.Some?)
    ensures Grows(db, d)
  {
    forall p | p in db.payments ensures p in d.payments && PaymentGrows(db.payments[p], d.payments[p]) {
      assert OnlyReceived(db.payments[p], d.payments[p]);
    }
    forall a | a in db.attempts ensures a in d.attempts && SameAttempt(db.attempts[a], d.attempts[a]) {
      assert OnlySeen(db.attempts[a], d.attempts[a]);
    }
  }

  lemma LinkedIsCurrent(db: Rows, seen: seq<Seen>)
    requires forall s :: s in seen ==> SeenLinked(db, s)
    ensures forall s :: s in seen ==> Current(db, s)
  {
  }

  lemma WriteGrows(w: World, i: nat)
    requires Reads(w, i) && w.rounds[i].work.Receiving? && WorkLinked(w.db, w.rounds[i].work)
    ensures Grows(w.db, DoWrite(w, i).db)
  {
    var r, work := w.rounds[i], w.rounds[i].work;
    LinkedIsCurrent(w.db, work.seen);
    hide Grows, WorkLinked, Record, PaymentsReceive, AttemptsSeen;
    GrowsSelf(w.db, w.db);
    var recorded := Record(w.db, r.first, r.last, r.Settling?, work.seen, work.sent);
    if recorded.Some? {
      RecordKeeps(w.db, r.first, r.last, r.Settling?, work.seen, work.sent);
      RecordGrows(w.db, recorded.value);
      if r.Settling? {
        RecordGrows(w.db, recorded.value.(cursor := Some(r.to)));
      }
    }
  }

  lemma GiveUpGrows(db: Rows, ref: Ref)
    ensures Grows(db, GiveUp(db, ref))
  {
    LoseKeeps(db, {ref});
    if GiveUp(db, ref) != db {
      RecordGrows(db, GiveUp(db, ref));
    }
  }

  lemma SaveGrows(db: Rows, d: Decision)
    requires DecisionLinked(db, d)
    ensures var after := SavePayment(db, d.id, d.moved, d.read.version);
            after.Some? ==> Grows(db, after.value)
  {
  }

  lemma SaveReturnGrows(db: Rows, d: Return)
    requires ReturnLinked(db, d)
    ensures var after := SaveRefund(db, d.id, d.to, d.read.version);
            after.Some? ==> Grows(db, after.value)
  {
  }

  lemma IssueGrows(db: Rows, id: AttemptId, a: Attempt)
    ensures var after := IssueAttempt(db, id, a);
            after.Some? ==> Grows(db, after.value)
  {
  }

  lemma SupersedeGrows(db: Rows, id: AttemptId, read: Attempt)
    requires id in db.attempts && SameAttempt(read, db.attempts[id]) && read.Supersede().Some?
    ensures var after := SaveAttempt(db, id, read.Supersede().value, read.revision);
            after.Some? ==> Grows(db, after.value)
  {
  }

  lemma GrowsSelf(db: Rows, d: Rows)
    requires d.payments == db.payments && d.attempts == db.attempts && d.refunds == db.refunds
    requires db.cursor.Some? ==> d.cursor.Some?
    ensures Grows(db, d)
  {
  }

  lemma RefundAdded(db: Rows, r: RefundId, refund: Refund)
    requires r !in db.refunds
    ensures Grows(db, db.(refunds := db.refunds[r := refund]))
  {
  }

  lemma ProceedGrows(env: Env, w: World, c: nat, now: Time, id: AttemptId, key: Key)
    requires c in w.calls && Runs(env, w, w.calls[c], id, key) && CallLinked(w.db, w.calls[c])
    ensures Grows(w.db, DoProceed(w, c, now, id, key).db)
  {
    hide Grows, Held, HasLive, FreshKey, Locked, IssueAttempt, SaveAttempt;
    GrowsSelf(w.db, w.db);
    match w.calls[c]
    case IssueWatched(p, expiresAt) =>
      var a := NewAttempt(p, expiresAt, now, key);
      if a.Some? {
        IssueGrows(w.db, id, a.value);
      }
    case SupersedeCounted(a, read) =>
      if read.Supersede().Some? {
        SupersedeGrows(w.db, a, read);
      }
    case RefundInserted(r, refund) => RefundAdded(w.db, r, refund);
    case _ =>
  }

  // ---- the rows stay linked

  lemma AllSurvive(db: Rows, d: Rows, rows: map<Ref, Observation>)
    requires AttemptsLinked(db) && AllLinked(db, rows) && Grows(db, d)
    ensures AllLinked(d, rows)
  {
    forall ref | ref in rows ensures RowLinked(d, ref, rows[ref]) {
      RowSurvives(db, d, ref, rows[ref]);
    }
  }

  /** Nothing issued, nothing refunded and nothing observed: the rows that were linked are. */
  lemma RowsSurvive(db: Rows, d: Rows)
    requires RowsLinked(db) && Grows(db, d)
    requires d.attempts.Keys == db.attempts.Keys && d.refunds.Keys == db.refunds.Keys
    ensures AttemptsLinked(d) && RefundsLinked(d) && AllLinked(d, db.observations)
  {
    KeysSurvive(db, d);
    forall a | a in d.attempts
      ensures d.attempts[a].payment in d.payments && d.payments[d.attempts[a].payment].status != Created
    {
      AttemptPaymentSurvives(db, d, a);
    }
    forall r | r in d.refunds
      ensures Refundable(d, d.refunds[r].payment)
    {
      RefundPaymentSurvives(db, d, r);
    }
    AllSurvive(db, d, db.observations);
  }

  lemma AttemptPaymentSurvives(db: Rows, d: Rows, a: AttemptId)
    requires AttemptsLinked(db) && Grows(db, d) && a in db.attempts
    ensures a in d.attempts && d.attempts[a].payment in d.payments && d.payments[d.attempts[a].payment].status != Created
  {
    assert SameAttempt(db.attempts[a], d.attempts[a]);
    assert PaymentGrows(db.payments[db.attempts[a].payment], d.payments[db.attempts[a].payment]);
  }

  lemma RefundPaymentSurvives(db: Rows, d: Rows, r: RefundId)
    requires RefundsLinked(db) && Grows(db, d) && r in db.refunds
    ensures r in d.refunds && Refundable(d, d.refunds[r].payment)
  {
    assert RefundGrows(db.refunds[r], d.refunds[r]);
    assert PaymentGrows(db.payments[db.refunds[r].payment], d.payments[db.refunds[r].payment]);
  }

  lemma KeysSurvive(db: Rows, d: Rows)
    requires Grows(db, d)
    ensures forall a :: a in db.attempts ==> a in d.attempts && d.attempts[a].key == db.attempts[a].key
    ensures forall r :: r in db.refunds ==> r in d.refunds && d.refunds[r].key == db.refunds[r].key
  {
    forall a | a in db.attempts ensures a in d.attempts && d.attempts[a].key == db.attempts[a].key {
      assert SameAttempt(db.attempts[a], d.attempts[a]);
    }
    forall r | r in db.refunds ensures r in d.refunds && d.refunds[r].key == db.refunds[r].key {
      assert RefundGrows(db.refunds[r], d.refunds[r]);
    }
  }

  predicate EntryLinked(db: Rows, e: Entry) {
    Stands(EntryRow(e)) && RowLinked(db, e.ref, EntryRow(e))
  }

  function EntryRow(e: Entry): Observation {
    Observation(e.payment, e.against, e.place, e.transfer, e.reason, false)
  }

  /** A key belongs to one attempt or one refund, so a row written again stands against what it stood against. */
  lemma SameSubject(db: Rows, ref: Ref, o: Observation, q: Observation)
    requires AttemptsLinked(db) && RefundsLinked(db) && RowLinked(db, ref, o) && RowLinked(db, ref, q)
    ensures o.against == q.against && o.payment == q.payment
  {
  }

  lemma {:induction false} PutLinked(db: Rows, rows: map<Ref, Observation>, es: seq<Entry>, final: bool)
    requires AttemptsLinked(db) && RefundsLinked(db) && AllLinked(db, rows)
    requires forall e :: e in es ==> EntryLinked(db, e)
    ensures AllLinked(db, Put(rows, es, final))
  {
    if es != [] {
      var front, last := es[..|es| - 1], es[|es| - 1];
      assert forall e :: e in front ==> e in es;
      PutLinked(db, rows, front, final);
      var before := Put(rows, front, final);
      assert last in es;
      forall ref | ref in PutOne(before, last, final)
        ensures RowLinked(db, ref, PutOne(before, last, final)[ref])
      {
        if ref == last.ref && ref in before {
          SameSubject(db, ref, before[ref], EntryRow(last));
        }
      }
    }
  }

  lemma MarkLinked(db: Rows, rows: map<Ref, Observation>, lost: set<Ref>)
    requires AllLinked(db, rows)
    ensures AllLinked(db, Mark(rows, lost))
  {
  }

  lemma EntriesLinked(db: Rows, seen: seq<Seen>, sent: seq<Sent>)
    requires forall s :: s in seen ==> SeenLinked(db, s)
    requires forall s :: s in sent ==> SentLinked(db, s)
    ensures forall e :: e in Entries(seen, sent) ==> EntryLinked(db, e)
  {
    var es := Entries(seen, sent);
    forall e | e in es ensures EntryLinked(db, e) {
      var i :| 0 <= i < |es| && es[i] == e;
      if i < |seen| {
        assert SeenLinked(db, seen[i]);
      } else {
        assert SentLinked(db, sent[i - |seen|]);
        assert e == SentEntry(sent[i - |seen|]);
      }
    }
  }

  /** The rows a round leaves behind are linked to the rows as they stood before it. */
  lemma WrittenLinked(db: Rows, first: nat, last: nat, final: bool, es: seq<Entry>)
    requires RowsLinked(db)
    requires forall e :: e in es ==> EntryLinked(db, e)
    ensures AllLinked(db, Written(db, first, last, final, es).observations)
  {
    PutLinked(db, db.observations, es, final);
    if final {
      var rows := Put(db.observations, es, final);
      var put := db.(observations := rows);
      var lost := LostIn(rows, first, last, TxsOf(es));
      MarkLinked(db, rows, lost);
      LoseKeeps(put, lost);
    }
  }

  lemma RecordLinked(db: Rows, first: nat, last: nat, final: bool, seen: seq<Seen>, sent: seq<Sent>)
    requires RowsLinked(db)
    requires forall s :: s in seen ==> SeenLinked(db, s)
    requires forall s :: s in sent ==> SentLinked(db, s)
    requires Record(db, first, last, final, seen, sent).Some?
    ensures RowsLinked(Record(db, first, last, final, seen, sent).value)
  {
    var es := Entries(seen, sent);
    var d := Record(db, first, last, final, seen, sent).value;
    EntriesLinked(db, seen, sent);
    WrittenLinked(db, first, last, final, es);
    LinkedIsCurrent(db, seen);
    RecordKeeps(db, first, last, final, seen, sent);
    RecordGrows(db, d);
    RowsSurvive(db, d);
    RecordObservations(db, first, last, final, seen, sent);
    AllSurvive(db, d, d.observations);
  }

  lemma RecordObservations(db: Rows, first: nat, last: nat, final: bool, seen: seq<Seen>, sent: seq<Sent>)
    requires forall s :: s in seen ==> SeenLinked(db, s)
    requires Record(db, first, last, final, seen, sent).Some?
    ensures Record(db, first, last, final, seen, sent).value.observations
            == Written(db, first, last, final, Entries(seen, sent)).observations
  {
    var written := Written(db, first, last, final, Entries(seen, sent));
    WrittenKeeps(db, first, last, final, Entries(seen, sent));
    LinkedIsCurrent(db, seen);
    StillCurrent(db, Credited(written, seen), seen);
    ConfirmKeeps(Credited(written, seen), seen);
  }

  lemma GiveUpLinked(db: Rows, ref: Ref)
    requires RowsLinked(db)
    ensures RowsLinked(GiveUp(db, ref))
  {
    var d := GiveUp(db, ref);
    GiveUpGrows(db, ref);
    LoseKeeps(db, {ref});
    if d != db {
      RowsSurvive(db, d);
      MarkLinked(d, db.observations, {ref});
    }
  }
}
