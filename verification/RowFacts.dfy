/** What each transaction over the rows changes, and what it leaves alone. */
module RowFacts {
  import opened Basics
  import opened Lifecycle
  import opened Records
  import opened Evidence
  import opened Tables

  /** Two readings of one payment's row: what never changes, and the version that says what did. */
  predicate SamePayment(p: Payment, q: Payment) {
    && q.asset == p.asset && q.amount == p.amount && q.destination == p.destination && q.expiresAt == p.expiresAt
    && q.version >= p.version
    && (q.version == p.version ==> q == p)
  }

  predicate SameAttempt(a: Attempt, b: Attempt) {
    && b.payment == a.payment && b.scheme == a.scheme && b.key == a.key && b.validBefore == a.validBefore
    && b.revision >= a.revision
    && (b.revision == a.revision ==> b == a)
  }

  /** A payment that stays open or stays closed: money landing on it or being taken back moves nothing else. */
  predicate OnlyReceived(p: Payment, q: Payment) {
    SamePayment(p, q) && q.status == p.status && (!p.Open() ==> q == p)
  }

  ghost predicate PaymentsReceive(ps: map<PaymentId, Payment>, qs: map<PaymentId, Payment>) {
    ps.Keys == qs.Keys && forall p :: p in ps ==> OnlyReceived(ps[p], qs[p])
  }

  /** No attempt comes, goes, or stops or starts being live. */
  predicate OnlySeen(a: Attempt, b: Attempt) {
    SameAttempt(a, b) && (Live(b.status) <==> Live(a.status))
  }

  ghost predicate AttemptsSeen(xs: map<AttemptId, Attempt>, ys: map<AttemptId, Attempt>) {
    xs.Keys == ys.Keys && forall a :: a in xs ==> OnlySeen(xs[a], ys[a])
  }

  /** Events are only ever added, and what a round adds is about attempts. */
  ghost predicate OnlyConfirmings(before: seq<Event>, after: seq<Event>) {
    && |before| <= |after| && after[..|before|] == before
    && forall i :: |before| <= i < |after| ==> after[i].AttemptConfirming?
  }

  lemma {:induction false} ArriveReceives(ps: map<PaymentId, Payment>, seen: seq<Seen>)
    ensures PaymentsReceive(ps, Arrive(ps, seen))
  {
    if seen != [] {
      ArriveReceives(ps, seen[..|seen| - 1]);
    }
  }

  lemma TakeKeeps(db: Rows, attempts: set<AttemptId>, payments: set<PaymentId>)
    ensures var d := Take(db, attempts, payments);
            && PaymentsReceive(db.payments, d.payments) && AttemptsSeen(db.attempts, d.attempts)
            && d.refunds == db.refunds && d.observations == db.observations
            && d.cursor == db.cursor && d.outbox == db.outbox
  {
  }

  lemma LoseKeeps(db: Rows, lost: set<Ref>)
    ensures var d := Lose(db, lost);
            && PaymentsReceive(db.payments, d.payments) && AttemptsSeen(db.attempts, d.attempts)
            && d.refunds == db.refunds && d.cursor == db.cursor && d.outbox == db.outbox
            && d.observations == Mark(db.observations, lost)
  {
    TakeKeeps(db.(observations := Mark(db.observations, lost)),
              LostAttempts(db.observations, lost), LostPayments(db.observations, lost));
  }

  lemma ReceiveTwice(ps: map<PaymentId, Payment>, qs: map<PaymentId, Payment>, rs: map<PaymentId, Payment>)
    requires PaymentsReceive(ps, qs) && PaymentsReceive(qs, rs)
    ensures PaymentsReceive(ps, rs)
  {
    forall p | p in ps
      ensures OnlyReceived(ps[p], rs[p])
    {
      assert OnlyReceived(ps[p], qs[p]) && OnlyReceived(qs[p], rs[p]);
    }
  }

  lemma SeenTwice(xs: map<AttemptId, Attempt>, ys: map<AttemptId, Attempt>, zs: map<AttemptId, Attempt>)
    requires AttemptsSeen(xs, ys) && AttemptsSeen(ys, zs)
    ensures AttemptsSeen(xs, zs)
  {
    forall a | a in xs
      ensures OnlySeen(xs[a], zs[a])
    {
      assert OnlySeen(xs[a], ys[a]) && OnlySeen(ys[a], zs[a]);
    }
  }

  /** Every attempt a round confirms is as it was read, and live before as after. */
  ghost predicate Current(db: Rows, s: Seen) {
    s.attempt in db.attempts && SameAttempt(s.read, db.attempts[s.attempt])
  }

  lemma StillCurrent(db: Rows, d: Rows, seen: seq<Seen>)
    requires AttemptsSeen(db.attempts, d.attempts)
    requires forall s :: s in seen ==> Current(db, s)
    ensures forall s :: s in seen ==> Current(d, s)
  {
    forall s | s in seen
      ensures Current(d, s)
    {
      assert Current(db, s) && OnlySeen(db.attempts[s.attempt], d.attempts[s.attempt]);
    }
  }

  lemma ConfirmOneKeeps(db: Rows, s: Seen)
    requires ConfirmOne(db, s).Some? && Current(db, s)
    ensures var d := ConfirmOne(db, s).value;
            && AttemptsSeen(db.attempts, d.attempts) && OnlyConfirmings(db.outbox, d.outbox)
            && d.payments == db.payments && d.refunds == db.refunds
            && d.observations == db.observations && d.cursor == db.cursor
  {
  }

  lemma {:induction false} ConfirmKeeps(db: Rows, seen: seq<Seen>)
    requires Confirm(db, seen).Some?
    requires forall s :: s in seen ==> Current(db, s)
    ensures var d := Confirm(db, seen).value;
            && AttemptsSeen(db.attempts, d.attempts) && OnlyConfirmings(db.outbox, d.outbox)
            && d.payments == db.payments && d.refunds == db.refunds
            && d.observations == db.observations && d.cursor == db.cursor
  {
    if seen != [] {
      var front, last := seen[..|seen| - 1], seen[|seen| - 1];
      assert last in seen;
      assert forall s :: s in front ==> s in seen;
      ConfirmKeeps(db, front);
      var between := Confirm(db, front).value;
      StillCurrent(db, between, [last]);
      assert last in [last];
      ConfirmOneKeeps(between, last);
      SeenTwice(db.attempts, between.attempts, Confirm(db, seen).value.attempts);
    }
  }

  lemma WrittenKeeps(db: Rows, first: nat, last: nat, final: bool, es: seq<Entry>)
    ensures var d := Written(db, first, last, final, es);
            && PaymentsReceive(db.payments, d.payments) && AttemptsSeen(db.attempts, d.attempts)
            && d.refunds == db.refunds && d.cursor == db.cursor && d.outbox == db.outbox
  {
    if final {
      var put := db.(observations := Put(db.observations, es, final));
      LoseKeeps(put, LostIn(put.observations, first, last, TxsOf(es)));
    }
  }

  lemma RecordKeeps(db: Rows, first: nat, last: nat, final: bool, seen: seq<Seen>, sent: seq<Sent>)
    requires Record(db, first, last, final, seen, sent).Some?
    requires forall s :: s in seen ==> Current(db, s)
    ensures var d := Record(db, first, last, final, seen, sent).value;
            && PaymentsReceive(db.payments, d.payments) && AttemptsSeen(db.attempts, d.attempts)
            && OnlyConfirmings(db.outbox, d.outbox)
            && d.refunds == db.refunds && d.cursor == db.cursor
  {
    var written := Written(db, first, last, final, Entries(seen, sent));
    var credited := Credited(written, seen);
    var d := Record(db, first, last, final, seen, sent).value;
    WrittenKeeps(db, first, last, final, Entries(seen, sent));
    ArriveReceives(written.payments, seen);
    StillCurrent(db, credited, seen);
    ConfirmKeeps(credited, seen);
    ReceiveTwice(db.payments, written.payments, d.payments);
    SeenTwice(db.attempts, written.attempts, d.attempts);
  }
}
