/**
 What a payment received, and whether an attempt is confirming, follows the rows
 that stand for them, however recording, giving up and deciding interleave.
 */
module Bookkeeping {
  import opened Basics
  import opened Lifecycle
  import opened Records
  import opened Evidence
  import opened Tables
  import opened Chains
  import opened Reading
  import opened RowFacts
  import opened Protocol
  import opened Consistency
  import opened Reachable
  import opened Observing
  import opened Writing

  // ---- every row, and every row to be, is of a transfer its transaction carries

  ghost predicate RowsCarried(env: Env, rows: map<Ref, Observation>) {
    forall ref :: ref in rows ==> Carries(env.ledger, ref.tx, rows[ref].transfer)
  }

  ghost predicate WorkCarried(env: Env, work: Work) {
    work.Receiving? ==>
      && (forall s :: s in work.seen ==> Carries(env.ledger, s.tx, s.transfer))
      && (forall s :: s in work.sent ==> Carries(env.ledger, s.tx, s.transfer))
  }

  ghost predicate RoundsCarried(env: Env, rounds: map<nat, Round>) {
    forall i :: i in rounds && (rounds[i].Settling? || rounds[i].Ahead?) ==> WorkCarried(env, rounds[i].work)
  }

  // ---- what the rows say arrived

  predicate OfAttempts(o: Observation, p: PaymentId) { o.against.ForAttempt? && o.payment == p }

  /** A row that tells a payment what arrived. */
  predicate Tells(o: Observation) {
    o.reason == Matched || (o.reason == Short && o.transfer.value.Some?)
  }

  /** A row that may have told it, read again since at or past a deadline or with a value nobody can read. */
  predicate MayHaveTold(o: Observation) { o.reason == Matched || o.reason == Short || o.reason == Late }

  predicate MayHaveConfirmed(o: Observation) { o.reason == Matched || o.reason == Late }

  ghost predicate TellingStands(rows: map<Ref, Observation>, p: PaymentId) {
    exists ref :: ref in rows && OfAttempts(rows[ref], p) && Tells(rows[ref])
  }

  ghost predicate ToldBy(rows: map<Ref, Observation>, p: PaymentId) {
    exists ref :: ref in rows && OfAttempts(rows[ref], p) && MayHaveTold(rows[ref])
  }

  ghost predicate ConfirmedBy(rows: map<Ref, Observation>, a: AttemptId) {
    exists ref :: ref in rows && rows[ref].against == ForAttempt(a) && MayHaveConfirmed(rows[ref])
  }

  /** A row that tells of an arrival was told to its payment, if that can still receive. */
  predicate RowTold(payments: map<PaymentId, Payment>, o: Observation) {
    (o.against.ForAttempt? && Tells(o) && o.payment in payments && payments[o.payment].Open()) ==>
      payments[o.payment].received.Some?
  }

  ghost predicate AllTold(payments: map<PaymentId, Payment>, rows: map<Ref, Observation>) {
    forall ref :: ref in rows ==> RowTold(payments, rows[ref])
  }

  ghost predicate ReceivedTold(payments: map<PaymentId, Payment>, rows: map<Ref, Observation>) {
    forall p :: p in payments && payments[p].Open() && payments[p].received.Some? ==> ToldBy(rows, p)
  }

  ghost predicate ConfirmingBacked(attempts: map<AttemptId, Attempt>, rows: map<Ref, Observation>) {
    forall a :: a in attempts && attempts[a].status == Confirming ==> ConfirmedBy(rows, a)
  }

  ghost predicate Booked(db: Rows) {
    && AllTold(db.payments, db.observations)
    && ReceivedTold(db.payments, db.observations)
    && ConfirmingBacked(db.attempts, db.observations)
  }

  // ---- rows written again keep their worth

  /** Two verdicts on one transfer of one attempt differ at most in whether it was late. */
  lemma VerdictsAgree(db: Rows, ref: Ref, o: Observation, q: Observation)
    requires RowLinked(db, ref, o) && RowLinked(db, ref, q) && Stands(o) && Stands(q)
    requires o.against.ForAttempt? && q.against == o.against && q.payment == o.payment && o.transfer == q.transfer
    ensures MayHaveTold(o) <==> MayHaveTold(q)
    ensures MayHaveConfirmed(o) <==> MayHaveConfirmed(q)
  {
  }

  /** A row written again stands against what it stood against. */
  lemma PutSubject(db: Rows, es: seq<Entry>, final: bool, put: map<Ref, Observation>, ref: Ref)
    requires RowsLinked(db) && ref in db.observations && put == Put(db.observations, es, final)
    requires forall e :: e in es ==> EntryLinked(db, e)
    ensures ref in put && RowLinked(db, ref, put[ref])
    ensures put[ref].against == db.observations[ref].against && put[ref].payment == db.observations[ref].payment
  {
    PutLinked(db, db.observations, es, final);
    hide Put;
    PutExact(db.observations, es, final);
    assert RowLinked(db, ref, db.observations[ref]);
    SameSubject(db, ref, put[ref], db.observations[ref]);
  }

  /** A row that stands is worth what a row of the same key and transaction was. */
  predicate NoLess(o: Observation, q: Observation) {
    && q.against == o.against && q.payment == o.payment
    && (o.against.ForAttempt? && MayHaveTold(o) ==> MayHaveTold(q))
    && (o.against.ForAttempt? && MayHaveConfirmed(o) ==> MayHaveConfirmed(q))
  }

  lemma SameWorth(env: Env, db: Rows, ref: Ref, o: Observation, q: Observation)
    requires ValidLedger(env.ledger) && RowLinked(db, ref, o) && RowLinked(db, ref, q) && Stands(q)
    requires Carries(env.ledger, ref.tx, o.transfer) && Carries(env.ledger, ref.tx, q.transfer)
    requires q.against == o.against && q.payment == o.payment
    ensures NoLess(o, q)
  {
    SameTransfer(env, ref.tx, q.transfer, o.transfer);
    if o.against.ForAttempt? && Stands(o) {
      VerdictsAgree(db, ref, o, q);
    }
  }

  /** What a row becomes when it is put: worth what it was, or gone before and back. */
  lemma PutWorth(env: Env, db: Rows, es: seq<Entry>, final: bool, put: map<Ref, Observation>, ref: Ref)
    requires ValidLedger(env.ledger) && RowsLinked(db) && RowsCarried(env, db.observations)
    requires forall e :: e in es ==> EntryLinked(db, e) && Carries(env.ledger, e.ref.tx, e.transfer)
    requires put == Put(db.observations, es, final) && ref in db.observations
    ensures ref in put && NoLess(db.observations[ref], put[ref])
  {
    PutSubject(db, es, final, put, ref);
    LinkedAt(db, ref);
    var o := db.observations[ref];
    hide Put, RowsLinked, EntryLinked, ValidLedger, RowLinked, Carries;
    PutExact(db.observations, es, final);
    assert PutFrom(db.observations, es, final, ref, put[ref]);
    if e :| e in es && e.ref == ref {
      NotVanished(db, es);
      PutStandsAt(db.observations, es, final, put, ref, e);
      PutCarried(env, db.observations, es, final, put);
      SameWorth(env, db, ref, o, put[ref]);
    }
  }

  lemma LinkedAt(db: Rows, ref: Ref)
    requires RowsLinked(db) && ref in db.observations
    ensures RowLinked(db, ref, db.observations[ref])
  {
  }

  lemma NotVanished(db: Rows, es: seq<Entry>)
    requires forall e :: e in es ==> EntryLinked(db, e)
    ensures forall e :: e in es ==> e.reason != Vanished
  {
  }

  lemma PutStandsAt(rows: map<Ref, Observation>, es: seq<Entry>, final: bool, put: map<Ref, Observation>, ref: Ref, e: Entry)
    requires put == Put(rows, es, final) && e in es && e.ref == ref
    requires forall d :: d in es ==> d.reason != Vanished
    ensures ref in put && Stands(put[ref])
  {
    hide Put;
    PutExact(rows, es, final);
    assert PutFrom(rows, es, final, ref, put[ref]);
  }

  lemma PutCarried(env: Env, rows: map<Ref, Observation>, es: seq<Entry>, final: bool, put: map<Ref, Observation>)
    requires RowsCarried(env, rows) && forall e :: e in es ==> Carries(env.ledger, e.ref.tx, e.transfer)
    requires put == Put(rows, es, final)
    ensures RowsCarried(env, put)
  {
    hide Put;
    PutExact(rows, es, final);
    forall ref | ref in put ensures Carries(env.ledger, ref.tx, put[ref].transfer) {
      assert PutFrom(rows, es, final, ref, put[ref]);
    }
  }

  // ---- rows lost take back what stood on them, and nothing else

  lemma LoseBooks(db: Rows, lost: set<Ref>)
    requires RowsLinked(db)
    requires ReceivedTold(db.payments, db.observations) && ConfirmingBacked(db.attempts, db.observations)
    ensures var d := Lose(db, lost);
            && ReceivedTold(d.payments, d.observations) && ConfirmingBacked(d.attempts, d.observations)
            && d.observations.Keys == db.observations.Keys
            && forall ref :: ref in db.observations && RowTold(db.payments, db.observations[ref]) ==>
                 RowTold(d.payments, d.observations[ref])
  {
    var d := Lose(db, lost);
    LoseKeeps(db, lost);
    forall p | p in d.payments && d.payments[p].Open() && d.payments[p].received.Some? ensures ToldBy(d.observations, p) {
      StillToldBy(db, lost, p);
    }
    forall a | a in d.attempts && d.attempts[a].status == Confirming ensures ConfirmedBy(d.observations, a) {
      StillConfirmedBy(db, lost, a);
    }
    forall ref | ref in db.observations && RowTold(db.payments, db.observations[ref]) ensures RowTold(d.payments, d.observations[ref]) {
      StillTold(db, lost, ref);
    }
  }

  lemma ArrivalTold(db: Rows, lost: set<Ref>, p: PaymentId)
    requires RowsLinked(db) && p in db.payments && db.payments[p].Open()
    requires ArrivalStands(Mark(db.observations, lost), p)
    ensures ToldBy(Mark(db.observations, lost), p)
  {
    var marked := Mark(db.observations, lost);
    var ref :| ref in marked && marked[ref].payment == p && (marked[ref].reason == Matched || marked[ref].reason == Short);
    hide RowsLinked;
    assert marked[ref] == db.observations[ref];
    OfOpenPayment(db, ref);
  }

  lemma NotTaken(db: Rows, lost: set<Ref>, p: PaymentId)
    requires var d := Lose(db, lost); p in d.payments && d.payments[p].Open() && d.payments[p].received.Some?
    ensures p in db.payments && db.payments[p].Open() && db.payments[p].received.Some?
    ensures p in LostPayments(db.observations, lost) ==> ArrivalStands(Mark(db.observations, lost), p)
    ensures Lose(db, lost).observations == Mark(db.observations, lost)
  {
  }

  lemma StillToldBy(db: Rows, lost: set<Ref>, p: PaymentId)
    requires RowsLinked(db) && ReceivedTold(db.payments, db.observations)
    requires var d := Lose(db, lost); p in d.payments && d.payments[p].Open() && d.payments[p].received.Some?
    ensures ToldBy(Lose(db, lost).observations, p)
  {
    NotTaken(db, lost, p);
    var ref :| ref in db.observations && OfAttempts(db.observations[ref], p) && MayHaveTold(db.observations[ref]);
    hide RowsLinked, Lose, ArrivalStands;
    if ref in lost {
      assert p in LostPayments(db.observations, lost);
      ArrivalTold(db, lost, p);
    } else {
      assert Mark(db.observations, lost)[ref] == db.observations[ref];
    }
  }

  /** A payment that can receive has no refunds, so its rows are its attempts'. */
  lemma OfOpenPayment(db: Rows, ref: Ref)
    requires RowsLinked(db) && ref in db.observations
    requires db.observations[ref].payment in db.payments && db.payments[db.observations[ref].payment].Open()
    ensures db.observations[ref].against.ForAttempt?
  {
    assert RowLinked(db, ref, db.observations[ref]);
    assert forall r :: r in db.refunds ==> Refundable(db, db.refunds[r].payment);
  }

  lemma StillConfirmedBy(db: Rows, lost: set<Ref>, a: AttemptId)
    requires ConfirmingBacked(db.attempts, db.observations)
    requires var d := Lose(db, lost); a in d.attempts && d.attempts[a].status == Confirming
    ensures ConfirmedBy(Lose(db, lost).observations, a)
  {
    var marked := Mark(db.observations, lost);
    var ref :| ref in db.observations && db.observations[ref].against == ForAttempt(a) && MayHaveConfirmed(db.observations[ref]);
    if ref in lost {
      assert a in LostAttempts(db.observations, lost);
      assert AttemptMatched(marked, a);
    } else {
      assert marked[ref] == db.observations[ref];
    }
  }

  lemma StillTold(db: Rows, lost: set<Ref>, ref: Ref)
    requires ref in db.observations && RowTold(db.payments, db.observations[ref])
    ensures ref in Lose(db, lost).observations && RowTold(Lose(db, lost).payments, Lose(db, lost).observations[ref])
  {
    var o := Mark(db.observations, lost)[ref];
    if Tells(o) {
      assert o == db.observations[ref];
      assert ArrivalStands(Mark(db.observations, lost), o.payment);
    }
  }

  // ---- crediting and confirming

  predicate SaysArrived(s: Seen) {
    (s.reason == Matched || s.reason == Short) && s.transfer.value.Some?
  }

  /** After what was seen is credited, whoever was told has received, and whoever received was told. */
  lemma {:induction false} ArriveTells(ps: map<PaymentId, Payment>, seen: seq<Seen>)
    ensures var qs := Arrive(ps, seen);
            && (forall s :: s in seen && SaysArrived(s) && s.payment in qs && qs[s.payment].Open() ==>
                  qs[s.payment].received.Some?)
            && (forall p :: p in ps && ps[p].received.Some? ==> p in qs && qs[p].received.Some?)
            && (forall p :: p in qs && qs[p].received.Some? ==>
                  || (p in ps && ps[p].received.Some?)
                  || exists s :: s in seen && s.payment == p && (s.reason == Matched || s.reason == Short))
  {
    ArriveReceives(ps, seen);
    if seen != [] {
      var front, last := seen[..|seen| - 1], seen[|seen| - 1];
      ArriveTells(ps, front);
      assert seen == front + [last];
      ArriveReceives(ps, front);
      assert last in seen;
      assert forall s :: s in front ==> s in seen;
    }
  }

  /** Whoever is confirming after a round was before it, or was matched by something seen. */
  lemma {:induction false} ConfirmMatches(db: Rows, seen: seq<Seen>, a: AttemptId)
    requires Confirm(db, seen).Some? && a in Confirm(db, seen).value.attempts
    requires Confirm(db, seen).value.attempts[a].status == Confirming
    ensures
      || (a in db.attempts && db.attempts[a].status == Confirming)
      || exists s :: s in seen && s.attempt == a && s.reason == Matched
  {
    if seen != [] {
      var front, last := seen[..|seen| - 1], seen[|seen| - 1];
      assert seen == front + [last];
      var between := Confirm(db, front).value;
      if a in between.attempts && between.attempts[a].status == Confirming {
        ConfirmMatches(db, front, a);
      } else {
        assert last in seen;
      }
    }
  }

  // ---- what a round writes

  lemma PutRowsLinked(db: Rows, es: seq<Entry>, final: bool)
    requires RowsLinked(db) && forall e :: e in es ==> EntryLinked(db, e)
    ensures RowsLinked(db.(observations := Put(db.observations, es, final)))
  {
    PutLinked(db, db.observations, es, final);
    hide Put;
    var d := db.(observations := Put(db.observations, es, final));
    forall ref | ref in d.observations ensures RowLinked(d, ref, d.observations[ref]) {
      assert RowLinked(db, ref, d.observations[ref]);
    }
  }

  /** A row as an entry left it. */
  predicate FromEntry(o: Observation, e: Entry) { o.transfer == e.transfer && o.reason == e.reason }

  ghost predicate IsNoted(es: seq<Entry>, ref: Ref) { exists e :: e in es && e.ref == ref }

  lemma PutBooks(env: Env, db: Rows, es: seq<Entry>, final: bool, put: map<Ref, Observation>)
    requires ValidLedger(env.ledger) && RowsLinked(db) && RowsCarried(env, db.observations) && Booked(db)
    requires forall e :: e in es ==> EntryLinked(db, e) && Carries(env.ledger, e.ref.tx, e.transfer)
    requires put == Put(db.observations, es, final)
    ensures ReceivedTold(db.payments, put) && ConfirmingBacked(db.attempts, put)
    ensures forall ref :: ref in put && !IsNoted(es, ref) ==> RowTold(db.payments, put[ref])
    ensures forall ref :: IsNoted(es, ref) ==> ref in put && exists e :: e in es && e.ref == ref && FromEntry(put[ref], e)
  {
    forall p | p in db.payments && db.payments[p].Open() && db.payments[p].received.Some? ensures ToldBy(put, p) {
      var ref :| ref in db.observations && OfAttempts(db.observations[ref], p) && MayHaveTold(db.observations[ref]);
      PutWorth(env, db, es, final, put, ref);
    }
    forall a | a in db.attempts && db.attempts[a].status == Confirming ensures ConfirmedBy(put, a) {
      var ref :| ref in db.observations && db.observations[ref].against == ForAttempt(a) && MayHaveConfirmed(db.observations[ref]);
      PutWorth(env, db, es, final, put, ref);
    }
    hide Put, RowsLinked, EntryLinked, Carries;
    PutExact(db.observations, es, final);
    forall ref | ref in put
      ensures !IsNoted(es, ref) ==> RowTold(db.payments, put[ref])
      ensures IsNoted(es, ref) ==> exists e :: e in es && e.ref == ref && FromEntry(put[ref], e)
    {
      assert PutFrom(db.observations, es, final, ref, put[ref]);
    }
  }

  /** After the rows of a round are written and what was lost is taken back, only what was seen is still to be told. */
  lemma WrittenBooks(env: Env, db: Rows, first: nat, last: nat, final: bool, es: seq<Entry>)
    requires ValidLedger(env.ledger) && RowsLinked(db) && RowsCarried(env, db.observations) && Booked(db)
    requires forall e :: e in es ==> EntryLinked(db, e) && Carries(env.ledger, e.ref.tx, e.transfer)
    ensures var d := Written(db, first, last, final, es);
            && ReceivedTold(d.payments, d.observations) && ConfirmingBacked(d.attempts, d.observations)
            && (forall ref :: ref in d.observations && !IsNoted(es, ref) ==> RowTold(d.payments, d.observations[ref]))
            && (forall ref :: IsNoted(es, ref) ==>
                  ref in d.observations && exists e :: e in es && e.ref == ref && FromEntry(d.observations[ref], e))
  {
    var rows := Put(db.observations, es, final);
    PutBooks(env, db, es, final, rows);
    if final {
      var put := db.(observations := rows);
      PutRowsLinked(db, es, final);
      var lost := LostIn(rows, first, last, TxsOf(es));
      hide Put, RowsLinked, EntryLinked, Carries, Booked, ReceivedTold, ConfirmingBacked;
      LoseBooks(put, lost);
      LoseKeeps(put, lost);
      forall ref | IsNoted(es, ref) ensures ref !in lost {
        NotedIsNotLost(rows, first, last, es, ref);
      }
      hide Lose;
    }
  }

  lemma NotedIsNotLost(rows: map<Ref, Observation>, first: nat, last: nat, es: seq<Entry>, ref: Ref)
    requires IsNoted(es, ref)
    ensures ref !in LostIn(rows, first, last, TxsOf(es))
  {
    var e :| e in es && e.ref == ref;
    var i :| 0 <= i < |es| && es[i] == e;
  }

  /** A row something seen noted is worth what was seen. */
  lemma SeenWorth(env: Env, db: Rows, rows: map<Ref, Observation>, seen: seq<Seen>, sent: seq<Sent>, s: Seen)
    requires ValidLedger(env.ledger) && AllLinked(db, rows) && RowsCarried(env, rows) && AttemptsLinked(db) && RefundsLinked(db)
    requires forall e :: e in Entries(seen, sent) ==> EntryLinked(db, e) && Carries(env.ledger, e.ref.tx, e.transfer)
    requires forall ref :: IsNoted(Entries(seen, sent), ref) ==>
               ref in rows && exists e :: e in Entries(seen, sent) && e.ref == ref && FromEntry(rows[ref], e)
    requires s in seen
    ensures var ref := SeenEntry(s).ref; ref in rows && NoLess(EntryRow(SeenEntry(s)), rows[ref])
  {
    var es := Entries(seen, sent);
    var i :| 0 <= i < |seen| && seen[i] == s;
    var e := SeenEntry(s);
    assert es[i] == e && es[i] in es;
    assert IsNoted(es, e.ref);
    var f :| f in es && f.ref == e.ref && FromEntry(rows[e.ref], f);
    assert EntryLinked(db, e) && EntryLinked(db, f);
    assert RowLinked(db, e.ref, rows[e.ref]);
    hide AllLinked, EntryLinked, Entries, IsNoted;
    assert RowLinked(db, e.ref, EntryRow(e)) && Stands(EntryRow(f)) by { LinkedEntry(db, e); LinkedEntry(db, f); }
    SameSubject(db, e.ref, EntryRow(e), rows[e.ref]);
    SameWorth(env, db, e.ref, EntryRow(e), rows[e.ref]);
  }

  lemma LinkedEntry(db: Rows, e: Entry)
    requires EntryLinked(db, e)
    ensures RowLinked(db, e.ref, EntryRow(e)) && Stands(EntryRow(e))
  {
  }

  /** A row noted and telling was left by something seen, which told it. */
  lemma NotedIsTold(db: Rows, rows: map<Ref, Observation>, ps: map<PaymentId, Payment>, seen: seq<Seen>, sent: seq<Sent>, ref: Ref)
    requires AllLinked(db, rows) && AttemptsLinked(db) && RefundsLinked(db) && ref in rows
    requires forall e :: e in Entries(seen, sent) ==> EntryLinked(db, e)
    requires exists e :: e in Entries(seen, sent) && e.ref == ref && FromEntry(rows[ref], e)
    requires forall s :: s in seen && SaysArrived(s) && s.payment in ps && ps[s.payment].Open() ==> ps[s.payment].received.Some?
    ensures RowTold(ps, rows[ref])
  {
    var es := Entries(seen, sent);
    var e :| e in es && e.ref == ref && FromEntry(rows[ref], e);
    LinkedEntry(db, e);
    assert RowLinked(db, ref, rows[ref]);
    SameSubject(db, ref, rows[ref], EntryRow(e));
    var i :| 0 <= i < |es| && es[i] == e;
    if i < |seen| {
      assert seen[i] in seen && e == SeenEntry(seen[i]);
    } else {
      assert e == SentEntry(sent[i - |seen|]);
    }
  }
}
