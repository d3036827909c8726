/** The database of one network: rows its transactions change in place, each all or nothing. */
module Store {
  import opened Basics
  import opened Lifecycle
  import opened Records
  import opened Evidence
  import opened Tables
  import opened Ceiling

  /** Every row of what was seen names an attempt or a refund there is, which is what the foreign keys are for. */
  ghost predicate Referenced(db: Rows, rows: map<Ref, Observation>) {
    forall ref :: ref in rows && rows[ref].against.ForAttempt? ==>
      rows[ref].against.attempt in db.attempts && rows[ref].payment in db.payments
  }

  /** What a round saw names attempts and payments there are. */
  ghost predicate SeenReferenced(db: Rows, seen: seq<Seen>) {
    forall i :: 0 <= i < |seen| ==> seen[i].attempt in db.attempts && seen[i].payment in db.payments
  }

  // ---- what one row more takes back

  /** Taking back for one row more is taking back for all of them together, in whatever order they come. */
  lemma TakeOneMore(db: Rows, attempts: set<AttemptId>, payments: set<PaymentId>, a: AttemptId, p: PaymentId)
    requires a in db.attempts && p in db.payments
    ensures var before, after := Take(db, attempts, payments), Take(db, attempts + {a}, payments + {p});
            && after == before.(attempts := after.attempts, payments := after.payments)
            && before.observations == db.observations && a in before.attempts && p in before.payments
    ensures var before, after := Take(db, attempts, payments), Take(db, attempts + {a}, payments + {p});
            && after.attempts == (
                 if AttemptMatched(db.observations, a) || before.attempts[a].Unconfirm().None? then before.attempts
                 else before.attempts[a := Bumped(before.attempts[a].Unconfirm().value)])
            && after.payments == (
                 if ArrivalStands(db.observations, p) || before.payments[p].Unreceive().None? then before.payments
                 else before.payments[p := Saved(before.payments[p].Unreceive().value)])
  {
  }

  lemma TakeNothing(db: Rows)
    ensures Take(db, {}, {}) == db
  {
    assert Take(db, {}, {}).attempts == db.attempts;
    assert Take(db, {}, {}).payments == db.payments;
  }

  /** The rows of a set whose own rows stand against an attempt. */
  lemma LostOneMore(rows: map<Ref, Observation>, done: set<Ref>, ref: Ref)
    requires ref in rows
    ensures rows[ref].against.ForAttempt? ==>
              && LostAttempts(rows, done + {ref}) == LostAttempts(rows, done) + {rows[ref].against.attempt}
              && LostPayments(rows, done + {ref}) == LostPayments(rows, done) + {rows[ref].payment}
    ensures !rows[ref].against.ForAttempt? ==>
              && LostAttempts(rows, done + {ref}) == LostAttempts(rows, done)
              && LostPayments(rows, done + {ref}) == LostPayments(rows, done)
  {
  }

  class Store {
    var payments: map<PaymentId, Payment>
    var attempts: map<AttemptId, Attempt>
    var refunds: map<RefundId, Refund>
    var observations: map<Ref, Observation>
    var cursor: Option<Position>
    var outbox: seq<Event>

    function Value(): Rows
      reads this
    {
      Rows(payments, attempts, refunds, observations, cursor, outbox)
    }

    constructor ()
      ensures Value() == Rows(map[], map[], map[], map[], None, [])
    {
      payments, attempts, refunds, observations, cursor, outbox := map[], map[], map[], map[], None, [];
    }

    /** A transaction that reports an error leaves everything as it was. */
    method RollBack(to: Rows)
      modifies this
      ensures Value() == to
    {
      payments, attempts, refunds := to.payments, to.attempts, to.refunds;
      observations, cursor, outbox := to.observations, to.cursor, to.outbox;
    }

    // ---- one row

    method RecordOne(e: Entry, final: bool) returns (ok: bool)
      modifies this`observations
      ensures ok == e.transfer.storable
      ensures observations == if ok then PutOne(old(observations), e, final) else old(observations)
    {
      if !e.transfer.storable {
        return false;
      }
      if e.ref in observations {
        var was := observations[e.ref];
        observations := observations[e.ref :=
          was.(place := e.place, transfer := e.transfer, reason := e.reason, final := was.final || final)];
      } else {
        observations := observations[e.ref := Observation(e.payment, e.against, e.place, e.transfer, e.reason, final)];
      }
      return true;
    }

    method Unconfirm(a: AttemptId)
      requires a in attempts
      modifies this`attempts
      ensures attempts ==
              if AttemptMatched(observations, a) || old(attempts)[a].Unconfirm().None? then old(attempts)
              else old(attempts)[a := Bumped(old(attempts)[a].Unconfirm().value)]
    {
      if exists ref :: ref in observations && observations[ref].against == ForAttempt(a) && observations[ref].reason == Matched {
        return;
      }
      var moved := attempts[a].Unconfirm();
      if moved.Some? {
        attempts := attempts[a := Bumped(moved.value)];
      }
    }

    method Unreceive(p: PaymentId)
      requires p in payments
      modifies this`payments
      ensures payments ==
              if ArrivalStands(observations, p) || old(payments)[p].Unreceive().None? then old(payments)
              else old(payments)[p := Saved(old(payments)[p].Unreceive().value)]
    {
      if exists ref :: ref in observations && observations[ref].payment == p
                       && (observations[ref].reason == Matched || observations[ref].reason == Short) {
        return;
      }
      var moved := payments[p].Unreceive();
      if moved.Some? {
        payments := payments[p := Saved(moved.value)];
      }
    }

    /** What one row that was lost stood for is taken back, after the same was done for others. */
    method Taken(ref: Ref, ghost before: Rows, ghost done: set<Ref>)
      requires ref in observations && Referenced(before, observations) && before.observations == observations
      requires Value() == Take(before, LostAttempts(observations, done), LostPayments(observations, done))
      modifies this`attempts, this`payments
      ensures Value() == Take(before, LostAttempts(observations, done + {ref}), LostPayments(observations, done + {ref}))
    {
      var one := observations[ref];
      LostOneMore(observations, done, ref);
      if one.against.ForAttempt? {
        TakeOneMore(before, LostAttempts(observations, done), LostPayments(observations, done), one.against.attempt, one.payment);
        hide Take, LostAttempts, LostPayments, AttemptMatched, ArrivalStands;
        Unconfirm(one.against.attempt);
        Unreceive(one.payment);
      }
    }

    /** What the rows that were lost stood for is taken back, a row at a time. */
    method TakeBack(lost: set<Ref>)
      requires lost <= observations.Keys && Referenced(Value(), observations)
      modifies this`attempts, this`payments
      ensures Value() == Take(old(Value()), LostAttempts(observations, lost), LostPayments(observations, lost))
    {
      var left := lost;
      ghost var done: set<Ref> := {};
      ghost var before := Value();
      TakeNothing(before);
      assert LostAttempts(observations, {}) == {} && LostPayments(observations, {}) == {};
      hide Take, LostAttempts, LostPayments, Referenced;
      while left != {}
        invariant done + left == lost && done !! left
        invariant Value() == Take(before, LostAttempts(observations, done), LostPayments(observations, done))
        decreases |left|
      {
        var ref :| ref in left;
        Taken(ref, before, done);
        left := left - {ref};
        done := done + {ref};
      }
      assert done == lost;
    }

    /** A span of finalised heights loses the rows a round no longer finds there, and what stood on them. */
    method LoseFrom(first: nat, last: nat, txs: set<Tx>)
      requires Referenced(Value(), observations)
      modifies this`observations, this`attempts, this`payments
      ensures Value() == Lose(old(Value()), LostIn(old(observations), first, last, txs))
    {
      var lost := LostIn(observations, first, last, txs);
      MarkLost(lost);
    }

    method MarkLost(lost: set<Ref>)
      requires lost <= observations.Keys && Referenced(Value(), observations)
      modifies this`observations, this`attempts, this`payments
      ensures Value() == Lose(old(Value()), lost)
    {
      ghost var before := observations;
      observations := Mark(observations, lost);
      assert LostAttempts(observations, lost) == LostAttempts(before, lost);
      assert LostPayments(observations, lost) == LostPayments(before, lost);
      TakeBack(lost);
    }

    method Arrived(s: Seen)
      requires s.payment in payments
      modifies this`payments
      ensures payments == ArriveOne(old(payments), s)
    {
      if s.reason != Matched && s.reason != Short {
        return;
      }
      var p := payments[s.payment];
      if !p.Open() || p.received.Some? || s.transfer.value.None? {
        return;
      }
      payments := payments[s.payment := Saved(p.Receive(s.transfer.value.value).value)];
    }

    method SaveOne(id: AttemptId, moved: Attempt, at: nat) returns (ok: bool)
      modifies this`attempts
      ensures ok == SaveAttempt(old(Value()), id, moved, at).Some?
      ensures ok ==> Value() == SaveAttempt(old(Value()), id, moved, at).value
      ensures !ok ==> attempts == old(attempts)
    {
      if id !in attempts || attempts[id].revision != at {
        return false;
      }
      attempts := attempts[id := Bumped(attempts[id].(status := moved.status, authorizer := moved.authorizer))];
      return true;
    }

    method Confirmed(s: Seen) returns (ok: bool)
      modifies this`attempts, this`outbox
      ensures ok == ConfirmOne(old(Value()), s).Some?
      ensures ok ==> Value() == ConfirmOne(old(Value()), s).value
    {
      if s.reason != Matched {
        return true;
      }
      var moved := s.read.Confirm(s.transfer.authorizer);
      if moved.None? {
        return true;
      }
      ok := SaveOne(s.attempt, moved.value, s.read.revision);
      if ok {
        outbox := outbox + [AttemptConfirming(s.payment)];
      }
    }

    // ---- a round

    method PutAll(es: seq<Entry>, final: bool) returns (ok: bool)
      modifies this`observations
      ensures ok == Storable(es)
      ensures ok ==> observations == Put(old(observations), es, final)
    {
      for i := 0 to |es|
        invariant observations == Put(old(observations), es[..i], final)
        invariant Storable(es[..i])
      {
        assert es[..i + 1][..i] == es[..i];
        var stored := RecordOne(es[i], final);
        if !stored {
          return false;
        }
      }
      assert es[..|es|] == es;
      return true;
    }

    method ArriveAll(seen: seq<Seen>)
      requires SeenReferenced(Value(), seen)
      modifies this`payments
      ensures payments == Arrive(old(payments), seen)
    {
      for i := 0 to |seen|
        invariant payments == Arrive(old(payments), seen[..i])
        invariant payments.Keys == old(payments).Keys
      {
        assert seen[..i + 1][..i] == seen[..i];
        Arrived(seen[i]);
      }
      assert seen[..|seen|] == seen;
    }

    method ConfirmAll(seen: seq<Seen>) returns (ok: bool)
      modifies this`attempts, this`outbox
      ensures ok == Confirm(old(Value()), seen).Some?
      ensures ok ==> Value() == Confirm(old(Value()), seen).value
    {
      for i := 0 to |seen|
        invariant Confirm(old(Value()), seen[..i]) == Some(Value())
      {
        assert seen[..i + 1][..i] == seen[..i];
        ok := Confirmed(seen[i]);
        if !ok {
          ConfirmFails(old(Value()), seen, i + 1);
          return false;
        }
      }
      assert seen[..|seen|] == seen;
      return true;
    }

    /** What a round saw, written down inside the transaction of whoever calls it. */
    method Recorded(first: nat, last: nat, final: bool, seen: seq<Seen>, sent: seq<Sent>) returns (ok: bool)
      requires Referenced(Value(), observations) && SeenReferenced(Value(), seen)
      modifies this
      ensures ok == Record(old(Value()), first, last, final, seen, sent).Some?
      ensures ok ==> Value() == Record(old(Value()), first, last, final, seen, sent).value
    {
      var es := Entries(seen, sent);
      ok := PutAll(es, final);
      if !ok {
        return;
      }
      PutReferenced(old(Value()), seen, sent, final);
      if final {
        LoseFrom(first, last, TxsOf(es));
      }
      assert Value() == Written(old(Value()), first, last, final, es);
      WrittenReferenced(old(Value()), first, last, final, es, seen);
      ArriveAll(seen);
      ok := ConfirmAll(seen);
    }

    /** A round ahead of the final block writes what it saw and nothing else. */
    method RecordAhead(first: nat, last: nat, seen: seq<Seen>, sent: seq<Sent>) returns (ok: bool)
      requires Referenced(Value(), observations) && SeenReferenced(Value(), seen)
      modifies this
      ensures ok == Record(old(Value()), first, last, false, seen, sent).Some?
      ensures Value() == if ok then Record(old(Value()), first, last, false, seen, sent).value else old(Value())
    {
      var before := Value();
      ok := Recorded(first, last, false, seen, sent);
      if !ok {
        RollBack(before);
      }
    }

    /** A finalised range is written with the advance of the cursor, or neither is. */
    method WriteFinal(first: nat, last: nat, from: Position, to: Position, seen: seq<Seen>, sent: seq<Sent>) returns (ok: bool)
      requires Referenced(Value(), observations) && SeenReferenced(Value(), seen)
      modifies this
      ensures ok == WriteRange(old(Value()), first, last, from, to, seen, sent).Some?
      ensures Value() == if ok then WriteRange(old(Value()), first, last, from, to, seen, sent).value else old(Value())
    {
      var before := Value();
      ok := Recorded(first, last, true, seen, sent);
      if ok {
        ok := Advance(from, to);
      }
      if !ok {
        RollBack(before);
      }
    }

    // ---- the cursor

    method Init(at: Position)
      modifies this`cursor
      ensures cursor == if old(cursor).Some? then old(cursor) else Some(at)
    {
      if cursor.None? {
        cursor := Some(at);
      }
    }

    method Advance(from: Position, to: Position) returns (ok: bool)
      modifies this`cursor
      ensures ok == AdvancesFrom(old(Value()), from)
      ensures cursor == if ok then Some(to) else old(cursor)
    {
      if cursor.None? || cursor.value.height != from.height || cursor.value.hash != from.hash {
        return false;
      }
      cursor := Some(to);
      return true;
    }

    // ---- one transfer, one payment, one refund

    method Vanish(ref: Ref)
      requires Referenced(Value(), observations)
      modifies this
      ensures Value() == GiveUp(old(Value()), ref)
    {
      if ref !in observations || observations[ref].reason == Vanished {
        return;
      }
      MarkLost({ref});
    }

    method Save(id: PaymentId, moved: Payment, at: nat) returns (ok: bool)
      modifies this
      ensures ok == SavePayment(old(Value()), id, moved, at).Some?
      ensures Value() == if ok then SavePayment(old(Value()), id, moved, at).value else old(Value())
    {
      if id !in payments || payments[id].version != at {
        return false;
      }
      payments := payments[id := Saved(payments[id].(status := moved.status, received := moved.received))];
      outbox := outbox + [PaymentMoved(id, moved.status)];
      return true;
    }

    method SaveReturn(id: RefundId, to: RefundStatus, at: nat) returns (ok: bool)
      modifies this
      ensures ok == SaveRefund(old(Value()), id, to, at).Some?
      ensures Value() == if ok then SaveRefund(old(Value()), id, to, at).value else old(Value())
    {
      if id !in refunds || refunds[id].version != at {
        return false;
      }
      refunds := refunds[id := refunds[id].(status := to, version := refunds[id].version + 1)];
      if RefundFinal(to) {
        outbox := outbox + [RefundMoved(id, to)];
      }
      return true;
    }

    method Issue(id: AttemptId, a: Attempt) returns (ok: bool)
      modifies this
      ensures ok == IssueAttempt(old(Value()), id, a).Some?
      ensures Value() == if ok then IssueAttempt(old(Value()), id, a).value else old(Value())
    {
      if id in attempts || exists b :: b in attempts && attempts[b].key == a.key {
        return false;
      }
      if exists b :: b in attempts && attempts[b].payment == a.payment && Live(attempts[b].status) {
        assert HasLive(old(Value()), a.payment) by {
          var b :| b in attempts && attempts[b].payment == a.payment && Live(attempts[b].status);
          assert b in AttemptsOf(Value(), a.payment);
        }
        return false;
      }
      attempts := attempts[id := a];
      return true;
    }

    /** What a payment's refunds hold, summed row by row. */
    method HeldBy(p: PaymentId) returns (held: nat)
      ensures held == Held(Value(), p)
    {
      held := 0;
      var left := Holding(Value(), p);
      while left != {}
        invariant left <= Holding(Value(), p)
        invariant held + Sum(refunds, left) == Held(Value(), p)
        decreases |left|
      {
        var r :| r in left;
        SumTakes(refunds, left, r);
        held := held + refunds[r].amount;
        left := left - {r};
      }
    }

    /** A refund stored under the payment's lock: only of what is left, and only of a payment that succeeded. */
    method CreateRefund(r: RefundId, refund: Refund) returns (ok: bool)
      requires r !in refunds
      modifies this`refunds
      ensures ok <==>
              && refund.payment in payments && payments[refund.payment].status == Succeeded
              && payments[refund.payment].received.Some?
              && old(Held(Value(), refund.payment)) + refund.amount <= payments[refund.payment].received.value
              && !exists s :: s in old(refunds) && old(refunds)[s].key == refund.key
      ensures refunds == if ok then old(refunds)[r := refund] else old(refunds)
    {
      if refund.payment !in payments {
        return false;
      }
      var p := payments[refund.payment];
      if p.status != Succeeded || p.received.None? {
        return false;
      }
      var held := HeldBy(refund.payment);
      if p.received.value - held < refund.amount {
        return false;
      }
      if exists s :: s in refunds && refunds[s].key == refund.key {
        return false;
      }
      refunds := refunds[r := refund];
      return true;
    }
  }

  // ---- between the loops

  /** Once one of a round is stale, the whole of it is. */
  lemma {:induction false} ConfirmFails(db: Rows, seen: seq<Seen>, n: nat)
    requires n <= |seen| && Confirm(db, seen[..n]).None?
    ensures Confirm(db, seen).None?
    decreases |seen| - n
  {
    if n < |seen| {
      assert seen[..n + 1][..n] == seen[..n];
      ConfirmFails(db, seen, n + 1);
    } else {
      assert seen[..n] == seen;
    }
  }

  lemma {:induction false} PutAgainst(db: Rows, es: seq<Entry>, final: bool)
    requires Referenced(db, db.observations)
    requires forall i :: 0 <= i < |es| && es[i].against.ForAttempt? ==>
               es[i].against.attempt in db.attempts && es[i].payment in db.payments
    ensures Referenced(db, Put(db.observations, es, final))
  {
    if es != [] {
      PutAgainst(db, es[..|es| - 1], final);
    }
  }

  lemma PutReferenced(db: Rows, seen: seq<Seen>, sent: seq<Sent>, final: bool)
    requires Referenced(db, db.observations) && SeenReferenced(db, seen)
    ensures Referenced(db, Put(db.observations, Entries(seen, sent), final))
  {
    var es := Entries(seen, sent);
    forall i | |seen| <= i < |es| ensures es[i].against.ForRefund? {
      assert es[i] == SentEntry(sent[i - |seen|]);
    }
    forall i | 0 <= i < |seen| ensures es[i].against.attempt in db.attempts && es[i].payment in db.payments {
      assert es[i] == SeenEntry(seen[i]);
    }
    PutAgainst(db, es, final);
  }

  lemma WrittenReferenced(db: Rows, first: nat, last: nat, final: bool, es: seq<Entry>, seen: seq<Seen>)
    requires SeenReferenced(db, seen)
    ensures SeenReferenced(Written(db, first, last, final, es), seen)
  {
  }
}
