/** What a worker can decide, told by the chain: exactly when a payment and a refund can be settled, and can expire. */
module Decidable {
  import opened Basics
  import opened Lifecycle
  import opened Records
  import opened Evidence
  import opened Tables
  import opened Chains
  import opened Reading
  import opened RowFacts
  import opened Protocol
  import opened Consistency
  import opened Reachable
  import opened Index
  import opened Observing
  import opened Writing
  import opened IndexAgrees
  import opened Settlement
  import opened Outcomes
  import opened Arrivals

  // ---- what the rows of a run say of the chain

  ghost predicate Read(env: Env, w: World) {
    Indexed(env, w) && RowsLinked(w.db) && FinalStands(w.db.observations)
  }

  lemma ReadRun(env: Env, ws: seq<World>, ss: seq<Step>, i: nat)
    requires Run(env, ws, ss) && LoneRun(ws, ss) && TruthfulRun(ws, ss) && i < |ws|
    ensures Read(env, ws[i])
  {
    ConsistentRun(env, ws, ss, i);
    LinkedOf(ws[i]);
    hide Run, LoneRun, TruthfulRun, Indexed, Consistent, RowsLinked, FinalStands;
    IndexedRun(env, ws, ss, i);
    StandsRun(env, ws, ss, i);
  }

  // ---- a payment

  /** The transaction of a row carries, in a block that was read, a transfer of the row's key that pays the payment. */
  ghost predicate PaidBy(env: Env, w: World, p: PaymentId, ref: Ref) {
    exists a, h: nat, t: Transfer :: ReadTo(w.db.cursor, h) && t.key == ref.key && PaysIn(env, w.chain, w.db, p, a, h, ref.tx, t)
  }

  /** A final matched row of an unfinished payment is of a transfer that pays it. */
  lemma MatchedPays(env: Env, w: World, p: PaymentId, ref: Ref)
    requires Indexed(env, w) && RowsLinked(w.db) && ref in w.db.observations && p in w.db.payments
    requires w.db.observations[ref].payment == p && w.db.observations[ref].reason == Matched
    requires w.db.observations[ref].final && w.db.payments[p].status != Succeeded
    ensures PaidBy(env, w, p, ref)
  {
    hide RowsWhole, RoundsTrue, Watching, RowsSound, ChainTrue;
    var o := w.db.observations[ref];
    assert RowTrue(env, w.chain, w.db.cursor, ref, o);
    assert RowLinked(w.db, ref, o);
    NotOfRefund(w.db, ref);
    assert PaysIn(env, w.chain, w.db, p, o.against.attempt, o.place.height, ref.tx, o.transfer);
  }

  lemma SettlesExactly(env: Env, w: World, p: PaymentId, ref: Ref, now: Time)
    requires Read(env, w)
    ensures Enabled(env, w, ByWorker(Decide(p, Succeeded, now, ref))) <==>
              && p in w.db.payments && w.db.payments[p].status in {AwaitingPayment, AwaitingFinality}
              && w.db.payments[p].received.Some? && w.db.payments[p].received.value >= w.db.payments[p].amount
              && PaidBy(env, w, p, ref)
  {
    hide Indexed, RowsLinked, FinalStands;
    if Enabled(env, w, ByWorker(Decide(p, Succeeded, now, ref))) {
      hide PaidBy;
      MatchedPays(env, w, p, ref);
    }
    if p in w.db.payments && w.db.payments[p].status in {AwaitingPayment, AwaitingFinality} && PaidBy(env, w, p, ref) {
      var a, h: nat, t: Transfer :| ReadTo(w.db.cursor, h) && t.key == ref.key && PaysIn(env, w.chain, w.db, p, a, h, ref.tx, t);
      PayingIsMatched(env, w, p, a, h, ref.tx, t);
      assert ref == Ref(t.key, ref.tx);
    }
  }

  /**
   Over every run in which one observer reads at a time and nothing on the final
   chain is given up on: a payment can be settled, payable or past its deadline
   alike, if and only if what it received covers it and the chain, up to the cursor,
   carries a transfer that pays it.
   */
  lemma SettlesTheorem(env: Env, ws: seq<World>, ss: seq<Step>, i: nat, p: PaymentId, ref: Ref, now: Time)
    requires Run(env, ws, ss) && LoneRun(ws, ss) && TruthfulRun(ws, ss) && i < |ws|
    ensures var db := ws[i].db;
            Enabled(env, ws[i], ByWorker(Decide(p, Succeeded, now, ref))) <==>
              && p in db.payments && db.payments[p].status in {AwaitingPayment, AwaitingFinality}
              && db.payments[p].received.Some? && db.payments[p].received.value >= db.payments[p].amount
              && PaidBy(env, ws[i], p, ref)
  {
    hide Run, LoneRun, TruthfulRun, Read, Enabled, PaidBy;
    ReadRun(env, ws, ss, i);
    SettlesExactly(env, ws[i], p, ref, now);
  }

  /** A row above the cursor is matched: of a block that may still be replaced, or was. */
  ghost predicate MatchedAbove(db: Rows, p: PaymentId) {
    exists ref ::
      && ref in db.observations && db.observations[ref].payment == p && db.observations[ref].reason == Matched
      && !ReadTo(db.cursor, db.observations[ref].place.height)
  }

  lemma MatchedIsAbove(env: Env, w: World, p: PaymentId)
    requires Read(env, w) && p in w.db.payments && w.db.payments[p].status != Succeeded && MatchedAgainst(w.db, p)
    ensures MatchedAbove(w.db, p) || exists a, h, x, t :: PaysIn(env, w.chain, w.db, p, a, h, x, t)
  {
    hide RowsLinked, RowsWhole, RoundsTrue, Watching, RowsSound, ChainTrue;
    var ref :| ref in w.db.observations && w.db.observations[ref].payment == p && w.db.observations[ref].reason == Matched;
    assert RowTrue(env, w.chain, w.db.cursor, ref, w.db.observations[ref]);
    if ReadTo(w.db.cursor, w.db.observations[ref].place.height) {
      MatchedPays(env, w, p, ref);
    }
  }

  lemma ExpiresExactly(env: Env, w: World, p: PaymentId, ref: Ref, now: Time)
    requires Read(env, w)
    ensures Enabled(env, w, ByWorker(Decide(p, Expired, now, ref))) <==>
              && p in w.db.payments && w.db.payments[p].status == AwaitingFinality
              && w.db.cursor.Some? && w.db.cursor.value.time >= w.db.payments[p].expiresAt
              && !MatchedAbove(w.db, p) && forall a, h, x, t :: !PaysIn(env, w.chain, w.db, p, a, h, x, t)
  {
    hide Indexed, RowsLinked, FinalStands, PaysIn;
    if Enabled(env, w, ByWorker(Decide(p, Expired, now, ref))) {
      UnsettledNeverPaid(env, w, p);
    } else if p in w.db.payments && w.db.payments[p].status == AwaitingFinality && MatchedAgainst(w.db, p) {
      MatchedIsAbove(env, w, p);
    }
  }

  lemma OverdueExactly(env: Env, w: World, p: PaymentId, ref: Ref, now: Time)
    ensures Enabled(env, w, ByWorker(Decide(p, AwaitingFinality, now, ref))) <==>
              p in w.db.payments && w.db.payments[p].status == AwaitingPayment && w.db.payments[p].expiresAt <= now
  {
  }

  /**
   Over the same runs: a payment can expire, whatever it received, if and only if it
   is past its deadline, the network was read past that, no block of the chain pays
   it, and no row above the cursor is matched to it. It is past its deadline once a
   clock says so while it is payable.
   */
  lemma ExpiresTheorem(env: Env, ws: seq<World>, ss: seq<Step>, i: nat, p: PaymentId, ref: Ref, now: Time)
    requires Run(env, ws, ss) && LoneRun(ws, ss) && TruthfulRun(ws, ss) && i < |ws|
    ensures var db := ws[i].db;
            Enabled(env, ws[i], ByWorker(Decide(p, Expired, now, ref))) <==>
              && p in db.payments && db.payments[p].status == AwaitingFinality
              && db.cursor.Some? && db.cursor.value.time >= db.payments[p].expiresAt
              && !MatchedAbove(db, p) && forall a, h, x, t :: !PaysIn(env, ws[i].chain, db, p, a, h, x, t)
    ensures var db := ws[i].db;
            Enabled(env, ws[i], ByWorker(Decide(p, AwaitingFinality, now, ref))) <==>
              p in db.payments && db.payments[p].status == AwaitingPayment && db.payments[p].expiresAt <= now
  {
    hide Run, LoneRun, TruthfulRun;
    ReadRun(env, ws, ss, i);
    OverdueExactly(env, ws[i], p, ref, now);
    hide Read, Enabled, PaysIn, MatchedAbove;
    ExpiresExactly(env, ws[i], p, ref, now);
  }

  // ---- a refund

  /** The transaction of a row carries, in a block that was read, a transfer of the row's key that settles the refund. */
  ghost predicate SentBy(env: Env, w: World, r: RefundId, ref: Ref) {
    exists h: nat, t: Transfer :: ReadTo(w.db.cursor, h) && t.key == ref.key && SettlesIn(env, w.chain, w.db, r, h, ref.tx, t)
  }

  /** A transfer of a refund's key, in a block that was read, has its final row. */
  lemma SentRow(env: Env, w: World, r: RefundId, h: nat, x: Tx, t: Transfer)
    requires Read(env, w) && r in w.db.refunds && t.key == w.db.refunds[r].key
    requires On(w.chain, h, x) && ReadTo(w.db.cursor, h) && Owed(env, x, t)
    ensures var ref := Ref(t.key, x);
            && ref in w.db.observations && w.db.observations[ref].against == ForRefund(r)
            && w.db.observations[ref].payment == w.db.refunds[r].payment && w.db.observations[ref].transfer == t
            && w.db.observations[ref].final && Stands(w.db.observations[ref])
            && w.db.observations[ref].place == PlaceAt(w.chain, h) && RowLinked(w.db, ref, w.db.observations[ref])
  {
    assert HoldsRefund(w.db, r, t.key);
    hide Indexed, FinalStands;
    CarriedRow(env, w, h, x, t);
    NotOfAnother(w.db, r, Ref(t.key, x));
  }

  lemma SettlingIsOwed(env: Env, w: World, r: RefundId, h: nat, x: Tx, t: Transfer)
    requires Read(env, w) && SettlesIn(env, w.chain, w.db, r, h, x, t)
    ensures Owed(env, x, t) && t.key == w.db.refunds[r].key && On(w.chain, h, x)
  {
    JudgeRefundMeaning(t, w.chain.blocks[h].time, w.db.refunds[r], w.db.payments[w.db.refunds[r].payment]);
    assert RowsSound(env, w.db);
  }

  lemma SettlingIsMatched(env: Env, w: World, r: RefundId, h: nat, x: Tx, t: Transfer)
    requires Read(env, w) && SettlesIn(env, w.chain, w.db, r, h, x, t) && ReadTo(w.db.cursor, h)
    ensures var ref := Ref(t.key, x);
            && ref in w.db.observations && w.db.observations[ref].against == ForRefund(r)
            && w.db.observations[ref].payment == w.db.refunds[r].payment
            && w.db.observations[ref].reason == Matched && w.db.observations[ref].final
  {
    SettlingIsOwed(env, w, r, h, x, t);
    SentRow(env, w, r, h, x, t);
  }

  lemma MatchedSettles(env: Env, w: World, r: RefundId, ref: Ref)
    requires Read(env, w) && r in w.db.refunds && ref in w.db.observations
    requires w.db.observations[ref].against == ForRefund(r)
    requires w.db.observations[ref].reason == Matched && w.db.observations[ref].final
    ensures SentBy(env, w, r, ref)
  {
    hide RowsWhole, RoundsTrue, Watching, RowsSound, ChainTrue, FinalStands;
    var o := w.db.observations[ref];
    assert RowTrue(env, w.chain, w.db.cursor, ref, o);
    assert RowLinked(w.db, ref, o);
    assert SettlesIn(env, w.chain, w.db, r, o.place.height, ref.tx, o.transfer);
  }

  lemma RefundSettlesExactly(env: Env, w: World, r: RefundId, ref: Ref, now: Time)
    requires Read(env, w)
    ensures Enabled(env, w, ByWorker(DecideRefund(r, RefundSucceeded, now, ref))) <==>
              && r in w.db.refunds && w.db.refunds[r].status in {RefundCreated, RefundAwaitingFinality}
              && SentBy(env, w, r, ref)
  {
    hide Read;
    if Enabled(env, w, ByWorker(DecideRefund(r, RefundSucceeded, now, ref))) {
      hide SentBy;
      MatchedSettles(env, w, r, ref);
    }
    if r in w.db.refunds && SentBy(env, w, r, ref) {
      var h: nat, t: Transfer :| ReadTo(w.db.cursor, h) && t.key == ref.key && SettlesIn(env, w.chain, w.db, r, h, ref.tx, t);
      SettlingIsMatched(env, w, r, h, ref.tx, t);
      assert ref == Ref(t.key, ref.tx);
    }
  }

  /** Over the same runs: a refund can be settled, signable or past its deadline alike, if and only if a block read settles it. */
  lemma RefundSettlesTheorem(env: Env, ws: seq<World>, ss: seq<Step>, i: nat, r: RefundId, ref: Ref, now: Time)
    requires Run(env, ws, ss) && LoneRun(ws, ss) && TruthfulRun(ws, ss) && i < |ws|
    ensures var db := ws[i].db;
            Enabled(env, ws[i], ByWorker(DecideRefund(r, RefundSucceeded, now, ref))) <==>
              && r in db.refunds && db.refunds[r].status in {RefundCreated, RefundAwaitingFinality}
              && SentBy(env, ws[i], r, ref)
  {
    hide Run, LoneRun, TruthfulRun, Read, Enabled, SentBy;
    ReadRun(env, ws, ss, i);
    RefundSettlesExactly(env, ws[i], r, ref, now);
  }

  /** A block that was read carries a transfer of a refund's key out of the wallet the refund comes from, whatever it is worth. */
  ghost predicate LeftWallet(env: Env, w: World, r: RefundId) {
    && r in w.db.refunds && w.db.refunds[r].payment in w.db.payments
    && exists h: nat, x, t ::
         && On(w.chain, h, x) && ReadTo(w.db.cursor, h) && Owed(env, x, t) && t.key == w.db.refunds[r].key
         && t.from == w.db.payments[w.db.refunds[r].payment].destination
  }

  /** A row above the cursor says that it did, or will. */
  ghost predicate LeavesAbove(db: Rows, r: RefundId) {
    && r in db.refunds && db.refunds[r].payment in db.payments
    && exists ref ::
         && ref in db.observations && db.observations[ref].against == ForRefund(r) && Stands(db.observations[ref])
         && db.observations[ref].transfer.from == db.payments[db.refunds[r].payment].destination
         && !ReadTo(db.cursor, db.observations[ref].place.height)
  }

  lemma SpentLeft(env: Env, w: World, r: RefundId)
    requires Read(env, w) && r in w.db.refunds && w.db.refunds[r].payment in w.db.payments && SpentFromWallet(w.db, r)
    ensures LeftWallet(env, w, r) || LeavesAbove(w.db, r)
  {
    hide RowsWhole, RoundsTrue, Watching, ChainTrue, FinalStands, RowsSound;
    var ref :| && ref in w.db.observations
               && w.db.observations[ref].payment == w.db.refunds[r].payment && w.db.observations[ref].against == ForRefund(r)
               && Stands(w.db.observations[ref])
               && w.db.observations[ref].transfer.from == w.db.payments[w.db.refunds[r].payment].destination;
    var o := w.db.observations[ref];
    assert RowTrue(env, w.chain, w.db.cursor, ref, o);
    assert RowLinked(w.db, ref, o);
    if ReadTo(w.db.cursor, o.place.height) {
      StandingIsOwed(env, w.chain, w.db, ref);
    }
  }

  lemma LeftIsSpent(env: Env, w: World, r: RefundId)
    requires Read(env, w) && (LeftWallet(env, w, r) || LeavesAbove(w.db, r))
    ensures SpentFromWallet(w.db, r)
  {
    if LeftWallet(env, w, r) {
      var h: nat, x, t :| && On(w.chain, h, x) && ReadTo(w.db.cursor, h) && Owed(env, x, t) && t.key == w.db.refunds[r].key
                          && t.from == w.db.payments[w.db.refunds[r].payment].destination;
      SentRow(env, w, r, h, x, t);
    } else {
      var ref :| && ref in w.db.observations && w.db.observations[ref].against == ForRefund(r) && Stands(w.db.observations[ref])
                 && w.db.observations[ref].transfer.from == w.db.payments[w.db.refunds[r].payment].destination;
      assert RowLinked(w.db, ref, w.db.observations[ref]);
    }
  }

  lemma RefundExpiresExactly(env: Env, w: World, r: RefundId, ref: Ref, now: Time)
    requires Read(env, w)
    ensures Enabled(env, w, ByWorker(DecideRefund(r, RefundExpired, now, ref))) <==>
              && r in w.db.refunds && w.db.refunds[r].status == RefundAwaitingFinality
              && w.db.cursor.Some? && w.db.cursor.value.time >= w.db.refunds[r].expiresAt
              && !LeftWallet(env, w, r) && !LeavesAbove(w.db, r)
  {
    assert r in w.db.refunds ==> Refundable(w.db, w.db.refunds[r].payment);
    hide Read, SpentFromWallet, LeftWallet, LeavesAbove;
    if r in w.db.refunds {
      if SpentFromWallet(w.db, r) {
        SpentLeft(env, w, r);
      } else if LeftWallet(env, w, r) || LeavesAbove(w.db, r) {
        LeftIsSpent(env, w, r);
      }
    }
  }

  lemma RefundOverdueExactly(env: Env, w: World, r: RefundId, ref: Ref, now: Time)
    ensures Enabled(env, w, ByWorker(DecideRefund(r, RefundAwaitingFinality, now, ref))) <==>
              r in w.db.refunds && w.db.refunds[r].status == RefundCreated && w.db.refunds[r].expiresAt <= now
  {
  }

  /**
   Over the same runs: a refund can expire if and only if it is past its deadline,
   the network was read past that, no block read carries a transfer of its key out
   of the wallet it comes from, and no row above the cursor says one does.
   */
  lemma RefundExpiresTheorem(env: Env, ws: seq<World>, ss: seq<Step>, i: nat, r: RefundId, ref: Ref, now: Time)
    requires Run(env, ws, ss) && LoneRun(ws, ss) && TruthfulRun(ws, ss) && i < |ws|
    ensures var db := ws[i].db;
            Enabled(env, ws[i], ByWorker(DecideRefund(r, RefundExpired, now, ref))) <==>
              && r in db.refunds && db.refunds[r].status == RefundAwaitingFinality
              && db.cursor.Some? && db.cursor.value.time >= db.refunds[r].expiresAt
              && !LeftWallet(env, ws[i], r) && !LeavesAbove(db, r)
    ensures var db := ws[i].db;
            Enabled(env, ws[i], ByWorker(DecideRefund(r, RefundAwaitingFinality, now, ref))) <==>
              r in db.refunds && db.refunds[r].status == RefundCreated && db.refunds[r].expiresAt <= now
  {
    hide Run, LoneRun, TruthfulRun;
    ReadRun(env, ws, ss, i);
    RefundOverdueExactly(env, ws[i], r, ref, now);
    hide Read, Enabled, LeftWallet, LeavesAbove;
    RefundExpiresExactly(env, ws[i], r, ref, now);
  }
}
