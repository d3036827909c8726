/** What every reachable world's statuses say of the final chain. */
module Outcomes {
  import opened Basics
  import opened Lifecycle
  import opened Records
  import opened Evidence
  import opened Tables
  import opened Chains
  import opened Reading
  import opened RowFacts
  import opened Protocol
  import opened Consistency
  import opened Reachable
  import opened Index
  import opened Indexing
  import opened Observing
  import opened Writing
  import opened IndexAgrees
  import opened Settlement

  // ---- what a worker's grounds are worth

  /** A final matched row of an open payment is a transfer the final chain carries. */
  lemma CandidatePaid(env: Env, w: World, p: PaymentId, ref: Ref)
    requires Indexed(env, w) && RowsLinked(w.db) && Candidate(w.db, p, ref)
    ensures PaidOn(env, w.chain, w.db, p)
  {
    hide RowsWhole, RoundsTrue, Watching, RowsSound, ChainTrue;
    var o := w.db.observations[ref];
    assert RowTrue(env, w.chain, w.db.cursor, ref, o);
    assert RowLinked(w.db, ref, o);
    NotOfRefund(w.db, ref);
    assert PaysIn(env, w.chain, w.db, p, o.against.attempt, o.place.height, ref.tx, o.transfer);
  }

  /** Only a payment that succeeded has refunds. */
  lemma NotOfRefund(db: Rows, ref: Ref)
    requires RowsLinked(db) && ref in db.observations
    requires db.observations[ref].payment in db.payments && db.payments[db.observations[ref].payment].status != Succeeded
    ensures db.observations[ref].against.ForAttempt?
  {
    assert RowLinked(db, ref, db.observations[ref]);
    if db.observations[ref].against.ForRefund? {
      RefundOfPaid(db, db.observations[ref].against.refund);
    }
  }

  lemma RefundOfPaid(db: Rows, r: RefundId)
    requires RefundsLinked(db) && r in db.refunds
    ensures db.refunds[r].payment in db.payments && db.payments[db.refunds[r].payment].status == Succeeded
  {
  }

  lemma CarriedRow(env: Env, w: World, h: nat, x: Tx, t: Transfer)
    requires Indexed(env, w) && RowsLinked(w.db) && FinalStands(w.db.observations)
    requires On(w.chain, h, x) && ReadTo(w.db.cursor, h) && Owed(env, x, t) && IssuedKey(w.db, t.key)
    ensures var ref := Ref(t.key, x);
            && ref in w.db.observations && Stands(w.db.observations[ref])
            && w.db.observations[ref].transfer == t && w.db.observations[ref].place == PlaceAt(w.chain, h)
            && w.db.observations[ref].final && RowLinked(w.db, ref, w.db.observations[ref])
  {
    hide RoundsTrue, Watching, RowsSound;
    assert HasFinal(w.db, Ref(t.key, x));
    RecordedIsCarried(env, w.chain, w.db, h, x, t);
    assert RowLinked(w.db, Ref(t.key, x), w.db.observations[Ref(t.key, x)]);
  }

  /** A transfer that pays an open payment, in a block read, has its matched row, and that is final. */
  lemma PayingIsMatched(env: Env, w: World, p: PaymentId, a: AttemptId, h: nat, x: Tx, t: Transfer)
    requires Indexed(env, w) && RowsLinked(w.db) && FinalStands(w.db.observations)
    requires PaysIn(env, w.chain, w.db, p, a, h, x, t) && ReadTo(w.db.cursor, h) && w.db.payments[p].Open()
    ensures var ref := Ref(t.key, x);
            && ref in w.db.observations && w.db.observations[ref].payment == p
            && w.db.observations[ref].reason == Matched && w.db.observations[ref].final
    ensures MatchedAgainst(w.db, p)
  {
    assert RowsSound(env, w.db);
    assert Owed(env, x, t);
    assert HoldsAttempt(w.db, a, t.key);
    CarriedRow(env, w, h, x, t);
    hide Indexed, FinalStands, ObservationsLinked, RowsSound;
    var o := w.db.observations[Ref(t.key, x)];
    NotOfOther(w.db, a, Ref(t.key, x));
    assert o.reason == Matched && o.payment == p;
  }

  /** A row of an attempt's key stands against that attempt. */
  lemma NotOfOther(db: Rows, a: AttemptId, ref: Ref)
    requires AttemptsLinked(db) && RefundsLinked(db) && ref in db.observations && RowLinked(db, ref, db.observations[ref])
    requires a in db.attempts && db.attempts[a].key == ref.key
    ensures db.observations[ref].against == ForAttempt(a)
  {
  }

  lemma UnsettledNeverPaid(env: Env, w: World, p: PaymentId)
    requires Indexed(env, w) && RowsLinked(w.db) && FinalStands(w.db.observations) && Unsettled(w.db, p)
    ensures NeverPaid(env, w.chain, w.db, p)
  {
    forall a, h, x, t ensures !PaysIn(env, w.chain, w.db, p, a, h, x, t) {
      if PaysIn(env, w.chain, w.db, p, a, h, x, t) {
        hide Indexed, FinalStands, RowsLinked;
        LateBlocksPayNothing(env, w, p, a, h, x, t);
        PayingIsMatched(env, w, p, a, h, x, t);
      }
    }
  }

  /** A transfer that settles a refund, in a block read, has its row, out of the wallet the refund comes from. */
  lemma SettlingIsSpent(env: Env, w: World, r: RefundId, h: nat, x: Tx, t: Transfer)
    requires Indexed(env, w) && RowsLinked(w.db) && FinalStands(w.db.observations)
    requires SettlesIn(env, w.chain, w.db, r, h, x, t) && ReadTo(w.db.cursor, h)
    ensures SpentFromWallet(w.db, r)
  {
    JudgeRefundMeaning(t, w.chain.blocks[h].time, w.db.refunds[r], w.db.payments[w.db.refunds[r].payment]);
    assert RowsSound(env, w.db);
    assert Owed(env, x, t);
    assert HoldsRefund(w.db, r, t.key);
    CarriedRow(env, w, h, x, t);
    hide Indexed, FinalStands, ObservationsLinked, RowsSound;
    NotOfAnother(w.db, r, Ref(t.key, x));
    assert Ref(t.key, x) in w.db.observations;
  }

  lemma NotOfAnother(db: Rows, r: RefundId, ref: Ref)
    requires AttemptsLinked(db) && RefundsLinked(db) && ref in db.observations && RowLinked(db, ref, db.observations[ref])
    requires r in db.refunds && db.refunds[r].key == ref.key
    ensures db.observations[ref].against == ForRefund(r) && db.observations[ref].payment == db.refunds[r].payment
  {
  }

  lemma UnsettledNeverSent(env: Env, w: World, r: RefundId)
    requires Indexed(env, w) && RowsLinked(w.db) && FinalStands(w.db.observations) && UnsettledRefund(w.db, r)
    ensures NeverSent(env, w.chain, w.db, r)
  {
    forall h, x, t ensures !SettlesIn(env, w.chain, w.db, r, h, x, t) {
      if SettlesIn(env, w.chain, w.db, r, h, x, t) {
        hide Indexed, FinalStands, RowsLinked;
        LateBlocksSettleNothing(env, w, r, h, x, t);
        SettlingIsSpent(env, w, r, h, x, t);
      }
    }
  }

  // ---- where a status comes from

  /** A payment has the status it had, the one a decision saved, or is new. */
  lemma StatusFrom(env: Env, w: World, s: Step, v: World, p: PaymentId)
    requires Next(env, w, s, v) && Consistent(w) && p in v.db.payments
    ensures
      || (p in w.db.payments && v.db.payments[p].status == w.db.payments[p].status)
      || v.db.payments[p].status == Created
      || (exists d :: d in w.decisions && d.id == p && d.moved.status == v.db.payments[p].status && p in w.db.payments)
  {
    match s
    case ByChain(m) =>
    case ByWorker(m) => WorkerStatus(w, m, p);
    case ByRequest(m) => RequestStatus(env, w, m, p);
    case ByObserver(m) =>
      LinkedRounds(w);
      ObserverKeys(env, w, m);
  }

  lemma WorkerStatus(w: World, m: WorkerMove, p: PaymentId)
    requires WorkerMoves(w, m) && p in AfterWorker(w, m).db.payments
    ensures p in w.db.payments
    ensures AfterWorker(w, m).db.payments[p].status == w.db.payments[p].status
            || (m.Save? && m.decision in w.decisions && m.decision.id == p
                && AfterWorker(w, m).db.payments[p].status == m.decision.moved.status)
  {
    hide Grounds, RefundGrounds;
    if m.GiveUpOn? {
      LoseKeeps(w.db, {m.ref});
      if GiveUp(w.db, m.ref) != w.db {
        hide Lose;
        assert OnlyReceived(w.db.payments[p], AfterWorker(w, m).db.payments[p]);
      }
    }
  }

  lemma RequestStatus(env: Env, w: World, m: RequestMove, p: PaymentId)
    requires RequestMoves(env, w, m) && Consistent(w) && p in AfterRequest(env, w, m).db.payments
    ensures AfterRequest(env, w, m).db.payments[p].status == Created
            || (p in w.db.payments && AfterRequest(env, w, m).db.payments[p] == w.db.payments[p])
  {
    if m.Proceed? {
      hide DoProceed, Runs;
      CallIsLinked(w, m.call);
      ProceedRows(env, w, m.call, m.now, m.id, m.key);
    }
  }

  /** A decision was there, or was just made on its grounds. */
  lemma DecisionFrom(env: Env, w: World, s: Step, v: World, d: Decision)
    requires Next(env, w, s, v) && d in v.decisions
    ensures d in w.decisions || exists ref, now :: d.id in w.db.payments && Grounds(w.db, d.id, d.moved.status, now, ref)
  {
    hide Grounds, RefundGrounds, DoProceed, DoWrite, DoLook, DoReceipt, DoScan;
    match s
    case ByChain(m) =>
    case ByWorker(m) =>
      if m.Decide? {
        MovedRight(w.db.payments[m.payment], m.to, m.now);
      }
    case ByRequest(m) => RequestLeaves(env, w, m);
    case ByObserver(m) => ObserverLeaves(env, w, m);
  }

  lemma ReturnFrom(env: Env, w: World, s: Step, v: World, d: Return)
    requires Next(env, w, s, v) && d in v.returning
    ensures d in w.returning || exists ref, now :: d.id in w.db.refunds && RefundGrounds(w.db, d.id, d.to, now, ref)
  {
    hide Grounds, RefundGrounds, DoProceed, DoWrite, DoLook, DoReceipt, DoScan;
    match s
    case ByChain(m) =>
    case ByWorker(m) =>
    case ByRequest(m) => RequestLeaves(env, w, m);
    case ByObserver(m) => ObserverLeaves(env, w, m);
  }

  /** A refund has the status it had, the one a decision saved, or is new. */
  lemma RefundFrom(env: Env, w: World, s: Step, v: World, r: RefundId)
    requires Next(env, w, s, v) && Consistent(w) && CallsSound(w.calls) && r in v.db.refunds
    ensures
      || (r in w.db.refunds && v.db.refunds[r].status == w.db.refunds[r].status)
      || v.db.refunds[r].status == RefundCreated
      || (exists d :: d in w.returning && d.id == r && d.to == v.db.refunds[r].status)
  {
    match s
    case ByChain(m) =>
    case ByWorker(m) => WorkerRefundStatus(w, m, r);
    case ByRequest(m) => RequestRefundStatus(env, w, m, r);
    case ByObserver(m) =>
      LinkedRounds(w);
      ObserverRefundStatus(env, w, m);
  }

  lemma WorkerRefundStatus(w: World, m: WorkerMove, r: RefundId)
    requires WorkerMoves(w, m) && r in AfterWorker(w, m).db.refunds
    ensures
      || (r in w.db.refunds && AfterWorker(w, m).db.refunds[r].status == w.db.refunds[r].status)
      || (exists d :: d in w.returning && d.id == r && d.to == AfterWorker(w, m).db.refunds[r].status)
  {
    hide Grounds, RefundGrounds;
    if m.GiveUpOn? {
      LoseKeeps(w.db, {m.ref});
    }
  }

  lemma RequestRefundStatus(env: Env, w: World, m: RequestMove, r: RefundId)
    requires RequestMoves(env, w, m) && CallsSound(w.calls) && r in AfterRequest(env, w, m).db.refunds
    ensures
      || (r in w.db.refunds && AfterRequest(env, w, m).db.refunds[r].status == w.db.refunds[r].status)
      || AfterRequest(env, w, m).db.refunds[r].status == RefundCreated
  {
    hide Held, HasLive, FreshKey;
    assert m.Proceed? ==> CallSound(w.calls[m.call]);
  }

  lemma ObserverRefundStatus(env: Env, w: World, m: ObserverMove)
    requires ObserverMoves(w, m) && RoundsLinked(w.db, w.rounds)
    ensures AfterObserver(env, w, m).db.refunds == w.db.refunds
  {
    if m.Write? {
      hide RoundsLinked, WorkLinked, DoWrite;
      RoundWork(w, m.observer);
      var d := Wrote(w, m.observer);
    }
  }

  // ---- success is sound

  ghost predicate SuccessTrue(env: Env, w: World) {
    && (forall p :: p in w.db.payments && w.db.payments[p].status == Succeeded ==> PaidOn(env, w.chain, w.db, p))
    && (forall d :: d in w.decisions && d.moved.status == Succeeded ==> PaidOn(env, w.chain, w.db, d.id))
  }

  lemma SuccessStep(env: Env, w: World, s: Step, v: World)
    requires Next(env, w, s, v) && Lone(w, s) && Consistent(w) && Indexed(env, w) && SuccessTrue(env, w)
    ensures SuccessTrue(env, v)
  {
    hide Next, Lone, Consistent, Indexed, PaidOn, Stepped;
    StepForward(env, w, s, v);
    forall p | p in v.db.payments && v.db.payments[p].status == Succeeded ensures PaidOn(env, v.chain, v.db, p) {
      StatusFrom(env, w, s, v, p);
      PaidStays(env, w, v, p);
    }
    forall d | d in v.decisions && d.moved.status == Succeeded ensures PaidOn(env, v.chain, v.db, d.id) {
      DecisionFrom(env, w, s, v, d);
      if d !in w.decisions {
        var ref, now :| Grounds(w.db, d.id, d.moved.status, now, ref);
        LinkedRows(w);
        CandidatePaid(env, w, d.id, ref);
      }
      PaidStays(env, w, v, d.id);
    }
  }

  lemma {:induction false} SuccessRun(env: Env, ws: seq<World>, ss: seq<Step>, i: nat)
    requires Run(env, ws, ss) && LoneRun(ws, ss) && i < |ws|
    ensures SuccessTrue(env, ws[i])
  {
    hide Next, Lone;
    if i > 0 {
      SuccessRun(env, ws, ss, i - 1);
      IndexedRun(env, ws, ss, i - 1);
      ConsistentRun(env, ws, ss, i - 1);
      SuccessStep(env, ws[i - 1], ss[i - 1], ws[i]);
    }
  }

  /** A payment that succeeded stays so, with what it received, over the rest of the run. */
  lemma {:induction false} SuccessLasts(env: Env, ws: seq<World>, ss: seq<Step>, i: nat, j: nat, p: PaymentId)
    requires Run(env, ws, ss) && LoneRun(ws, ss) && i <= j < |ws|
    requires p in ws[i].db.payments && ws[i].db.payments[p].status == Succeeded
    ensures p in ws[j].db.payments && ws[j].db.payments[p].status == Succeeded
    ensures ws[j].db.payments[p].received == ws[i].db.payments[p].received
    ensures ws[j].db.payments[p].amount == ws[i].db.payments[p].amount
    decreases j
  {
    hide Next, Lone, Indexed, Consistent;
    if i < j {
      SuccessLasts(env, ws, ss, i, j - 1, p);
      IndexedRun(env, ws, ss, j - 1);
      ConsistentRun(env, ws, ss, j - 1);
      StepForward(env, ws[j - 1], ss[j - 1], ws[j]);
      assert PaymentGrows(ws[j - 1].db.payments[p], ws[j].db.payments[p]);
    }
  }

  lemma CoveredIn(w: World, p: PaymentId)
    requires Consistent(w) && p in w.db.payments && w.db.payments[p].status == Succeeded
    ensures w.db.payments[p].Covered()
  {
  }

  /**
   Over every run in which one observer reads at a time, whatever the endpoints
   answered: a payment that is succeeded was paid, in a block of the final chain,
   by a transfer the rules match to one of its attempts; what it received is at
   least its amount, and stays what it is.
   */
  lemma SuccessTheorem(env: Env, ws: seq<World>, ss: seq<Step>, i: nat, j: nat, p: PaymentId)
    requires Run(env, ws, ss) && LoneRun(ws, ss) && i <= j < |ws|
    requires p in ws[i].db.payments && ws[i].db.payments[p].status == Succeeded
    ensures PaidOn(env, ws[i].chain, ws[i].db, p)
    ensures ws[i].db.payments[p].received.Some? && ws[i].db.payments[p].received.value >= ws[i].db.payments[p].amount
    ensures p in ws[j].db.payments && ws[j].db.payments[p].status == Succeeded
    ensures ws[j].db.payments[p].received == ws[i].db.payments[p].received
  {
    hide Next, Lone, Consistent, Run, LoneRun, PaidOn;
    SuccessRun(env, ws, ss, i);
    SuccessLasts(env, ws, ss, i, j, p);
    ConsistentRun(env, ws, ss, i);
    CoveredIn(ws[i], p);
  }

  // ---- what expired was never paid, and never sent

  ghost predicate ExpiryTrue(env: Env, w: World) {
    && (forall p :: p in w.db.payments && w.db.payments[p].status == Expired ==> NeverPaid(env, w.chain, w.db, p))
    && (forall d :: d in w.decisions && d.moved.status == Expired ==> NeverPaid(env, w.chain, w.db, d.id))
  }

  ghost predicate ReturnsTrue(env: Env, w: World) {
    && (forall r :: r in w.db.refunds && w.db.refunds[r].status == RefundExpired ==> NeverSent(env, w.chain, w.db, r))
    && (forall d :: d in w.returning && d.to == RefundExpired ==> NeverSent(env, w.chain, w.db, d.id))
  }

  lemma ExpiryStep(env: Env, w: World, s: Step, v: World)
    requires Next(env, w, s, v) && Lone(w, s) && Consistent(w) && Consistent(v) && Indexed(env, w) && Indexed(env, v)
    requires FinalStands(w.db.observations) && ExpiryTrue(env, w)
    ensures ExpiryTrue(env, v)
  {
    hide Next, Lone, Consistent, Indexed, NeverPaid, Stepped, FinalStands, RowsLinked;
    StepForward(env, w, s, v);
    LinkedRows(w);
    LinkedRows(v);
    forall p | p in v.db.payments && v.db.payments[p].status == Expired ensures NeverPaid(env, v.chain, v.db, p) {
      StatusFrom(env, w, s, v, p);
      NeverPaidStays(env, w, v, p);
    }
    forall d | d in v.decisions && d.moved.status == Expired ensures NeverPaid(env, v.chain, v.db, d.id) {
      DecisionFrom(env, w, s, v, d);
      if d !in w.decisions {
        UnsettledNeverPaid(env, w, d.id);
      }
      NeverPaidStays(env, w, v, d.id);
    }
  }

  lemma ReturnsStep(env: Env, w: World, s: Step, v: World)
    requires Next(env, w, s, v) && Lone(w, s) && Consistent(w) && Consistent(v) && Indexed(env, w) && Indexed(env, v)
    requires FinalStands(w.db.observations) && ReturnsTrue(env, w)
    ensures ReturnsTrue(env, v)
  {
    hide Next, Lone, Consistent, Indexed, NeverSent, Stepped, FinalStands, RowsLinked;
    StepForward(env, w, s, v);
    LinkedRows(w);
    LinkedRows(v);
    CallsAreSound(env, w);
    forall r | r in v.db.refunds && v.db.refunds[r].status == RefundExpired ensures NeverSent(env, v.chain, v.db, r) {
      RefundFrom(env, w, s, v, r);
      NeverSentStays(env, w, v, r);
    }
    forall d | d in v.returning && d.to == RefundExpired ensures NeverSent(env, v.chain, v.db, d.id) {
      ReturnFrom(env, w, s, v, d);
      if d !in w.returning {
        UnsettledNeverSent(env, w, d.id);
      }
      NeverSentStays(env, w, v, d.id);
    }
  }

  lemma {:induction false} ExpiryRun(env: Env, ws: seq<World>, ss: seq<Step>, i: nat)
    requires Run(env, ws, ss) && LoneRun(ws, ss) && TruthfulRun(ws, ss) && i < |ws|
    ensures ExpiryTrue(env, ws[i]) && ReturnsTrue(env, ws[i])
  {
    hide Next, Lone, Truthful, NeverPaid, NeverSent, Indexed, Consistent, FinalStands;
    if i > 0 {
      ExpiryRun(env, ws, ss, i - 1);
      IndexedRun(env, ws, ss, i - 1);
      IndexedRun(env, ws, ss, i);
      StandsRun(env, ws, ss, i - 1);
      ConsistentRun(env, ws, ss, i - 1);
      ConsistentRun(env, ws, ss, i);
      hide ExpiryTrue, ReturnsTrue;
      ExpiryStep(env, ws[i - 1], ss[i - 1], ws[i]);
      ReturnsStep(env, ws[i - 1], ss[i - 1], ws[i]);
    }
  }

  /**
   Over every run in which one observer reads at a time and nothing on the final
   chain is given up on: an expired payment was paid by no block there is, and
   none there will be, because the network was read past its deadline.
   */
  lemma ExpiryTheorem(env: Env, ws: seq<World>, ss: seq<Step>, i: nat, p: PaymentId, a: AttemptId, h: nat, x: Tx, t: Transfer)
    requires Run(env, ws, ss) && LoneRun(ws, ss) && TruthfulRun(ws, ss) && i < |ws|
    requires p in ws[i].db.payments && ws[i].db.payments[p].status == Expired
    ensures !PaysIn(env, ws[i].chain, ws[i].db, p, a, h, x, t)
    ensures ReadPast(ws[i].db, ws[i].db.payments[p].expiresAt)
  {
    hide Next, Lone, Truthful;
    ExpiryRun(env, ws, ss, i);
    assert NeverPaid(env, ws[i].chain, ws[i].db, p);
  }
}
