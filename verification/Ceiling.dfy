/**
 What a payment's refunds hold never passes what it received, with several
 refund requests and the sweeps interleaved statement by statement.
 */
module Ceiling {
  import opened Basics
  import opened Lifecycle
  import opened Records
  import opened Tables
  import opened Chains
  import opened Reading
  import opened RowFacts
  import opened Protocol
  import opened Consistency
  import opened Reachable

  // ---- sums over refunds

  lemma {:induction false} SumTakes(refunds: map<RefundId, Refund>, ids: set<RefundId>, r: RefundId)
    requires ids <= refunds.Keys && r in ids
    ensures Sum(refunds, ids) == refunds[r].amount + Sum(refunds, ids - {r})
    decreases |ids|
  {
    var s :| s in ids && Sum(refunds, ids) == refunds[s].amount + Sum(refunds, ids - {s});
    if s != r {
      SumTakes(refunds, ids - {s}, r);
      SumTakes(refunds, ids - {r}, s);
      assert ids - {s} - {r} == ids - {r} - {s};
    }
  }

  lemma {:induction false} SumDrops(before: map<RefundId, Refund>, after: map<RefundId, Refund>, less: set<RefundId>, ids: set<RefundId>)
    requires less <= ids <= before.Keys && less <= after.Keys
    requires forall r :: r in less ==> after[r].amount == before[r].amount
    ensures Sum(after, less) <= Sum(before, ids)
    decreases |ids|
  {
    if ids != {} {
      var r :| r in ids;
      SumTakes(before, ids, r);
      SumDrops(before, after, less - {r}, ids - {r});
      if r in less {
        SumTakes(after, less, r);
      } else {
        assert less - {r} == less;
      }
    }
  }

  /** What a payment received, and nothing where nothing arrived. */
  function Arrived(db: Rows, p: PaymentId): nat {
    if p in db.payments && db.payments[p].received.Some? then db.payments[p].received.value else 0
  }

  predicate Measured(c: Call) { c.RefundMeasured? || c.RefundInserted? }

  /** A request that passed the ceiling still fits under it. */
  ghost predicate Fits(db: Rows, c: Call) {
    Measured(c) ==> Held(db, c.refund.payment) + c.refund.amount <= Arrived(db, c.refund.payment)
  }

  ghost predicate OneLock(calls: map<nat, Call>) {
    forall c, b, p :: c in calls && b in calls && calls[c].Locks(p) && calls[b].Locks(p) ==> c == b
  }

  ghost predicate UnderCeiling(db: Rows) { forall p :: Held(db, p) <= Arrived(db, p) }

  ghost predicate CeilingKept(w: World) {
    && UnderCeiling(w.db)
    && OneLock(w.calls)
    && forall c :: c in w.calls ==> Fits(w.db, w.calls[c])
  }

  // ---- what moves the sums and what does not

  lemma HeldDrops(db: Rows, d: Rows, p: PaymentId)
    requires Grows(db, d) && d.refunds.Keys == db.refunds.Keys
    ensures Held(d, p) <= Held(db, p)
  {
    forall r | r in Holding(d, p)
      ensures r in Holding(db, p) && d.refunds[r].amount == db.refunds[r].amount
    {
      assert RefundGrows(db.refunds[r], d.refunds[r]);
    }
    SumDrops(db.refunds, d.refunds, Holding(d, p), Holding(db, p));
  }

  lemma ArrivedStays(db: Rows, d: Rows, p: PaymentId)
    requires Grows(db, d) && Refundable(db, p)
    ensures Arrived(d, p) == Arrived(db, p)
  {
    assert PaymentGrows(db.payments[p], d.payments[p]);
  }

  lemma NothingHeld(db: Rows, p: PaymentId)
    requires RefundsLinked(db) && !Refundable(db, p)
    ensures Held(db, p) == 0
  {
    assert Holding(db, p) == {} by {
      assert forall r :: r in db.refunds && db.refunds[r].payment == p ==> Refundable(db, p);
    }
  }

  /** No refund comes: what is held can only fall, and what a refunded payment received stays. */
  lemma NoNewRefund(w: World, d: Rows)
    requires CeilingKept(w) && RefundsLinked(w.db) && RefundsLinked(d) && CallsLinked(w.db, w.calls)
    requires Grows(w.db, d) && d.refunds.Keys == w.db.refunds.Keys
    ensures CeilingKept(w.(db := d))
  {
    forall p ensures Held(d, p) <= Arrived(d, p) {
      HeldDrops(w.db, d, p);
      if Refundable(w.db, p) {
        ArrivedStays(w.db, d, p);
      } else {
        NothingHeld(w.db, p);
      }
    }
    forall c | c in w.calls ensures Fits(d, w.calls[c]) {
      assert Fits(w.db, w.calls[c]) && CallLinked(w.db, w.calls[c]);
      if Measured(w.calls[c]) {
        HeldDrops(w.db, d, w.calls[c].refund.payment);
        ArrivedStays(w.db, d, w.calls[c].refund.payment);
      }
    }
  }

  lemma HeldGains(db: Rows, r: RefundId, refund: Refund, p: PaymentId)
    requires r !in db.refunds
    ensures Held(db.(refunds := db.refunds[r := refund]), p)
            <= Held(db, p) + if p == refund.payment then refund.amount else 0
  {
    var d := db.(refunds := db.refunds[r := refund]);
    if p == refund.payment && refund.Holds() {
      assert Holding(d, p) == Holding(db, p) + {r};
      SumTakes(d.refunds, Holding(d, p), r);
      assert Holding(d, p) - {r} == Holding(db, p);
      SumDrops(db.refunds, d.refunds, Holding(db, p), Holding(db, p));
    } else {
      assert Holding(d, p) == Holding(db, p);
      SumDrops(db.refunds, d.refunds, Holding(d, p), Holding(db, p));
    }
  }

  /** The one holding the lock commits what it measured: nobody else measured against the same payment. */
  lemma CommitKept(w: World, c: nat)
    requires CeilingKept(w) && c in w.calls && w.calls[c].RefundInserted? && w.calls[c].id !in w.db.refunds
    ensures var d := w.db.(refunds := w.db.refunds[w.calls[c].id := w.calls[c].refund]);
            CeilingKept(Ended(w.(db := d), c))
  {
    var r, refund := w.calls[c].id, w.calls[c].refund;
    var d := w.db.(refunds := w.db.refunds[r := refund]);
    assert Fits(w.db, w.calls[c]);
    forall p ensures Held(d, p) <= Arrived(d, p) {
      HeldGains(w.db, r, refund, p);
    }
    forall b | b in w.calls && b != c ensures Fits(d, w.calls[b]) {
      assert Fits(w.db, w.calls[b]);
      if Measured(w.calls[b]) {
        assert w.calls[c].Locks(refund.payment) && w.calls[b].Locks(w.calls[b].refund.payment);
        HeldGains(w.db, r, refund, w.calls[b].refund.payment);
      }
    }
  }

  // ---- what a refund holds, from its commit to its expiry

  lemma {:induction false} SumSame(before: map<RefundId, Refund>, after: map<RefundId, Refund>, ids: set<RefundId>)
    requires ids <= before.Keys && ids <= after.Keys && forall r :: r in ids ==> after[r].amount == before[r].amount
    ensures Sum(after, ids) == Sum(before, ids)
  {
    SumDrops(before, after, ids, ids);
    SumDrops(after, before, ids, ids);
  }

  /** A refund holds its whole amount from when it is stored, against its own payment and no other. */
  lemma StoredHolds(db: Rows, r: RefundId, refund: Refund, p: PaymentId)
    requires r !in db.refunds && refund.status != RefundExpired
    ensures Held(db.(refunds := db.refunds[r := refund]), p)
            == Held(db, p) + if p == refund.payment then refund.amount else 0
  {
    var d := db.(refunds := db.refunds[r := refund]);
    if p == refund.payment {
      assert Holding(d, p) == Holding(db, p) + {r};
      SumTakes(d.refunds, Holding(d, p), r);
      assert Holding(d, p) - {r} == Holding(db, p);
    } else {
      assert Holding(d, p) == Holding(db, p);
    }
    SumSame(db.refunds, d.refunds, Holding(db, p));
  }

  /** Whatever becomes of it, it goes on holding it until it expires, and then lets all of it go. */
  lemma ExpiryReleases(db: Rows, r: RefundId, to: RefundStatus, at: nat, p: PaymentId)
    requires SaveRefund(db, r, to, at).Some? && db.refunds[r].status != RefundExpired
    ensures var row := db.refunds[r];
            Held(SaveRefund(db, r, to, at).value, p)
            == Held(db, p) - if p == row.payment && to == RefundExpired then row.amount else 0
  {
    var d, row := SaveRefund(db, r, to, at).value, db.refunds[r];
    if p == row.payment && to == RefundExpired {
      assert Holding(db, p) == Holding(d, p) + {r};
      SumTakes(db.refunds, Holding(db, p), r);
      assert Holding(db, p) - {r} == Holding(d, p);
    } else {
      assert Holding(d, p) == Holding(db, p);
    }
    SumSame(db.refunds, d.refunds, Holding(d, p));
  }

  // ---- steps

  lemma CallKept(w: World, c: nat, next: Call)
    requires CeilingKept(w) && Fits(w.db, next)
    requires forall p :: next.Locks(p) ==> forall b :: b in w.calls && w.calls[b].Locks(p) ==> b == c
    ensures CeilingKept(Went(w, c, next))
  {
  }

  lemma EndKept(w: World, c: nat)
    requires CeilingKept(w)
    ensures CeilingKept(Ended(w, c))
  {
  }

  lemma LockKept(w: World, c: nat)
    requires CeilingKept(w) && c in w.calls && w.calls[c].RefundAsked? && !Locked(w, w.calls[c].refund.payment)
    ensures CeilingKept(DoLock(w, c, w.calls[c].id, w.calls[c].refund))
  {
    EndKept(w, c);
    var refund := w.calls[c].refund;
    if refund.payment in w.db.payments && w.db.payments[refund.payment].received.Some? {
      CallKept(w, c, RefundLocked(w.calls[c].id, refund, w.db.payments[refund.payment].received.value));
    }
  }

  lemma MeasureKept(w: World, c: nat)
    requires CeilingKept(w) && c in w.calls && w.calls[c].RefundLocked? && CallLinked(w.db, w.calls[c])
    requires w.calls[c].received - Held(w.db, w.calls[c].refund.payment) >= w.calls[c].refund.amount
    ensures CeilingKept(Went(w, c, RefundMeasured(w.calls[c].id, w.calls[c].refund)))
  {
    var next := RefundMeasured(w.calls[c].id, w.calls[c].refund);
    assert forall p :: next.Locks(p) ==> w.calls[c].Locks(p);
    CallKept(w, c, next);
  }

  lemma InsertKept(w: World, c: nat)
    requires CeilingKept(w) && c in w.calls && w.calls[c].RefundMeasured?
    ensures CeilingKept(Went(w, c, RefundInserted(w.calls[c].id, w.calls[c].refund)))
  {
    var next := RefundInserted(w.calls[c].id, w.calls[c].refund);
    assert forall p :: next.Locks(p) ==> w.calls[c].Locks(p);
    assert Fits(w.db, w.calls[c]);
    CallKept(w, c, next);
  }

  predicate OfRefund(c: Call) { c.RefundAsked? || c.RefundLocked? || c.RefundMeasured? || c.RefundInserted? }

  lemma RefundCallKept(env: Env, w: World, c: nat, now: Time, id: AttemptId, key: Key)
    requires c in w.calls && OfRefund(w.calls[c]) && Runs(env, w, w.calls[c], id, key)
    requires CeilingKept(w) && CallLinked(w.db, w.calls[c])
    ensures CeilingKept(DoProceed(w, c, now, id, key))
  {
    hide CeilingKept, Held;
    EndKept(w, c);
    match w.calls[c]
    case RefundAsked(r, refund) => LockKept(w, c);
    case RefundLocked(r, refund, received) =>
      if received - Held(w.db, refund.payment) >= refund.amount {
        MeasureKept(w, c);
      }
    case RefundMeasured(r, refund) => InsertKept(w, c);
    case RefundInserted(r, refund) => CommitKept(w, c);
  }

  lemma OtherCallKept(env: Env, w: World, c: nat, now: Time, id: AttemptId, key: Key)
    requires c in w.calls && !OfRefund(w.calls[c]) && Runs(env, w, w.calls[c], id, key)
    requires var v := DoProceed(w, c, now, id, key); CeilingKept(w.(db := v.db))
    ensures CeilingKept(DoProceed(w, c, now, id, key))
  {
    hide CeilingKept, Held, IssueAttempt, SaveAttempt;
    var v := DoProceed(w, c, now, id, key);
    var u := w.(db := v.db);
    EndKept(u, c);
    if c in v.calls {
      CallKeptOther(u, c, v.calls[c]);
    }
  }

  lemma CallKeptOther(w: World, c: nat, next: Call)
    requires CeilingKept(w) && !OfRefund(next)
    ensures CeilingKept(Went(w, c, next))
  {
    CallKept(w, c, next);
  }

  lemma ProceedRefunds(w: World, c: nat, now: Time, id: AttemptId, key: Key)
    requires c in w.calls && !OfRefund(w.calls[c])
    ensures DoProceed(w, c, now, id, key).db.refunds == w.db.refunds
  {
  }

  lemma RequestKept(env: Env, w: World, m: RequestMove)
    requires RequestMoves(env, w, m) && Consistent(w) && CeilingKept(w)
    ensures CeilingKept(AfterRequest(env, w, m))
  {
    hide CeilingKept, Held;
    var v := AfterRequest(env, w, m);
    assert m.Proceed? ==> CallLinked(w.db, w.calls[m.call]);
    if m.Proceed? && OfRefund(w.calls[m.call]) {
      RefundCallKept(env, w, m.call, m.now, m.id, m.key);
    } else {
      RequestRows(env, w, m);
      if m.Proceed? {
        ProceedRefunds(w, m.call, m.now, m.id, m.key);
      }
      NoNewRefund(w, v.db);
      RequestEnds(env, w, m);
    }
  }

  lemma RequestEnds(env: Env, w: World, m: RequestMove)
    requires RequestMoves(env, w, m) && !(m.Proceed? && OfRefund(w.calls[m.call]))
    requires CeilingKept(w.(db := AfterRequest(env, w, m).db))
    ensures CeilingKept(AfterRequest(env, w, m))
  {
    hide CeilingKept, Held;
    var u := w.(db := AfterRequest(env, w, m).db);
    match m
    case AskIssue(c, p) => CallKeptOther(u, c, IssueFound(p, w.db.payments[p].expiresAt));
    case AskSupersede(c, p, a) => CallKeptOther(u, c, SupersedeFound(p, a));
    case AskRefund(c, p, r, amount, to, key, now) => AskKept(u, c, AfterRequest(env, w, m).calls[c]);
    case Proceed(c, now, id, key) => OtherCallKept(env, w, c, now, id, key);
    case Abandon(c) => EndKept(u, c);
    case Open(p, row) =>
  }

  lemma AskKept(w: World, c: nat, next: Call)
    requires CeilingKept(w) && next.RefundAsked?
    ensures CeilingKept(Went(w, c, next))
  {
    CallKept(w, c, next);
  }

  lemma WorkerKept(w: World, m: WorkerMove)
    requires WorkerMoves(w, m) && Consistent(w) && CeilingKept(w)
    ensures CeilingKept(AfterWorker(w, m))
  {
    hide CeilingKept, Held;
    WorkerGrows(w, m);
    WorkerRows(w, m);
    WorkerRefundKeys(w, m);
    NoNewRefund(w, AfterWorker(w, m).db);
    SameCalls(w, AfterWorker(w, m));
  }

  lemma WorkerRefundKeys(w: World, m: WorkerMove)
    requires WorkerMoves(w, m)
    ensures AfterWorker(w, m).db.refunds.Keys == w.db.refunds.Keys && AfterWorker(w, m).calls == w.calls
  {
    hide Grounds, RefundGrounds;
  }

  lemma SameCalls(w: World, v: World)
    requires CeilingKept(w.(db := v.db)) && v.calls == w.calls
    ensures CeilingKept(v)
  {
  }

  lemma WriteRefunds(w: World, i: nat)
    requires Reads(w, i) && w.rounds[i].work.Receiving? && WorkLinked(w.db, w.rounds[i].work)
    ensures DoWrite(w, i).db.refunds == w.db.refunds && DoWrite(w, i).calls == w.calls
  {
    var r, work := w.rounds[i], w.rounds[i].work;
    LinkedIsCurrent(w.db, work.seen);
    hide WorkLinked;
    if Record(w.db, r.first, r.last, r.Settling?, work.seen, work.sent).Some? {
      RecordKeeps(w.db, r.first, r.last, r.Settling?, work.seen, work.sent);
    }
    hide Record;
  }

  lemma ObserverRefunds(env: Env, w: World, m: ObserverMove)
    requires ObserverMoves(w, m) && RoundsLinked(w.db, w.rounds)
    ensures AfterObserver(env, w, m).db.refunds == w.db.refunds && AfterObserver(env, w, m).calls == w.calls
  {
    hide DoWrite, BeginRound, KeysIn, Against, Backs, Transactions, Find, SeenIn, SentIn;
    if m.Write? {
      assert RoundLinked(w.db, w.rounds[m.observer]);
      WriteRefunds(w, m.observer);
    }
  }

  lemma ObserverKept(env: Env, w: World, m: ObserverMove)
    requires ObserverMoves(w, m) && Consistent(w) && CeilingKept(w)
    ensures CeilingKept(AfterObserver(env, w, m))
  {
    hide CeilingKept, Held;
    ObserverGrows(env, w, m);
    ObserverRows(env, w, m);
    ObserverRefunds(env, w, m);
    NoNewRefund(w, AfterObserver(env, w, m).db);
    SameCalls(w, AfterObserver(env, w, m));
  }

  lemma CeilingStep(env: Env, w: World, s: Step, v: World)
    requires Next(env, w, s, v) && Consistent(w) && CeilingKept(w)
    ensures CeilingKept(v)
  {
    hide CeilingKept, Consistent, AfterWorker, AfterRequest, AfterObserver;
    match s
    case ByChain(m) => SameCalls(w, v);
    case ByWorker(m) => WorkerKept(w, m);
    case ByRequest(m) => RequestKept(env, w, m);
    case ByObserver(m) => ObserverKept(env, w, m);
  }

  lemma {:induction false} CeilingRun(env: Env, ws: seq<World>, ss: seq<Step>, i: nat)
    requires Run(env, ws, ss) && i < |ws|
    ensures CeilingKept(ws[i])
  {
    if i > 0 {
      hide Next;
      CeilingRun(env, ws, ss, i - 1);
      ConsistentRun(env, ws, ss, i - 1);
      CeilingStep(env, ws[i - 1], ss[i - 1], ws[i]);
    } else {
      forall p ensures Held(ws[0].db, p) == 0 {
        assert Holding(ws[0].db, p) == {};
      }
    }
  }

  /** Over any run: the refunds of a payment that have not expired sum to at most what it received. */
  lemma CeilingTheorem(env: Env, ws: seq<World>, ss: seq<Step>, i: nat, p: PaymentId)
    requires Run(env, ws, ss) && i < |ws|
    ensures Held(ws[i].db, p) <= Arrived(ws[i].db, p)
    ensures Holding(ws[i].db, p) != {} ==> Refundable(ws[i].db, p)
  {
    hide Next;
    CeilingRun(env, ws, ss, i);
    ConsistentRun(env, ws, ss, i);
  }
}
