/** What the clock decided, over every run: nothing stops being payable or signable early, and nothing is issued late. */
module Clocks {
  import opened Basics
  import opened Lifecycle
  import opened Records
  import opened Evidence
  import opened Tables
  import opened Chains
  import opened Reading
  import opened RowFacts
  import opened Protocol
  import opened Consistency
  import opened Reachable
  import opened Index
  import opened Indexing
  import opened Observing
  import opened Writing
  import opened Settlement
  import opened Outcomes
  import opened Arrivals
  import opened Lifetimes
  import opened Announced

  // ---- payments

  /** Before a step of the run, somebody whose clock had reached a deadline decided that a payment waits for finality. */
  ghost predicate WaitsSince(ss: seq<Step>, i: nat, p: PaymentId, deadline: Time) {
    exists k, now, ref ::
      0 <= k < i && k < |ss| && ss[k] == ByWorker(Decide(p, AwaitingFinality, now, ref)) && deadline <= now
  }

  predicate Waited(s: Status) { s == AwaitingFinality || s == Expired }

  ghost predicate WaitsTrue(w: World, ss: seq<Step>, i: nat) {
    && (forall p :: p in w.db.payments && Waited(w.db.payments[p].status) ==> WaitsSince(ss, i, p, w.db.payments[p].expiresAt))
    && (forall d :: d in w.decisions && d.moved.status == AwaitingFinality ==>
          d.id in w.db.payments && WaitsSince(ss, i, d.id, w.db.payments[d.id].expiresAt))
  }

  lemma StillSince(ss: seq<Step>, i: nat, p: PaymentId, deadline: Time)
    ensures WaitsSince(ss, i, p, deadline) ==> WaitsSince(ss, i + 1, p, deadline)
  {
  }

  /** A decision that a payment waits was made before, or just now by a clock that had reached its deadline. */
  lemma WaitingFrom(env: Env, w: World, s: Step, v: World, d: Decision)
    requires Next(env, w, s, v) && d in v.decisions && d.moved.status == AwaitingFinality
    ensures d in w.decisions || exists now, ref ::
              s == ByWorker(Decide(d.id, AwaitingFinality, now, ref)) && d.id in w.db.payments
              && w.db.payments[d.id].expiresAt <= now
  {
    hide Grounds, RefundGrounds, DoProceed, DoWrite, DoLook, DoReceipt, DoScan;
    match s
    case ByChain(m) =>
    case ByWorker(m) =>
      if m.Decide? {
        MovedRight(w.db.payments[m.payment], m.to, m.now);
      }
    case ByRequest(m) => RequestLeaves(env, w, m);
    case ByObserver(m) => ObserverLeaves(env, w, m);
  }

  lemma WaitsStep(env: Env, w: World, s: Step, v: World, ss: seq<Step>, i: nat)
    requires Next(env, w, s, v) && Consistent(w) && WaitsTrue(w, ss, i) && i < |ss| && ss[i] == s
    ensures WaitsTrue(v, ss, i + 1)
  {
    hide Next, Consistent, WaitsSince, Grows;
    GrowsStep(env, w, s, v);
    GrowsIsLater(w.db, v.db);
    forall d | d in v.decisions && d.moved.status == AwaitingFinality
      ensures d.id in v.db.payments && WaitsSince(ss, i + 1, d.id, v.db.payments[d.id].expiresAt)
    {
      WaitingFrom(env, w, s, v, d);
      if d in w.decisions {
        StillSince(ss, i, d.id, w.db.payments[d.id].expiresAt);
      } else {
        var now, ref :| s == ByWorker(Decide(d.id, AwaitingFinality, now, ref)) && w.db.payments[d.id].expiresAt <= now;
        JustDecided(ss, i, d.id, now, ref, w.db.payments[d.id].expiresAt);
      }
    }
    forall p | p in v.db.payments && Waited(v.db.payments[p].status)
      ensures WaitsSince(ss, i + 1, p, v.db.payments[p].expiresAt)
    {
      StatusFrom(env, w, s, v, p);
      PaymentOnward(w.db, v.db, p);
      StillSince(ss, i, p, w.db.payments[p].expiresAt);
    }
  }

  lemma PaymentOnward(db: Rows, d: Rows, p: PaymentId)
    requires Grows(db, d) && p in db.payments
    ensures p in d.payments && d.payments[p].expiresAt == db.payments[p].expiresAt
    ensures d.payments[p].status == Expired ==> Waited(db.payments[p].status)
  {
    assert PaymentGrows(db.payments[p], d.payments[p]);
  }

  lemma JustDecided(ss: seq<Step>, i: nat, p: PaymentId, now: Time, ref: Ref, deadline: Time)
    requires i < |ss| && ss[i] == ByWorker(Decide(p, AwaitingFinality, now, ref)) && deadline <= now
    ensures WaitsSince(ss, i + 1, p, deadline)
  {
  }

  lemma {:induction false} WaitsRun(env: Env, ws: seq<World>, ss: seq<Step>, i: nat)
    requires Run(env, ws, ss) && i < |ws|
    ensures WaitsTrue(ws[i], ss, i)
  {
    if i > 0 {
      hide Next, WaitsTrue, Consistent, Initial;
      WaitsRun(env, ws, ss, i - 1);
      ConsistentRun(env, ws, ss, i - 1);
      assert Next(env, ws[i - 1], ss[i - 1], ws[i]);
      hide Run;
      WaitsStep(env, ws[i - 1], ss[i - 1], ws[i], ss, i - 1);
    }
  }

  /**
   Over every run: a payment that waits for finality, or has expired, stopped being
   payable on the word of a clock that had reached its deadline.
   */
  lemma PayableTheorem(env: Env, ws: seq<World>, ss: seq<Step>, i: nat, p: PaymentId)
    requires Run(env, ws, ss) && i < |ws| && p in ws[i].db.payments
    requires ws[i].db.payments[p].status == AwaitingFinality || ws[i].db.payments[p].status == Expired
    ensures exists k, now, ref ::
              0 <= k < i && k < |ss| && ss[k] == ByWorker(Decide(p, AwaitingFinality, now, ref))
              && ws[i].db.payments[p].expiresAt <= now
  {
    hide Run;
    WaitsRun(env, ws, ss, i);
    assert WaitsSince(ss, i, p, ws[i].db.payments[p].expiresAt);
  }

  // ---- refunds

  ghost predicate SignableUntil(ss: seq<Step>, i: nat, r: RefundId, deadline: Time) {
    exists k, now, ref ::
      0 <= k < i && k < |ss| && ss[k] == ByWorker(DecideRefund(r, RefundAwaitingFinality, now, ref)) && deadline <= now
  }

  predicate Ended(s: RefundStatus) { s == RefundAwaitingFinality || s == RefundExpired }

  ghost predicate RefundsWait(w: World, ss: seq<Step>, i: nat) {
    && (forall r :: r in w.db.refunds && Ended(w.db.refunds[r].status) ==> SignableUntil(ss, i, r, w.db.refunds[r].expiresAt))
    && (forall d :: d in w.returning && d.to == RefundAwaitingFinality ==>
          d.id in w.db.refunds && SignableUntil(ss, i, d.id, w.db.refunds[d.id].expiresAt))
  }

  lemma StillSignable(ss: seq<Step>, i: nat, r: RefundId, deadline: Time)
    ensures SignableUntil(ss, i, r, deadline) ==> SignableUntil(ss, i + 1, r, deadline)
  {
  }

  lemma ReturningFrom(env: Env, w: World, s: Step, v: World, d: Return)
    requires Next(env, w, s, v) && d in v.returning && d.to == RefundAwaitingFinality
    ensures d in w.returning || exists now, ref ::
              s == ByWorker(DecideRefund(d.id, RefundAwaitingFinality, now, ref)) && d.id in w.db.refunds
              && w.db.refunds[d.id].expiresAt <= now
  {
    hide Grounds, DoProceed, DoWrite, DoLook, DoReceipt, DoScan;
    match s
    case ByChain(m) =>
    case ByWorker(m) =>
    case ByRequest(m) => RequestLeaves(env, w, m);
    case ByObserver(m) => ObserverLeaves(env, w, m);
  }

  lemma RefundOnward(db: Rows, d: Rows, r: RefundId)
    requires Grows(db, d) && r in db.refunds
    ensures r in d.refunds && d.refunds[r].expiresAt == db.refunds[r].expiresAt
    ensures d.refunds[r].status == RefundExpired ==> Ended(db.refunds[r].status)
  {
    assert RefundGrows(db.refunds[r], d.refunds[r]);
  }

  lemma JustReturned(ss: seq<Step>, i: nat, r: RefundId, now: Time, ref: Ref, deadline: Time)
    requires i < |ss| && ss[i] == ByWorker(DecideRefund(r, RefundAwaitingFinality, now, ref)) && deadline <= now
    ensures SignableUntil(ss, i + 1, r, deadline)
  {
  }

  lemma RefundsStep(env: Env, w: World, s: Step, v: World, ss: seq<Step>, i: nat)
    requires Next(env, w, s, v) && Consistent(w) && CallsSound(w.calls) && RefundsWait(w, ss, i) && i < |ss| && ss[i] == s
    ensures RefundsWait(v, ss, i + 1)
  {
    hide Next, Consistent, SignableUntil, Grows, CallsSound;
    GrowsStep(env, w, s, v);
    GrowsIsLater(w.db, v.db);
    forall d | d in v.returning && d.to == RefundAwaitingFinality
      ensures d.id in v.db.refunds && SignableUntil(ss, i + 1, d.id, v.db.refunds[d.id].expiresAt)
    {
      ReturningFrom(env, w, s, v, d);
      if d in w.returning {
        StillSignable(ss, i, d.id, w.db.refunds[d.id].expiresAt);
      } else {
        var now, ref :| s == ByWorker(DecideRefund(d.id, RefundAwaitingFinality, now, ref)) && w.db.refunds[d.id].expiresAt <= now;
        JustReturned(ss, i, d.id, now, ref, w.db.refunds[d.id].expiresAt);
      }
    }
    forall r | r in v.db.refunds && Ended(v.db.refunds[r].status)
      ensures SignableUntil(ss, i + 1, r, v.db.refunds[r].expiresAt)
    {
      RefundFrom(env, w, s, v, r);
      if r in w.db.refunds {
        RefundOnward(w.db, v.db, r);
        StillSignable(ss, i, r, w.db.refunds[r].expiresAt);
      } else {
        NoReturnYet(w, r);
        assert false;
      }
    }
  }

  lemma NoReturnYet(w: World, r: RefundId)
    requires Consistent(w) && r !in w.db.refunds
    ensures forall d :: d in w.returning ==> d.id != r
  {
    forall d | d in w.returning ensures d.id != r {
      assert ReturnLinked(w.db, d);
    }
  }

  lemma {:induction false} RefundsRun(env: Env, ws: seq<World>, ss: seq<Step>, i: nat)
    requires Run(env, ws, ss) && i < |ws|
    ensures RefundsWait(ws[i], ss, i)
  {
    if i > 0 {
      hide Next, RefundsWait, Consistent, EndsTold, CallsSound, Initial;
      RefundsRun(env, ws, ss, i - 1);
      ConsistentRun(env, ws, ss, i - 1);
      EndsRun(env, ws, ss, i - 1);
      assert Next(env, ws[i - 1], ss[i - 1], ws[i]);
      hide Run;
      RefundsStep(env, ws[i - 1], ss[i - 1], ws[i], ss, i - 1);
    }
  }

  /** And a refund that waits for finality, or has expired, stopped being signable on the word of such a clock. */
  lemma SignableTheorem(env: Env, ws: seq<World>, ss: seq<Step>, i: nat, r: RefundId)
    requires Run(env, ws, ss) && i < |ws| && r in ws[i].db.refunds
    requires ws[i].db.refunds[r].status == RefundAwaitingFinality || ws[i].db.refunds[r].status == RefundExpired
    ensures exists k, now, ref ::
              0 <= k < i && k < |ss| && ss[k] == ByWorker(DecideRefund(r, RefundAwaitingFinality, now, ref))
              && ws[i].db.refunds[r].expiresAt <= now
  {
    hide Run;
    RefundsRun(env, ws, ss, i);
    assert SignableUntil(ss, i, r, ws[i].db.refunds[r].expiresAt);
  }

  // ---- attempts

  /** Before a step of the run, an attempt was issued by a clock that left at least two minutes to a payment's deadline. */
  ghost predicate IssuedBefore(ss: seq<Step>, i: nat, a: AttemptId, key: Key, deadline: Time) {
    exists k, c, now ::
      0 <= k < i && k < |ss| && ss[k] == ByRequest(Proceed(c, now, a, key)) && deadline - now >= 2 * MINUTE
  }

  /** An attempt is good to its payment's deadline, cut to the second. */
  ghost predicate InTimeFor(db: Rows, ss: seq<Step>, i: nat, a: AttemptId)
    requires a in db.attempts
  {
    var p := db.attempts[a].payment;
    && p in db.payments
    && db.attempts[a].validBefore == db.payments[p].expiresAt - db.payments[p].expiresAt % SECOND
    && IssuedBefore(ss, i, a, db.attempts[a].key, db.payments[p].expiresAt)
  }

  ghost predicate AttemptsInTime(db: Rows, ss: seq<Step>, i: nat) {
    forall a :: a in db.attempts ==> InTimeFor(db, ss, i, a)
  }

  /** An attempt was there, or was just issued at a payment that was read open. */
  lemma AttemptFrom(env: Env, w: World, s: Step, v: World, a: AttemptId)
    requires Next(env, w, s, v) && Consistent(w) && a in v.db.attempts
    ensures a in w.db.attempts || exists c, now, key ::
              s == ByRequest(Proceed(c, now, a, key)) && v.db.attempts[a].payment in w.db.payments
              && NewAttempt(v.db.attempts[a].payment, w.db.payments[v.db.attempts[a].payment].expiresAt, now, key)
                 == Some(v.db.attempts[a])
  {
    LinkedRounds(w);
    hide Consistent, RoundsLinked, AfterObserver, ObserverMoves, WorkerMoves, AfterWorker, RequestMoves, AfterRequest;
    match s
    case ByChain(m) =>
    case ByWorker(m) => WorkerLeaves(w, m);
    case ByRequest(m) => RequestAttempts(env, w, m, a);
    case ByObserver(m) => ObserverKeys(env, w, m);
  }

  lemma RequestAttempts(env: Env, w: World, m: RequestMove, a: AttemptId)
    requires RequestMoves(env, w, m) && Consistent(w) && a in AfterRequest(env, w, m).db.attempts
    ensures a in w.db.attempts
            || (m.Proceed? && m.id == a
                && var b := AfterRequest(env, w, m).db.attempts[a];
                   b.payment in w.db.payments && NewAttempt(b.payment, w.db.payments[b.payment].expiresAt, m.now, m.key) == Some(b))
  {
    if m.Proceed? && a !in w.db.attempts {
      assert CallLinked(w.db, w.calls[m.call]);
      hide DoProceed, Runs, Consistent;
      ProceedFrom(env, w, m.call, m.now, m.id, m.key, a);
    }
  }

  lemma ProceedFrom(env: Env, w: World, c: nat, now: Time, id: AttemptId, key: Key, a: AttemptId)
    requires c in w.calls && Runs(env, w, w.calls[c], id, key) && CallLinked(w.db, w.calls[c])
    requires a in DoProceed(w, c, now, id, key).db.attempts && a !in w.db.attempts
    ensures var b := DoProceed(w, c, now, id, key).db.attempts[a];
            && a == id && b.payment in w.db.payments
            && NewAttempt(b.payment, w.db.payments[b.payment].expiresAt, now, key) == Some(b)
  {
    hide Held, HasLive, FreshKey;
  }

  lemma InTimeOnward(env: Env, w: World, s: Step, v: World, ss: seq<Step>, i: nat, a: AttemptId)
    requires Grows(w.db, v.db) && a in w.db.attempts && InTimeFor(w.db, ss, i, a)
    ensures a in v.db.attempts && InTimeFor(v.db, ss, i + 1, a)
  {
    assert SameAttempt(w.db.attempts[a], v.db.attempts[a]);
    assert PaymentGrows(w.db.payments[w.db.attempts[a].payment], v.db.payments[w.db.attempts[a].payment]);
  }

  lemma InTimeNow(w: World, v: World, ss: seq<Step>, i: nat, a: AttemptId, c: nat, now: Time, key: Key)
    requires Grows(w.db, v.db) && a in v.db.attempts && i < |ss| && ss[i] == ByRequest(Proceed(c, now, a, key))
    requires v.db.attempts[a].payment in w.db.payments
    requires NewAttempt(v.db.attempts[a].payment, w.db.payments[v.db.attempts[a].payment].expiresAt, now, key)
             == Some(v.db.attempts[a])
    ensures InTimeFor(v.db, ss, i + 1, a)
  {
    assert PaymentGrows(w.db.payments[v.db.attempts[a].payment], v.db.payments[v.db.attempts[a].payment]);
  }

  lemma {:induction false} AttemptsRun(env: Env, ws: seq<World>, ss: seq<Step>, i: nat)
    requires Run(env, ws, ss) && i < |ws|
    ensures AttemptsInTime(ws[i].db, ss, i)
  {
    if i > 0 {
      hide Next, InTimeFor;
      AttemptsRun(env, ws, ss, i - 1);
      ConsistentRun(env, ws, ss, i - 1);
      var w, s, v := ws[i - 1], ss[i - 1], ws[i];
      assert Next(env, w, s, v);
      hide Run, Consistent, Grows;
      GrowsStep(env, w, s, v);
      forall a | a in v.db.attempts ensures InTimeFor(v.db, ss, i, a) {
        AttemptFrom(env, w, s, v, a);
        if a in w.db.attempts {
          InTimeOnward(env, w, s, v, ss, i - 1, a);
        } else {
          var c, now, key :| s == ByRequest(Proceed(c, now, a, key))
            && NewAttempt(v.db.attempts[a].payment, w.db.payments[v.db.attempts[a].payment].expiresAt, now, key)
               == Some(v.db.attempts[a]);
          InTimeNow(w, v, ss, i - 1, a, c, now, key);
        }
      }
    }
  }

  /**
   Over every run: an attempt is good to its payment's deadline, cut to the second,
   and was issued on the word of a clock that left at least two minutes to that.
   */
  lemma OfferTheorem(env: Env, ws: seq<World>, ss: seq<Step>, i: nat, a: AttemptId)
    requires Run(env, ws, ss) && i < |ws| && a in ws[i].db.attempts
    ensures ws[i].db.attempts[a].payment in ws[i].db.payments
    ensures var deadline := ws[i].db.payments[ws[i].db.attempts[a].payment].expiresAt;
            && ws[i].db.attempts[a].validBefore == deadline - deadline % SECOND
            && exists k, c, now ::
                 0 <= k < i && k < |ss| && ss[k] == ByRequest(Proceed(c, now, a, ws[i].db.attempts[a].key))
                 && deadline - now >= 2 * MINUTE
  {
    hide Run;
    AttemptsRun(env, ws, ss, i);
    assert InTimeFor(ws[i].db, ss, i, a);
  }

  // ---- refunds asked for

  /** Before a step of the run somebody asked for a refund: what it is of, how much, where to, and under which key. */
  ghost predicate AskedBefore(ss: seq<Step>, i: nat, r: RefundId, refund: Refund) {
    exists k, c, now ::
      0 <= k < i && k < |ss|
      && ss[k] == ByRequest(AskRefund(c, refund.payment, r, refund.amount, refund.destination, refund.key, now))
      && refund.amount > 0 && refund.expiresAt == now + 30 * MINUTE
  }

  predicate CallFor(c: Call, r: RefundId, refund: Refund) {
    (c.RefundAsked? || c.RefundLocked? || c.RefundMeasured? || c.RefundInserted?) && c.id == r && c.refund == refund
  }

  ghost predicate AllAsked(w: World, ss: seq<Step>, i: nat) {
    && (forall r :: r in w.db.refunds ==> AskedBefore(ss, i, r, w.db.refunds[r]))
    && (forall c, r, refund :: c in w.calls && CallFor(w.calls[c], r, refund) ==> AskedBefore(ss, i, r, refund))
  }

  lemma StillAsked(ss: seq<Step>, i: nat, r: RefundId, refund: Refund, now: Refund)
    requires AskedBefore(ss, i, r, refund) && SameRefund(refund, now)
    ensures AskedBefore(ss, i + 1, r, now)
  {
  }

  /** A refund was there, or a request just stored it. */
  lemma RequestStores(env: Env, w: World, m: RequestMove, r: RefundId)
    requires RequestMoves(env, w, m) && r in AfterRequest(env, w, m).db.refunds
    ensures var refund := AfterRequest(env, w, m).db.refunds[r];
            || (r in w.db.refunds && w.db.refunds[r] == refund)
            || exists c :: c in w.calls && CallFor(w.calls[c], r, refund)
  {
    hide Held, HasLive, FreshKey;
    if m.Proceed? && w.calls[m.call].RefundInserted? {
      assert CallFor(w.calls[m.call], w.calls[m.call].id, w.calls[m.call].refund);
    }
  }

  predicate AsksFor(m: RequestMove, r: RefundId, refund: Refund) {
    && m.AskRefund? && m.refund == r && m.payment == refund.payment && m.amount == refund.amount
    && m.destination == refund.destination && m.key == refund.key
    && refund.amount > 0 && refund.expiresAt == m.now + 30 * MINUTE
  }

  /** What a request is to store it was to store before, or it was just asked for. */
  lemma RequestAsks(env: Env, w: World, m: RequestMove, c: nat, r: RefundId, refund: Refund)
    requires RequestMoves(env, w, m) && c in AfterRequest(env, w, m).calls && CallFor(AfterRequest(env, w, m).calls[c], r, refund)
    ensures (c in w.calls && CallFor(w.calls[c], r, refund)) || AsksFor(m, r, refund)
  {
    hide DoProceed, Runs;
    if m.Proceed? {
      GoesOn(w, m.call, m.now, m.id, m.key);
      ProceedAsks(w, m.call, m.now, m.id, m.key, c, r, refund);
    }
  }

  lemma ProceedAsks(w: World, b: nat, now: Time, id: AttemptId, key: Key, c: nat, r: RefundId, refund: Refund)
    requires b in w.calls && c in DoProceed(w, b, now, id, key).calls && CallFor(DoProceed(w, b, now, id, key).calls[c], r, refund)
    ensures c in w.calls && CallFor(w.calls[c], r, refund)
  {
    hide Held, HasLive, IssueAttempt, SaveAttempt;
  }

  lemma JustAsked(ss: seq<Step>, i: nat, m: RequestMove, r: RefundId, refund: Refund)
    requires i < |ss| && ss[i] == ByRequest(m) && AsksFor(m, r, refund)
    ensures AskedBefore(ss, i + 1, r, refund)
  {
    assert ss[i] == ByRequest(AskRefund(m.call, refund.payment, r, refund.amount, refund.destination, refund.key, m.now));
  }

  lemma RefundsSame(env: Env, w: World, s: Step, v: World)
    requires Next(env, w, s, v) && Consistent(w) && !s.ByRequest?
    ensures v.db.refunds.Keys == w.db.refunds.Keys && v.calls == w.calls
  {
    LinkedRounds(w);
    hide Consistent, RoundsLinked, AfterObserver, ObserverMoves, WorkerMoves, AfterWorker;
    match s
    case ByChain(m) =>
    case ByWorker(m) => WorkerLeaves(w, m);
    case ByObserver(m) =>
      ObserverKeys(env, w, m);
      ObserverLeaves(env, w, m);
  }

  lemma SameOnward(db: Rows, d: Rows, r: RefundId)
    requires Grows(db, d) && r in db.refunds
    ensures r in d.refunds && SameRefund(db.refunds[r], d.refunds[r])
  {
    assert RefundGrows(db.refunds[r], d.refunds[r]);
  }

  lemma AskedStep(env: Env, w: World, s: Step, v: World, ss: seq<Step>, i: nat)
    requires Next(env, w, s, v) && Consistent(w) && AllAsked(w, ss, i) && i < |ss| && ss[i] == s
    ensures AllAsked(v, ss, i + 1)
  {
    hide Consistent, AskedBefore, Grows, AfterRequest, RequestMoves, AfterWorker, WorkerMoves, AfterObserver, ObserverMoves,
         SameRefund;
    GrowsStep(env, w, s, v);
    if !s.ByRequest? {
      RefundsSame(env, w, s, v);
    }
    forall c, r, refund | c in v.calls && CallFor(v.calls[c], r, refund) ensures AskedBefore(ss, i + 1, r, refund) {
      if s.ByRequest? {
        RequestAsks(env, w, s.request, c, r, refund);
      }
      if c in w.calls && CallFor(w.calls[c], r, refund) {
        SameAsked(ss, i, r, refund);
      } else {
        JustAsked(ss, i, s.request, r, refund);
      }
    }
    forall r | r in v.db.refunds ensures AskedBefore(ss, i + 1, r, v.db.refunds[r]) {
      if r in w.db.refunds {
        SameOnward(w.db, v.db, r);
        StillAsked(ss, i, r, w.db.refunds[r], v.db.refunds[r]);
      } else {
        RequestStores(env, w, s.request, r);
        SameAsked(ss, i, r, v.db.refunds[r]);
      }
    }
  }

  lemma SameAsked(ss: seq<Step>, i: nat, r: RefundId, refund: Refund)
    requires AskedBefore(ss, i, r, refund)
    ensures AskedBefore(ss, i + 1, r, refund)
  {
  }

  lemma {:induction false} AskedRun(env: Env, ws: seq<World>, ss: seq<Step>, i: nat)
    requires Run(env, ws, ss) && i < |ws|
    ensures AllAsked(ws[i], ss, i)
  {
    if i > 0 {
      hide Next, AllAsked, Consistent, Initial;
      AskedRun(env, ws, ss, i - 1);
      ConsistentRun(env, ws, ss, i - 1);
      assert Next(env, ws[i - 1], ss[i - 1], ws[i]);
      hide Run;
      AskedStep(env, ws[i - 1], ss[i - 1], ws[i], ss, i - 1);
    }
  }

  /**
   Over every run: a refund is what was asked for, of that payment, for that much,
   which is not nothing, to where it was to go, and good for half an hour from then.
   */
  lemma RefundTheorem(env: Env, ws: seq<World>, ss: seq<Step>, i: nat, r: RefundId)
    requires Run(env, ws, ss) && i < |ws| && r in ws[i].db.refunds
    ensures var refund := ws[i].db.refunds[r];
            exists k, c, now ::
              0 <= k < i && k < |ss|
              && ss[k] == ByRequest(AskRefund(c, refund.payment, r, refund.amount, refund.destination, refund.key, now))
              && refund.amount > 0 && refund.expiresAt == now + 30 * MINUTE
  {
    hide Run;
    AskedRun(env, ws, ss, i);
    assert AskedBefore(ss, i, r, ws[i].db.refunds[r]);
  }
}
