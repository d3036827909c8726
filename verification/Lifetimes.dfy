/** What a payment, an attempt and a refund keep for as long as they are there, whoever moves them. */
module Lifetimes {
  import opened Basics
  import opened Lifecycle
  import opened Records
  import opened Evidence
  import opened Tables
  import opened Chains
  import opened Reading
  import opened RowFacts
  import opened Protocol
  import opened Consistency
  import opened Reachable
  import opened Observing
  import opened Writing
  import opened Bookkeeping
  import opened Arrivals

  // ---- rows move one way

  lemma GrowsStep(env: Env, w: World, s: Step, v: World)
    requires Next(env, w, s, v) && Consistent(w)
    ensures Grows(w.db, v.db)
  {
    LinkedOf(w);
    hide Grows, RowsLinked, RoundsLinked, AfterWorker, AfterRequest, AfterObserver, CallsLinked, PendingLinked, SucceededCovered;
    match s
    case ByChain(m) => GrowsSelf(w.db, w.db);
    case ByWorker(m) => WorkerGrows(w, m);
    case ByRequest(m) => RequestRows(env, w, m);
    case ByObserver(m) => ObserverGrows(env, w, m);
  }

  /** Two states of one payment, any number of steps apart. */
  predicate PaymentLater(p: Payment, q: Payment) {
    && SamePayment(p, q) && (q.version == p.version ==> q == p) && Rank(p.status) <= Rank(q.status)
    && (Final(p.status) ==> q.status == p.status && q.received == p.received)
  }

  predicate RefundLater(r: Refund, s: Refund) {
    SameRefund(r, s) && (s.version == r.version ==> s == r) && (RefundFinal(r.status) ==> s.status == r.status)
  }

  predicate AttemptLater(a: Attempt, b: Attempt) { SameAttempt(a, b) && (b.revision == a.revision ==> b == a) }

  lemma GrowsIsLater(db: Rows, d: Rows)
    requires Grows(db, d)
    ensures forall p :: p in db.payments ==> p in d.payments && PaymentLater(db.payments[p], d.payments[p])
    ensures forall r :: r in db.refunds ==> r in d.refunds && RefundLater(db.refunds[r], d.refunds[r])
    ensures forall a :: a in db.attempts ==> a in d.attempts && SameAttempt(db.attempts[a], d.attempts[a])
  {
    forall p | p in db.payments ensures p in d.payments && PaymentLater(db.payments[p], d.payments[p]) {
      assert PaymentGrows(db.payments[p], d.payments[p]);
    }
    forall r | r in db.refunds ensures r in d.refunds && RefundLater(db.refunds[r], d.refunds[r]) {
      assert RefundGrows(db.refunds[r], d.refunds[r]);
    }
  }

  /**
   Over every run: a payment, an attempt and a refund are there from when they are
   stored, for what they were stored for. A payment's status only climbs, and one
   that has finished never moves, in its status or in what it received; nor does a
   refund that has. A version or revision that is the same is the same row.
   */
  lemma {:induction false} LifetimeTheorem(env: Env, ws: seq<World>, ss: seq<Step>, i: nat, j: nat)
    requires Run(env, ws, ss) && i <= j < |ws|
    ensures forall p :: p in ws[i].db.payments ==>
              p in ws[j].db.payments && PaymentLater(ws[i].db.payments[p], ws[j].db.payments[p])
    ensures forall r :: r in ws[i].db.refunds ==>
              r in ws[j].db.refunds && RefundLater(ws[i].db.refunds[r], ws[j].db.refunds[r])
    ensures forall a :: a in ws[i].db.attempts ==>
              a in ws[j].db.attempts && AttemptLater(ws[i].db.attempts[a], ws[j].db.attempts[a])
    decreases j
  {
    hide Next, Consistent, Grows;
    if i < j {
      LifetimeTheorem(env, ws, ss, i, j - 1);
      ConsistentRun(env, ws, ss, j - 1);
      GrowsStep(env, ws[j - 1], ss[j - 1], ws[j]);
      GrowsIsLater(ws[j - 1].db, ws[j].db);
    }
  }

  // ---- who authorised

  /** Somebody has authorised an attempt exactly while it is confirming: what a row is refused for when it is loaded. */
  predicate Authorised(a: Attempt) { a.authorizer.Some? <==> a.status == Confirming }

  ghost predicate AllAuthorised(attempts: map<AttemptId, Attempt>) { forall a :: a in attempts ==> Authorised(attempts[a]) }

  lemma LoseAuthorised(db: Rows, lost: set<Ref>)
    requires AllAuthorised(db.attempts)
    ensures AllAuthorised(Lose(db, lost).attempts)
  {
  }

  lemma {:induction false} ConfirmAuthorised(db: Rows, seen: seq<Seen>)
    requires AllAuthorised(db.attempts) && Confirm(db, seen).Some?
    ensures AllAuthorised(Confirm(db, seen).value.attempts)
  {
    if seen != [] {
      ConfirmAuthorised(db, seen[..|seen| - 1]);
    }
  }

  lemma RecordAuthorised(db: Rows, first: nat, last: nat, final: bool, seen: seq<Seen>, sent: seq<Sent>)
    requires AllAuthorised(db.attempts) && Record(db, first, last, final, seen, sent).Some?
    ensures AllAuthorised(Record(db, first, last, final, seen, sent).value.attempts)
  {
    var es := Entries(seen, sent);
    var put := db.(observations := Put(db.observations, es, final));
    hide AllAuthorised, Lose, Put, Confirm, Arrive;
    if final {
      LoseAuthorised(put, LostIn(put.observations, first, last, TxsOf(es)));
    }
    ConfirmAuthorised(Credited(Written(db, first, last, final, es), seen), seen);
  }

  lemma SupersedeAuthorised(w: World, c: nat, a: AttemptId, read: Attempt)
    requires AllAuthorised(w.db.attempts) && a in w.db.attempts && SameAttempt(read, w.db.attempts[a])
    ensures AllAuthorised(DoSupersede(w, c, a, read).db.attempts)
  {
  }

  lemma IssueAuthorised(w: World, c: nat, attempt: Option<Attempt>, id: AttemptId)
    requires AllAuthorised(w.db.attempts) && (attempt.Some? ==> Authorised(attempt.value))
    ensures AllAuthorised(DoIssue(w, c, attempt, id).db.attempts)
  {
    hide HasLive;
  }

  lemma ProceedAuthorised(env: Env, w: World, c: nat, now: Time, id: AttemptId, key: Key)
    requires c in w.calls && Runs(env, w, w.calls[c], id, key) && CallLinked(w.db, w.calls[c]) && AllAuthorised(w.db.attempts)
    ensures AllAuthorised(DoProceed(w, c, now, id, key).db.attempts)
  {
    hide Held, HasLive, Runs, DoIssue, DoSupersede, AllAuthorised;
    match w.calls[c]
    case IssueWatched(p, e) => IssueAuthorised(w, c, NewAttempt(p, e, now, key), id);
    case SupersedeCounted(a, read) => SupersedeAuthorised(w, c, a, read);
    case _ =>
  }

  lemma WriteAuthorised(w: World, i: nat)
    requires Reads(w, i) && w.rounds[i].work.Receiving? && AllAuthorised(w.db.attempts)
    ensures AllAuthorised(DoWrite(w, i).db.attempts)
  {
    var r, work := w.rounds[i], w.rounds[i].work;
    hide AllAuthorised, Record;
    if Record(w.db, r.first, r.last, r.Settling?, work.seen, work.sent).Some? {
      RecordAuthorised(w.db, r.first, r.last, r.Settling?, work.seen, work.sent);
    }
  }

  lemma AuthorisedStep(env: Env, w: World, s: Step, v: World)
    requires Next(env, w, s, v) && Consistent(w) && AllAuthorised(w.db.attempts)
    ensures AllAuthorised(v.db.attempts)
  {
    hide AllAuthorised, DoProceed, DoWrite, Runs, Lose, Grounds, RefundGrounds, RowsLinked, RoundsLinked;
    match s
    case ByChain(m) =>
    case ByWorker(m) =>
      if m.GiveUpOn? {
        LoseAuthorised(w.db, {m.ref});
      }
    case ByRequest(m) =>
      if m.Proceed? {
        assert CallLinked(w.db, w.calls[m.call]);
        ProceedAuthorised(env, w, m.call, m.now, m.id, m.key);
      }
    case ByObserver(m) =>
      if m.Write? {
        WriteAuthorised(w, m.observer);
      }
  }

  /** Over every run an attempt names who authorised it exactly while it is confirming. */
  lemma {:induction false} AuthorisedTheorem(env: Env, ws: seq<World>, ss: seq<Step>, i: nat)
    requires Run(env, ws, ss) && i < |ws|
    ensures AllAuthorised(ws[i].db.attempts)
  {
    hide Next, Consistent;
    if i > 0 {
      hide AllAuthorised;
      AuthorisedTheorem(env, ws, ss, i - 1);
      ConsistentRun(env, ws, ss, i - 1);
      AuthorisedStep(env, ws[i - 1], ss[i - 1], ws[i]);
    }
  }

  // ---- what moves undo, and what they never touch

  /** A payment takes what arrived once, gives it back only while it could be taken, and is then as it was. */
  lemma ReceiveAndBack(p: Payment, m: nat, n: nat)
    requires p.Receive(m).Some?
    ensures p.Receive(m).value.Receive(n).None?
    ensures p.Receive(m).value.Unreceive() == Some(p)
    ensures p.Receive(m).value.Succeed().Some? <==> m >= p.amount
    ensures p.Receive(m).value.Succeed().Some? ==> p.Receive(m).value.Succeed().value.Unreceive().None?
  {
  }

  /** An attempt that was confirmed and taken back is as it was, and one that was retired is neither again. */
  lemma ConfirmAndBack(a: Attempt, signer: Address)
    requires Authorised(a)
    ensures a.Confirm(Some(signer)).Some? ==> a.Confirm(Some(signer)).value.Unconfirm() == Some(a)
    ensures a.Unconfirm().Some? ==> a.Unconfirm().value.Confirm(a.authorizer) == Some(a)
    ensures a.Supersede().Some? ==>
              a.Supersede().value.Confirm(Some(signer)).None? && a.Supersede().value.Unconfirm().None?
              && a.Supersede().value.Supersede().None?
  {
  }
}
