/** A payment whose first arrival was short, and a final transfer that pays it in full. */
module Shortfall {
  import opened Basics
  import opened Lifecycle
  import opened Records
  import opened Evidence
  import opened Tables
  import opened Chains
  import opened Reading
  import opened RowFacts
  import opened Protocol
  import opened Consistency
  import opened Reachable
  import opened Index
  import opened Observing
  import opened Writing
  import opened IndexAgrees
  import opened Settlement
  import opened Outcomes
  import opened Bookkeeping
  import opened Arrivals

  // ---- what can be settled

  /**
   Over every run: a payment with a final matched row has received, is not one the
   sweep expires, and can be settled on the row if and only if what it received
   covers what it asked for.
   */
  lemma SettlingTheorem(env: Env, ws: seq<World>, ss: seq<Step>, i: nat, p: PaymentId, ref: Ref, now: Time)
    requires Run(env, ws, ss) && i < |ws| && Candidate(ws[i].db, p, ref)
    ensures ws[i].db.payments[p].received.Some? && !Unsettled(ws[i].db, p)
    ensures Enabled(env, ws[i], ByWorker(Decide(p, Succeeded, now, ref)))
            <==> ws[i].db.payments[p].received.value >= ws[i].db.payments[p].amount
  {
    hide Next;
    ConsistentRun(env, ws, ss, i);
    BookkeepingTheorem(env, ws, ss, i, p);
    var db := ws[i].db;
    LinkedOf(ws[i]);
    hide Run;
    NotOfRefund(db, ref);
    assert OfAttempts(db.observations[ref], p) && Tells(db.observations[ref]);
  }

  // ---- what a matched transfer keeps

  /** A block that was read carries a transfer that pays a payment. */
  ghost predicate ReadPaid(env: Env, w: World, p: PaymentId) {
    exists a, h: nat, x, t ::
      h <= w.chain.final && ReadTo(w.db.cursor, h) && PaysIn(env, w.chain, w.db, p, a, h, x, t)
  }

  lemma CandidateReadPaid(env: Env, w: World, p: PaymentId, ref: Ref)
    requires Indexed(env, w) && RowsLinked(w.db) && Candidate(w.db, p, ref)
    ensures ReadPaid(env, w, p)
  {
    hide RowsWhole, RoundsTrue, Watching, RowsSound, ChainTrue;
    var o := w.db.observations[ref];
    assert RowTrue(env, w.chain, w.db.cursor, ref, o);
    assert RowLinked(w.db, ref, o);
    NotOfRefund(w.db, ref);
    assert PaysIn(env, w.chain, w.db, p, o.against.attempt, o.place.height, ref.tx, o.transfer);
  }

  lemma ReadPaidStays(env: Env, w: World, v: World, p: PaymentId)
    requires Stepped(env, w, v) && ReadPaid(env, w, p)
    ensures ReadPaid(env, v, p)
  {
    var a, h: nat, x, t :| h <= w.chain.final && ReadTo(w.db.cursor, h) && PaysIn(env, w.chain, w.db, p, a, h, x, t);
    FollowsOn(w.chain, v.chain, h, x);
    assert PaymentGrows(w.db.payments[p], v.db.payments[p]);
    assert SameAttempt(w.db.attempts[a], v.db.attempts[a]);
    assert PaysIn(env, v.chain, v.db, p, a, h, x, t);
  }

  lemma ReadPaidIsPaid(env: Env, w: World, p: PaymentId)
    requires ReadPaid(env, w, p)
    ensures PaidOn(env, w.chain, w.db, p) && !NeverPaid(env, w.chain, w.db, p)
  {
  }

  lemma ReadPaidMatched(env: Env, w: World, p: PaymentId)
    requires Indexed(env, w) && RowsLinked(w.db) && FinalStands(w.db.observations)
    requires ReadPaid(env, w, p) && w.db.payments[p].Open()
    ensures MatchedAgainst(w.db, p)
  {
    var a, h: nat, x, t :| h <= w.chain.final && ReadTo(w.db.cursor, h) && PaysIn(env, w.chain, w.db, p, a, h, x, t);
    PayingIsMatched(env, w, p, a, h, x, t);
  }

  // ---- what was received stays

  predicate Holds(payments: map<PaymentId, Payment>, p: PaymentId, m: nat) {
    p in payments && payments[p].received == Some(m)
  }

  /** What was received is not given back while a row stands for it. */
  lemma LoseHolds(db: Rows, lost: set<Ref>, p: PaymentId, m: nat)
    requires Holds(db.payments, p, m) && MatchedAgainst(Lose(db, lost), p)
    ensures Holds(Lose(db, lost).payments, p, m)
  {
    var d := Lose(db, lost);
    var ref :| ref in d.observations && d.observations[ref].payment == p && d.observations[ref].reason == Matched;
    assert ArrivalStands(d.observations, p);
  }

  /** One arrival is held at a time. */
  lemma {:induction false} ArriveHolds(ps: map<PaymentId, Payment>, seen: seq<Seen>, p: PaymentId, m: nat)
    requires Holds(ps, p, m)
    ensures Holds(Arrive(ps, seen), p, m)
  {
    if seen != [] {
      ArriveHolds(ps, seen[..|seen| - 1], p, m);
    }
  }

  lemma RecordHolds(db: Rows, first: nat, last: nat, final: bool, seen: seq<Seen>, sent: seq<Sent>, p: PaymentId, m: nat)
    requires forall s :: s in seen ==> SeenLinked(db, s)
    requires Record(db, first, last, final, seen, sent).Some? && Holds(db.payments, p, m)
    requires MatchedAgainst(Record(db, first, last, final, seen, sent).value, p)
    ensures Holds(Record(db, first, last, final, seen, sent).value.payments, p, m)
  {
    var es := Entries(seen, sent);
    LinkedIsCurrent(db, seen);
    RecordObservations(db, first, last, final, seen, sent);
    RecordAttempts(db, first, last, final, seen, sent);
    var put := db.(observations := Put(db.observations, es, final));
    hide Record, SeenLinked, Put, Lose, Entries, Arrive;
    if final {
      LoseHolds(put, LostIn(put.observations, first, last, TxsOf(es)), p, m);
    }
    ArriveHolds(Written(db, first, last, final, es).payments, seen, p, m);
  }

  lemma WriteHolds(w: World, i: nat, p: PaymentId, m: nat)
    requires Reads(w, i) && w.rounds[i].work.Receiving? && WorkLinked(w.db, w.rounds[i].work)
    requires Holds(w.db.payments, p, m) && MatchedAgainst(DoWrite(w, i).db, p)
    ensures Holds(DoWrite(w, i).db.payments, p, m)
  {
    var r, work := w.rounds[i], w.rounds[i].work;
    hide Record, SeenLinked, SentLinked;
    if Record(w.db, r.first, r.last, r.Settling?, work.seen, work.sent).Some? && DoWrite(w, i).db != w.db {
      RecordHolds(w.db, r.first, r.last, r.Settling?, work.seen, work.sent, p, m);
    }
  }

  lemma WorkerHolds(w: World, m: WorkerMove, p: PaymentId, got: nat)
    requires WorkerMoves(w, m) && PendingLinked(w.db, w.decisions, w.returning) && Holds(w.db.payments, p, got)
    requires var d := AfterWorker(w, m).db;
             p in d.payments && d.payments[p].status == w.db.payments[p].status ==> MatchedAgainst(d, p)
    ensures Holds(AfterWorker(w, m).db.payments, p, got)
  {
    hide Grounds, RefundGrounds, Lose, MatchedAgainst;
    match m
    case Save(d) => assert DecisionLinked(w.db, d);
    case GiveUpOn(ref) =>
      LoseKeeps(w.db, {ref});
      if GiveUp(w.db, ref) != w.db {
        assert OnlyReceived(w.db.payments[p], Lose(w.db, {ref}).payments[p]);
        LoseHolds(w.db, {ref}, p, got);
      }
    case _ =>
  }

  lemma RequestHolds(env: Env, w: World, m: RequestMove, p: PaymentId, got: nat)
    requires RequestMoves(env, w, m) && Consistent(w) && Holds(w.db.payments, p, got)
    ensures Holds(AfterRequest(env, w, m).db.payments, p, got)
  {
    if m.Proceed? {
      LinkedOf(w);
      assert CallLinked(w.db, w.calls[m.call]);
      hide DoProceed, Runs, RowsLinked;
      ProceedRows(env, w, m.call, m.now, m.id, m.key);
    }
  }

  lemma ObserverHolds(env: Env, w: World, m: ObserverMove, p: PaymentId, got: nat)
    requires ObserverMoves(w, m) && Consistent(w) && Holds(w.db.payments, p, got)
    requires var d := AfterObserver(env, w, m).db;
             p in d.payments && d.payments[p].status == w.db.payments[p].status ==> MatchedAgainst(d, p)
    ensures Holds(AfterObserver(env, w, m).db.payments, p, got)
  {
    LinkedOf(w);
    hide Consistent, RowsLinked, RoundsLinked, WorkLinked, DoWrite, MatchedAgainst;
    if m.Write? {
      RoundWork(w, m.observer);
      ObserverKeys(env, w, m);
      WriteHolds(w, m.observer, p, got);
    }
  }

  lemma HoldsStep(env: Env, w: World, s: Step, v: World, p: PaymentId, got: nat)
    requires Next(env, w, s, v) && Consistent(w) && Holds(w.db.payments, p, got)
    requires p in v.db.payments && v.db.payments[p].status == w.db.payments[p].status ==> MatchedAgainst(v.db, p)
    ensures Holds(v.db.payments, p, got)
  {
    LinkedOf(w);
    hide RowsLinked, RoundsLinked, CallsLinked, WorkerMoves, RequestMoves, AfterWorker, AfterRequest,
         ObserverMoves, AfterObserver, MatchedAgainst;
    match s
    case ByChain(m) =>
    case ByWorker(m) => WorkerHolds(w, m, p, got);
    case ByRequest(m) => RequestHolds(env, w, m, p, got);
    case ByObserver(m) => ObserverHolds(env, w, m, p, got);
  }

  // ---- no payment is failed

  ghost predicate NoneFails(w: World) {
    && (forall p :: p in w.db.payments ==> w.db.payments[p].status != Failed)
    && (forall d :: d in w.decisions ==> d.moved.status != Failed)
  }

  lemma {:induction false} NoneFailsRun(env: Env, ws: seq<World>, ss: seq<Step>, i: nat)
    requires Run(env, ws, ss) && i < |ws|
    ensures NoneFails(ws[i])
  {
    if i > 0 {
      NoneFailsRun(env, ws, ss, i - 1);
      ConsistentRun(env, ws, ss, i - 1);
      var w, s, v := ws[i - 1], ss[i - 1], ws[i];
      assert Next(env, w, s, v);
      hide Next, Consistent, Run;
      forall p | p in v.db.payments ensures v.db.payments[p].status != Failed {
        StatusFrom(env, w, s, v, p);
      }
      forall d | d in v.decisions ensures d.moved.status != Failed {
        DecisionFrom(env, w, s, v, d);
      }
    }
  }

  // ---- stuck

  /** Open, holding less than was asked for, and paid in a block that was read. */
  ghost predicate Stuck(env: Env, w: World, p: PaymentId, got: nat) {
    && Holds(w.db.payments, p, got) && got < w.db.payments[p].amount && w.db.payments[p].Open()
    && ReadPaid(env, w, p)
  }

  /** What every state of such a run keeps. */
  ghost predicate Kept(env: Env, w: World) {
    && Consistent(w) && Indexed(env, w) && FinalStands(w.db.observations) && ExpiryTrue(env, w) && NoneFails(w)
  }

  lemma KeptRun(env: Env, ws: seq<World>, ss: seq<Step>, i: nat)
    requires Run(env, ws, ss) && LoneRun(ws, ss) && TruthfulRun(ws, ss) && i < |ws|
    ensures Kept(env, ws[i])
  {
    hide Run, LoneRun, TruthfulRun, Indexed, Consistent, FinalStands, ExpiryTrue, ReturnsTrue, NoneFails;
    IndexedRun(env, ws, ss, i);
    ConsistentRun(env, ws, ss, i);
    StandsRun(env, ws, ss, i);
    ExpiryRun(env, ws, ss, i);
    NoneFailsRun(env, ws, ss, i);
  }

  lemma KeptMatched(env: Env, w: World, p: PaymentId)
    requires Kept(env, w) && ReadPaid(env, w, p) && w.db.payments[p].Open()
    ensures MatchedAgainst(w.db, p)
  {
    LinkedOf(w);
    hide Indexed, Consistent, RowsLinked, FinalStands, ReadPaid, ExpiryTrue, NoneFails, MatchedAgainst;
    ReadPaidMatched(env, w, p);
  }

  lemma KeptCandidate(env: Env, w: World, p: PaymentId, ref: Ref)
    requires Kept(env, w) && Candidate(w.db, p, ref)
    ensures ReadPaid(env, w, p)
  {
    LinkedOf(w);
    hide Indexed, Consistent, RowsLinked, FinalStands, ReadPaid, ExpiryTrue, NoneFails;
    CandidateReadPaid(env, w, p, ref);
  }

  lemma StuckStep(env: Env, w: World, s: Step, v: World, p: PaymentId, got: nat)
    requires Next(env, w, s, v) && Lone(w, s) && Kept(env, w) && Kept(env, v) && Stuck(env, w, p, got)
    ensures Stuck(env, v, p, got)
  {
    hide Next, Lone, Indexed, Consistent, FinalStands, ReadPaid, MatchedAgainst, NeverPaid, PaidOn;
    StepForward(env, w, s, v);
    ReadPaidStays(env, w, v, p);
    ReadPaidIsPaid(env, v, p);
    assert PaymentGrows(w.db.payments[p], v.db.payments[p]);
    hide Stepped;
    if v.db.payments[p].Open() {
      KeptMatched(env, v, p);
    }
    HoldsStep(env, w, s, v, p, got);
    if v.db.payments[p].status == Succeeded {
      CoveredIn(v, p);
    }
  }

  lemma {:induction false} StuckRun(env: Env, ws: seq<World>, ss: seq<Step>, i: nat, j: nat, p: PaymentId, got: nat)
    requires Run(env, ws, ss) && LoneRun(ws, ss) && TruthfulRun(ws, ss) && i <= j < |ws| && Stuck(env, ws[i], p, got)
    ensures Stuck(env, ws[j], p, got)
    decreases j
  {
    hide Next, Lone, Truthful, Stuck, Kept, Initial;
    if i < j {
      StuckRun(env, ws, ss, i, j - 1, p, got);
      KeptRun(env, ws, ss, j - 1);
      KeptRun(env, ws, ss, j);
      StuckStep(env, ws[j - 1], ss[j - 1], ws[j], p, got);
    }
  }

  /**
   Over every run in which one observer reads at a time and nothing on the final
   chain is given up on: a payment with a final matched row that cannot be settled
   on it stays as it is. In every state after, it is open and paid on the final
   chain, holds the same short amount, and can neither succeed nor expire.
   */
  lemma StuckTheorem(env: Env, ws: seq<World>, ss: seq<Step>, i: nat, j: nat, p: PaymentId, ref: Ref)
    requires Run(env, ws, ss) && LoneRun(ws, ss) && TruthfulRun(ws, ss) && i <= j < |ws|
    requires Candidate(ws[i].db, p, ref) && ws[i].db.payments[p].Succeed().None?
    ensures p in ws[j].db.payments && ws[j].db.payments[p].Open()
    ensures ws[j].db.payments[p].received == ws[i].db.payments[p].received
    ensures PaidOn(env, ws[j].chain, ws[j].db, p)
    ensures ws[j].db.payments[p].Succeed().None? && !Unsettled(ws[j].db, p)
  {
    hide Run, LoneRun, TruthfulRun, Kept, ReadPaid, MatchedAgainst;
    SettlingTheorem(env, ws, ss, i, p, ref, 0);
    KeptRun(env, ws, ss, i);
    KeptRun(env, ws, ss, j);
    KeptCandidate(env, ws[i], p, ref);
    StuckRun(env, ws, ss, i, j, p, ws[i].db.payments[p].received.value);
    ReadPaidIsPaid(env, ws[j], p);
    KeptMatched(env, ws[j], p);
  }
}
