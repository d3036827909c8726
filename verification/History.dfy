/** The events ever written for a payment tell how it got to where it is. */
module History {
  import opened Basics
  import opened Lifecycle
  import opened Records
  import opened Tables
  import opened RowFacts
  import opened Protocol
  import opened Consistency
  import opened Reachable

  function Told(e: Event, p: PaymentId): seq<Status> {
    if e.PaymentMoved? && e.payment == p then [e.status] else []
  }

  /** The statuses the outbox told of one payment, in the order of its rows. */
  function Statuses(outbox: seq<Event>, p: PaymentId): seq<Status> {
    if outbox == [] then []
    else Statuses(outbox[..|outbox| - 1], p) + Told(outbox[|outbox| - 1], p)
  }

  lemma ToldNext(outbox: seq<Event>, e: Event, p: PaymentId)
    ensures Statuses(outbox + [e], p) == Statuses(outbox, p) + Told(e, p)
  {
    assert (outbox + [e])[..|outbox|] == outbox;
  }

  lemma {:induction false} ConfirmingsTellNothing(before: seq<Event>, after: seq<Event>, p: PaymentId)
    requires OnlyConfirmings(before, after)
    ensures Statuses(after, p) == Statuses(before, p)
    decreases |after|
  {
    if |before| < |after| {
      var front := after[..|after| - 1];
      assert front[..|before|] == before;
      ConfirmingsTellNothing(before, front, p);
    } else {
      assert after == before;
    }
  }

  /** What was told of a payment, from its opening. */
  function Journey(outbox: seq<Event>, p: PaymentId): seq<Status> { [Created] + Statuses(outbox, p) }

  ghost predicate JourneyEnds(db: Rows, p: PaymentId)
    requires p in db.payments
  {
    var told := Journey(db.outbox, p);
    Path(told) && told[|told| - 1] == db.payments[p].status
  }

  ghost predicate HistoryTrue(db: Rows) {
    && (forall p :: p in db.payments ==> JourneyEnds(db, p))
    && (forall p :: p !in db.payments ==> Statuses(db.outbox, p) == [])
  }

  /** Nothing told and no status moved. */
  lemma NothingTold(db: Rows, d: Rows)
    requires HistoryTrue(db) && d.payments.Keys == db.payments.Keys
    requires forall p :: p in db.payments ==> d.payments[p].status == db.payments[p].status
    requires forall p :: Statuses(d.outbox, p) == Statuses(db.outbox, p)
    ensures HistoryTrue(d)
  {
    forall p | p in d.payments ensures JourneyEnds(d, p) {
      assert JourneyEnds(db, p);
    }
  }

  lemma PathExtends(told: seq<Status>, next: Status)
    requires Path(told) && told != [] && CanBecome(told[|told| - 1], next)
    ensures Path(told + [next])
  {
  }

  /** A save that goes through is a move of the payment as it still is. */
  lemma SaveMoves(db: Rows, d: Decision)
    requires DecisionLinked(db, d) && SavePayment(db, d.id, d.moved, d.read.version).Some?
    ensures var after := SavePayment(db, d.id, d.moved, d.read.version).value;
            && d.read == db.payments[d.id]
            && after.payments.Keys == db.payments.Keys
            && (forall p :: p in db.payments && p != d.id ==> after.payments[p] == db.payments[p])
            && after.payments[d.id].status == d.moved.status
            && after.outbox == db.outbox + [PaymentMoved(d.id, d.moved.status)]
  {
  }

  /** One event more: about another payment, which changes nothing here, or about this one and a move it made. */
  lemma TellsOne(db: Rows, d: Rows, p: PaymentId, e: Event)
    requires p in db.payments && JourneyEnds(db, p) && p in d.payments && d.outbox == db.outbox + [e]
    requires
      || (Told(e, p) == [] && d.payments[p].status == db.payments[p].status)
      || (Told(e, p) == [d.payments[p].status] && CanBecome(db.payments[p].status, d.payments[p].status))
    ensures JourneyEnds(d, p)
  {
    ToldNext(db.outbox, e, p);
    assert Journey(d.outbox, p) == Journey(db.outbox, p) + Told(e, p);
    if Told(e, p) != [] {
      PathExtends(Journey(db.outbox, p), d.payments[p].status);
    } else {
      assert Journey(d.outbox, p) == Journey(db.outbox, p);
    }
  }

  lemma SaveTells(db: Rows, d: Decision)
    requires HistoryTrue(db) && DecisionLinked(db, d)
    ensures var after := SavePayment(db, d.id, d.moved, d.read.version);
            after.Some? ==> HistoryTrue(after.value)
  {
    if SavePayment(db, d.id, d.moved, d.read.version).Some? {
      SaveMoves(db, d);
      var after := SavePayment(db, d.id, d.moved, d.read.version).value;
      var e := PaymentMoved(d.id, d.moved.status);
      hide SavePayment, JourneyEnds, Statuses;
      forall p | p in after.payments ensures JourneyEnds(after, p) {
        TellsOne(db, after, p, e);
      }
      forall p | p !in after.payments ensures Statuses(after.outbox, p) == [] {
        ToldNext(db.outbox, e, p);
      }
    }
  }

  lemma SaveReturnTells(db: Rows, d: Return)
    requires HistoryTrue(db)
    ensures var after := SaveRefund(db, d.id, d.to, d.read.version);
            after.Some? ==> HistoryTrue(after.value)
  {
    var after := SaveRefund(db, d.id, d.to, d.read.version);
    if after.Some? {
      forall p ensures Statuses(after.value.outbox, p) == Statuses(db.outbox, p) {
        ToldNext(db.outbox, RefundMoved(d.id, d.to), p);
      }
      NothingTold(db, after.value);
    }
  }

  lemma ReceivingTells(db: Rows, d: Rows)
    requires HistoryTrue(db) && PaymentsReceive(db.payments, d.payments) && OnlyConfirmings(db.outbox, d.outbox)
    ensures HistoryTrue(d)
  {
    forall p ensures Statuses(d.outbox, p) == Statuses(db.outbox, p) {
      ConfirmingsTellNothing(db.outbox, d.outbox, p);
    }
    forall p | p in db.payments ensures d.payments[p].status == db.payments[p].status {
      assert OnlyReceived(db.payments[p], d.payments[p]);
    }
    NothingTold(db, d);
  }

  lemma GiveUpTells(db: Rows, ref: Ref)
    requires HistoryTrue(db)
    ensures HistoryTrue(GiveUp(db, ref))
  {
    LoseKeeps(db, {ref});
    if GiveUp(db, ref) != db {
      ReceivingTells(db, GiveUp(db, ref));
    }
  }

  lemma WorkerTells(w: World, m: WorkerMove)
    requires WorkerMoves(w, m) && PendingLinked(w.db, w.decisions, w.returning) && HistoryTrue(w.db)
    ensures HistoryTrue(AfterWorker(w, m).db)
  {
    hide HistoryTrue, Grounds, RefundGrounds;
    match m
    case Save(d) => SaveTells(w.db, d);
    case SaveReturn(d) => SaveReturnTells(w.db, d);
    case GiveUpOn(ref) => GiveUpTells(w.db, ref);
    case _ =>
  }

  lemma OpenTells(db: Rows, p: PaymentId, row: Payment)
    requires HistoryTrue(db) && p !in db.payments && row.status == Created
    ensures HistoryTrue(db.(payments := db.payments[p := row]))
  {
    var d := db.(payments := db.payments[p := row]);
    forall q | q in d.payments ensures JourneyEnds(d, q) {
      if q != p {
        assert JourneyEnds(db, q);
      }
    }
  }

  lemma RequestTells(env: Env, w: World, m: RequestMove)
    requires RequestMoves(env, w, m) && CallsLinked(w.db, w.calls) && RowsLinked(w.db) && SucceededCovered(w.db)
    requires HistoryTrue(w.db)
    ensures HistoryTrue(AfterRequest(env, w, m).db)
  {
    RequestLeaves(env, w, m);
    if m.Open? {
      OpenTells(w.db, m.payment, m.row);
    } else {
      if m.Proceed? {
        assert CallLinked(w.db, w.calls[m.call]);
        ProceedRows(env, w, m.call, m.now, m.id, m.key);
      }
      SamePayments(w.db, AfterRequest(env, w, m).db);
    }
  }

  lemma SamePayments(db: Rows, d: Rows)
    requires HistoryTrue(db) && d.payments == db.payments && d.outbox == db.outbox
    ensures HistoryTrue(d)
  {
    NothingTold(db, d);
  }

  lemma ObserverTells(env: Env, w: World, m: ObserverMove)
    requires ObserverMoves(w, m) && RoundsLinked(w.db, w.rounds) && HistoryTrue(w.db)
    ensures HistoryTrue(AfterObserver(env, w, m).db)
  {
    hide HistoryTrue;
    if m.Write? {
      assert RoundLinked(w.db, w.rounds[m.observer]);
      WriteTells(w, m.observer);
    } else {
      SamePayments(w.db, AfterObserver(env, w, m).db);
    }
  }

  lemma WriteTells(w: World, i: nat)
    requires Reads(w, i) && w.rounds[i].work.Receiving? && WorkLinked(w.db, w.rounds[i].work) && HistoryTrue(w.db)
    ensures HistoryTrue(DoWrite(w, i).db)
  {
    hide HistoryTrue;
    var r, work := w.rounds[i], w.rounds[i].work;
    LinkedIsCurrent(w.db, work.seen);
    var recorded := Record(w.db, r.first, r.last, r.Settling?, work.seen, work.sent);
    if recorded.Some? {
      RecordKeeps(w.db, r.first, r.last, r.Settling?, work.seen, work.sent);
      ReceivingTells(w.db, recorded.value);
      SamePayments(recorded.value, recorded.value.(cursor := DoWrite(w, i).db.cursor));
    }
  }

  lemma HistoryStep(env: Env, w: World, s: Step, v: World)
    requires Next(env, w, s, v) && Consistent(w) && HistoryTrue(w.db)
    ensures HistoryTrue(v.db)
  {
    hide HistoryTrue;
    match s
    case ByChain(m) =>
    case ByWorker(m) => WorkerTells(w, m);
    case ByRequest(m) => RequestTells(env, w, m);
    case ByObserver(m) => ObserverTells(env, w, m);
  }

  lemma {:induction false} HistoryRun(env: Env, ws: seq<World>, ss: seq<Step>, i: nat)
    requires Run(env, ws, ss) && i < |ws|
    ensures HistoryTrue(ws[i].db)
  {
    if i > 0 {
      hide Next;
      HistoryRun(env, ws, ss, i - 1);
      ConsistentRun(env, ws, ss, i - 1);
      HistoryStep(env, ws[i - 1], ss[i - 1], ws[i]);
    }
  }

  /**
   Over any run, whichever writers raced: what the outbox told of a payment is a
   path through the lifecycle from created to the status the payment is in, and
   no status is told twice.
   */
  lemma HistoryTheorem(env: Env, ws: seq<World>, ss: seq<Step>, i: nat, p: PaymentId)
    requires Run(env, ws, ss) && i < |ws| && p in ws[i].db.payments
    ensures var told := Journey(ws[i].db.outbox, p);
            && Path(told)
            && told[|told| - 1] == ws[i].db.payments[p].status
            && forall m, n :: 0 <= m < n < |told| ==> told[m] != told[n]
  {
    hide Next;
    HistoryRun(env, ws, ss, i);
    assert JourneyEnds(ws[i].db, p);
    var told := Journey(ws[i].db.outbox, p);
    forall m, n | 0 <= m < n < |told| ensures told[m] != told[n] {
      PathClimbs(told, m, n);
    }
  }
}
