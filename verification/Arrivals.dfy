/** Over every run, what a payment received is what the rows that stand for it say arrived. */
module Arrivals {
  import opened Basics
  import opened Lifecycle
  import opened Records
  import opened Evidence
  import opened Tables
  import opened Chains
  import opened Reading
  import opened RowFacts
  import opened Protocol
  import opened Consistency
  import opened Reachable
  import opened Observing
  import opened Writing
  import opened Bookkeeping

  // ---- a round

  lemma RecordBooks(env: Env, db: Rows, first: nat, last: nat, final: bool, seen: seq<Seen>, sent: seq<Sent>)
    requires ValidLedger(env.ledger) && RowsLinked(db) && RowsCarried(env, db.observations) && Booked(db)
    requires forall s :: s in seen ==> SeenLinked(db, s) && Carries(env.ledger, s.tx, s.transfer)
    requires forall s :: s in sent ==> SentLinked(db, s) && Carries(env.ledger, s.tx, s.transfer)
    requires Record(db, first, last, final, seen, sent).Some?
    ensures var d := Record(db, first, last, final, seen, sent).value;
            Booked(d) && RowsCarried(env, d.observations)
  {
    var es := Entries(seen, sent);
    var written := Written(db, first, last, final, es);
    var credited := Credited(written, seen);
    var d := Record(db, first, last, final, seen, sent).value;
    EntriesLinked(db, seen, sent);
    EntriesCarried(env, seen, sent);
    LinkedIsCurrent(db, seen);
    hide RowsLinked, Booked, Entries, EntryLinked, SeenLinked, SentLinked, Carries, RowsCarried, ValidLedger;
    RecordObservations(db, first, last, final, seen, sent);
    hide Record, Written;
    WrittenCarried(env, db, first, last, final, es);
    RecordAttempts(db, first, last, final, seen, sent);
    BooksTold(env, db, written, d, first, last, final, seen, sent);
    BooksReceived(env, db, written, d, first, last, final, seen, sent);
    BooksConfirmed(env, db, written, d, first, last, final, seen, sent);
    BookedOf(d);
  }

  lemma BookedOf(d: Rows)
    requires AllTold(d.payments, d.observations) && ReceivedTold(d.payments, d.observations)
    requires ConfirmingBacked(d.attempts, d.observations)
    ensures Booked(d)
  {
  }

  lemma EntriesCarried(env: Env, seen: seq<Seen>, sent: seq<Sent>)
    requires forall s :: s in seen ==> Carries(env.ledger, s.tx, s.transfer)
    requires forall s :: s in sent ==> Carries(env.ledger, s.tx, s.transfer)
    ensures forall e :: e in Entries(seen, sent) ==> Carries(env.ledger, e.ref.tx, e.transfer)
  {
    var es := Entries(seen, sent);
    forall e | e in es ensures Carries(env.ledger, e.ref.tx, e.transfer) {
      var i :| 0 <= i < |es| && es[i] == e;
      if i < |seen| {
        assert seen[i] in seen;
      } else {
        assert sent[i - |seen|] in sent && e == SentEntry(sent[i - |seen|]);
      }
    }
  }

  lemma WrittenCarried(env: Env, db: Rows, first: nat, last: nat, final: bool, es: seq<Entry>)
    requires RowsCarried(env, db.observations) && forall e :: e in es ==> Carries(env.ledger, e.ref.tx, e.transfer)
    ensures RowsCarried(env, Written(db, first, last, final, es).observations)
  {
    PutCarried(env, db.observations, es, final, Put(db.observations, es, final));
    if final {
      var put := db.(observations := Put(db.observations, es, final));
      LoseKeeps(put, LostIn(put.observations, first, last, TxsOf(es)));
    }
  }

  /** The payments and the attempts a round leaves, and what they come from. */
  lemma RecordAttempts(db: Rows, first: nat, last: nat, final: bool, seen: seq<Seen>, sent: seq<Sent>)
    requires forall s :: s in seen ==> Current(db, s)
    requires Record(db, first, last, final, seen, sent).Some?
    ensures var written := Written(db, first, last, final, Entries(seen, sent));
            var d := Record(db, first, last, final, seen, sent).value;
            && d.payments == Arrive(written.payments, seen)
            && forall a :: a in d.attempts && d.attempts[a].status == Confirming ==>
                 || (a in written.attempts && written.attempts[a].status == Confirming)
                 || exists s :: s in seen && s.attempt == a && s.reason == Matched
  {
    var written := Written(db, first, last, final, Entries(seen, sent));
    var credited := Credited(written, seen);
    WrittenKeeps(db, first, last, final, Entries(seen, sent));
    StillCurrent(db, credited, seen);
    ConfirmKeeps(credited, seen);
    var d := Record(db, first, last, final, seen, sent).value;
    forall a | a in d.attempts && d.attempts[a].status == Confirming
      ensures (a in written.attempts && written.attempts[a].status == Confirming)
              || exists s :: s in seen && s.attempt == a && s.reason == Matched
    {
      ConfirmMatches(credited, seen, a);
    }
  }

  lemma BooksTold(env: Env, db: Rows, written: Rows, d: Rows, first: nat, last: nat, final: bool, seen: seq<Seen>, sent: seq<Sent>)
    requires ValidLedger(env.ledger) && RowsLinked(db) && RowsCarried(env, db.observations) && Booked(db)
    requires forall e :: e in Entries(seen, sent) ==> EntryLinked(db, e) && Carries(env.ledger, e.ref.tx, e.transfer)
    requires written == Written(db, first, last, final, Entries(seen, sent))
    requires d.observations == written.observations && d.payments == Arrive(written.payments, seen)
    ensures AllTold(d.payments, d.observations)
  {
    var es := Entries(seen, sent);
    hide Entries, EntryLinked, Carries, RowsCarried, ValidLedger, Booked, Written, RowTold, Arrive;
    WrittenBooks(env, db, first, last, final, es);
    WrittenLinked(db, first, last, final, es);
    ArriveTells(written.payments, seen);
    ArriveReceives(written.payments, seen);
    forall ref | ref in d.observations ensures RowTold(d.payments, d.observations[ref]) {
      if IsNoted(es, ref) {
        hide RowsLinked, AllLinked, IsNoted;
        NotedIsTold(db, d.observations, d.payments, seen, sent, ref) by { Disjoint(db); }
      } else {
        ToldStays(written.payments, d.payments, d.observations[ref]);
      }
    }
  }

  lemma Disjoint(db: Rows)
    requires RowsLinked(db)
    ensures AttemptsLinked(db) && RefundsLinked(db)
  {
  }

  lemma ToldStays(ps: map<PaymentId, Payment>, qs: map<PaymentId, Payment>, o: Observation)
    requires PaymentsReceive(ps, qs) && RowTold(ps, o)
    requires forall p :: p in ps && ps[p].received.Some? ==> p in qs && qs[p].received.Some?
    ensures RowTold(qs, o)
  {
    if o.payment in qs {
      assert OnlyReceived(ps[o.payment], qs[o.payment]);
    }
  }

  lemma SeenTells(env: Env, db: Rows, rows: map<Ref, Observation>, seen: seq<Seen>, sent: seq<Sent>, s: Seen)
    requires ValidLedger(env.ledger) && AllLinked(db, rows) && RowsCarried(env, rows) && AttemptsLinked(db) && RefundsLinked(db)
    requires forall e :: e in Entries(seen, sent) ==> EntryLinked(db, e) && Carries(env.ledger, e.ref.tx, e.transfer)
    requires forall ref :: IsNoted(Entries(seen, sent), ref) ==>
               ref in rows && exists e :: e in Entries(seen, sent) && e.ref == ref && FromEntry(rows[ref], e)
    requires s in seen && (s.reason == Matched || s.reason == Short)
    ensures ToldBy(rows, s.payment)
  {
    hide Entries, EntryLinked, Carries, RowsCarried, ValidLedger, AllLinked, IsNoted, AttemptsLinked, RefundsLinked;
    SeenWorth(env, db, rows, seen, sent, s);
  }

  lemma BooksReceived(env: Env, db: Rows, written: Rows, d: Rows, first: nat, last: nat, final: bool, seen: seq<Seen>, sent: seq<Sent>)
    requires ValidLedger(env.ledger) && RowsLinked(db) && RowsCarried(env, db.observations) && Booked(db)
    requires forall e :: e in Entries(seen, sent) ==> EntryLinked(db, e) && Carries(env.ledger, e.ref.tx, e.transfer)
    requires written == Written(db, first, last, final, Entries(seen, sent))
    requires d.observations == written.observations && d.payments == Arrive(written.payments, seen)
    ensures ReceivedTold(d.payments, d.observations)
  {
    var es := Entries(seen, sent);
    WrittenBooks(env, db, first, last, final, es);
    WrittenLinked(db, first, last, final, es);
    WrittenCarried(env, db, first, last, final, es);
    hide Entries, EntryLinked, Carries, RowsCarried, ValidLedger, Booked, Written, Arrive, RowTold, AllLinked, IsNoted, RowsLinked, ToldBy;
    Disjoint(db);
    hide AttemptsLinked, RefundsLinked;
    forall p | p in d.payments && d.payments[p].Open() && d.payments[p].received.Some? ensures ToldBy(d.observations, p) {
      CameFrom(written.payments, seen, p);
      if written.payments[p].received.None? {
        var s :| s in seen && s.payment == p && (s.reason == Matched || s.reason == Short);
        SeenTells(env, db, d.observations, seen, sent, s);
      }
    }
  }

  /** What a payment has received after a round it had before it, or something seen told it. */
  lemma CameFrom(ps: map<PaymentId, Payment>, seen: seq<Seen>, p: PaymentId)
    requires p in Arrive(ps, seen) && Arrive(ps, seen)[p].received.Some?
    ensures p in ps && Arrive(ps, seen)[p].Open() == ps[p].Open()
    ensures ps[p].received.Some? || exists s :: s in seen && s.payment == p && (s.reason == Matched || s.reason == Short)
  {
    ArriveTells(ps, seen);
    ArriveReceives(ps, seen);
    assert OnlyReceived(ps[p], Arrive(ps, seen)[p]);
  }

  lemma BooksConfirmed(env: Env, db: Rows, written: Rows, d: Rows, first: nat, last: nat, final: bool, seen: seq<Seen>, sent: seq<Sent>)
    requires ValidLedger(env.ledger) && RowsLinked(db) && RowsCarried(env, db.observations) && Booked(db)
    requires forall e :: e in Entries(seen, sent) ==> EntryLinked(db, e) && Carries(env.ledger, e.ref.tx, e.transfer)
    requires written == Written(db, first, last, final, Entries(seen, sent))
    requires d.observations == written.observations
    requires forall a :: a in d.attempts && d.attempts[a].status == Confirming ==>
               || (a in written.attempts && written.attempts[a].status == Confirming)
               || exists s :: s in seen && s.attempt == a && s.reason == Matched
    ensures ConfirmingBacked(d.attempts, d.observations)
  {
    var es := Entries(seen, sent);
    WrittenBooks(env, db, first, last, final, es);
    WrittenLinked(db, first, last, final, es);
    WrittenCarried(env, db, first, last, final, es);
    hide Entries, EntryLinked, Carries, RowsCarried, ValidLedger, Booked, Written, RowTold, AllLinked, IsNoted, RowsLinked;
    Disjoint(db);
    forall a | a in d.attempts && d.attempts[a].status == Confirming ensures ConfirmedBy(d.observations, a) {
      if !(a in written.attempts && written.attempts[a].status == Confirming) {
        var s :| s in seen && s.attempt == a && s.reason == Matched;
        SeenWorth(env, db, d.observations, seen, sent, s);
      }
    }
  }

  // ---- every step

  ghost predicate BooksKept(env: Env, w: World) {
    && ValidLedger(env.ledger)
    && RowsCarried(env, w.db.observations) && RoundsCarried(env, w.rounds)
    && Booked(w.db)
  }

  lemma GiveUpBooks(env: Env, db: Rows, ref: Ref)
    requires RowsLinked(db) && Booked(db) && RowsCarried(env, db.observations)
    ensures Booked(GiveUp(db, ref)) && RowsCarried(env, GiveUp(db, ref).observations)
  {
    LoseBooks(db, {ref});
    LoseKeeps(db, {ref});
  }

  /** A payment or a refund moved on, or an attempt nobody confirmed did: no payment opens that rows stand for. */
  lemma QuietBooks(db: Rows, d: Rows)
    requires Booked(db) && RowsLinked(db) && d.observations == db.observations
    requires forall p :: p in d.payments && d.payments[p].Open() ==>
               if p in db.payments && db.payments[p].Open() then d.payments[p].received == db.payments[p].received
               else d.payments[p].received.None? && (p in db.payments ==> db.payments[p].status == Created)
    requires forall a :: a in d.attempts && d.attempts[a].status == Confirming ==>
               a in db.attempts && db.attempts[a].status == Confirming
    ensures Booked(d)
  {
    forall ref | ref in d.observations ensures RowTold(d.payments, d.observations[ref]) {
      assert RowLinked(db, ref, db.observations[ref]) && RowTold(db.payments, db.observations[ref]);
    }
    forall p | p in d.payments && d.payments[p].Open() && d.payments[p].received.Some? ensures ToldBy(d.observations, p) {
      assert ToldBy(db.observations, p);
    }
    forall a | a in d.attempts && d.attempts[a].status == Confirming ensures ConfirmedBy(d.observations, a) {
      assert ConfirmedBy(db.observations, a);
    }
  }

  /** A payment just opened has received nothing until it awaits payment, and rows stand for none before. */
  ghost predicate CreatedEmpty(w: World) {
    && (forall p :: p in w.db.payments && w.db.payments[p].status == Created ==> w.db.payments[p].received.None?)
  }

  lemma SaveBooks(db: Rows, d: Decision)
    requires RowsLinked(db) && Booked(db) && DecisionLinked(db, d)
    requires forall p :: p in db.payments && db.payments[p].status == Created ==> db.payments[p].received.None?
    ensures var after := SavePayment(db, d.id, d.moved, d.read.version); after.Some? ==> Booked(after.value)
  {
    var after := SavePayment(db, d.id, d.moved, d.read.version);
    if after.Some? {
      QuietBooks(db, after.value);
    }
  }

  lemma WorkerBooks(env: Env, w: World, m: WorkerMove)
    requires WorkerMoves(w, m) && Consistent(w) && BooksKept(env, w) && CreatedEmpty(w)
    ensures BooksKept(env, AfterWorker(w, m))
  {
    hide Grounds, RefundGrounds, Booked, RowsLinked, RowsCarried, GiveUp, ValidLedger, RoundsCarried, SavePayment;
    match m
    case Save(d) => SaveBooks(w.db, d); SaveKeepsRows(w.db, d);
    case SaveReturn(d) => SaveReturnBooks(w.db, d);
    case GiveUpOn(ref) => GiveUpBooks(env, w.db, ref);
    case _ =>
  }

  lemma SaveKeepsRows(db: Rows, d: Decision)
    ensures var after := SavePayment(db, d.id, d.moved, d.read.version);
            after.Some? ==> after.value.observations == db.observations
  {
  }

  lemma SaveReturnBooks(db: Rows, d: Return)
    requires RowsLinked(db) && Booked(db)
    ensures var after := SaveRefund(db, d.id, d.to, d.read.version);
            after.Some? ==> Booked(after.value) && after.value.observations == db.observations
  {
  }

  predicate ConfirmsNone(db: Rows, d: Rows) {
    && d.observations == db.observations
    && forall a :: a in d.attempts && d.attempts[a].status == Confirming ==>
         a in db.attempts && db.attempts[a].status == Confirming
  }

  lemma IssueConfirms(w: World, c: nat, attempt: Option<Attempt>, id: AttemptId)
    requires attempt.Some? ==> attempt.value.status == Issued
    ensures ConfirmsNone(w.db, DoIssue(w, c, attempt, id).db)
  {
    hide HasLive;
  }

  lemma SupersedeConfirms(w: World, c: nat, a: AttemptId, read: Attempt)
    ensures ConfirmsNone(w.db, DoSupersede(w, c, a, read).db)
  {
  }

  /** A request's statement confirms no attempt. */
  lemma ProceedConfirms(env: Env, w: World, c: nat, now: Time, id: AttemptId, key: Key)
    requires c in w.calls && Runs(env, w, w.calls[c], id, key)
    ensures ConfirmsNone(w.db, DoProceed(w, c, now, id, key).db)
  {
    hide Held, HasLive, Runs, DoIssue, DoSupersede;
    match w.calls[c]
    case IssueWatched(p, e) => IssueConfirms(w, c, NewAttempt(p, e, now, key), id);
    case SupersedeCounted(a, read) => SupersedeConfirms(w, c, a, read);
    case _ =>
  }

  lemma ProceedBooks(env: Env, w: World, c: nat, now: Time, id: AttemptId, key: Key)
    requires c in w.calls && Runs(env, w, w.calls[c], id, key) && CallLinked(w.db, w.calls[c])
    requires RowsLinked(w.db) && Booked(w.db)
    ensures Booked(DoProceed(w, c, now, id, key).db)
  {
    ProceedRows(env, w, c, now, id, key);
    ProceedConfirms(env, w, c, now, id, key);
    hide RowsLinked, Booked, DoProceed, Runs, CallLinked;
    QuietBooks(w.db, DoProceed(w, c, now, id, key).db);
  }

  lemma OpenBooks(db: Rows, p: PaymentId, row: Payment)
    requires RowsLinked(db) && Booked(db) && p !in db.payments && row.status == Created
    ensures Booked(db.(payments := db.payments[p := row]))
  {
    QuietBooks(db, db.(payments := db.payments[p := row]));
  }

  lemma RequestBooks(env: Env, w: World, m: RequestMove)
    requires RequestMoves(env, w, m) && Consistent(w) && BooksKept(env, w)
    ensures BooksKept(env, AfterRequest(env, w, m))
  {
    RequestLeaves(env, w, m);
    hide Booked, RowsLinked, RowsCarried, ValidLedger, RoundsCarried, DoProceed, Runs;
    if m.Proceed? {
      assert CallLinked(w.db, w.calls[m.call]);
      ProceedBooks(env, w, m.call, m.now, m.id, m.key);
    } else if m.Open? {
      OpenBooks(w.db, m.payment, m.row);
    }
  }

  lemma ReceiptCarried(env: Env, work: Work, at: Place)
    requires work.Receiving? && work.todo != [] && WorkCarried(env, work)
    ensures WorkCarried(env, Received(env, work.todo[0], at, work))
  {
    var x := work.todo[0];
    var ts := if x in env.ledger then env.ledger[x] else [];
    forall s | s in SeenIn(ts, x, at, work.against) ensures Carries(env.ledger, s.tx, s.transfer) {
      SeenInExact(ts, x, at, work.against, s);
      var t :| t in ts && SeenOf(t, x, at, work.against) == Some(s);
    }
    forall s | s in SentIn(ts, x, at, work.against, work.back) ensures Carries(env.ledger, s.tx, s.transfer) {
      SentInExact(ts, x, at, work.against, work.back, s);
      var t :| t in ts && SentOf(t, x, at, work.against, work.back) == Some(s);
    }
  }

  lemma ObserverCarried(env: Env, w: World, m: ObserverMove)
    requires ObserverMoves(w, m) && RoundsCarried(env, w.rounds)
    ensures RoundsCarried(env, AfterObserver(env, w, m).rounds)
  {
    if m.Receipt? {
      var work := w.rounds[m.observer].work;
      ReceiptIs(env, w, m.observer);
      hide DoReceipt, Received, Find;
      if Find(w.chain, work.todo[0]).Some? {
        ReceiptCarried(env, work, Find(w.chain, work.todo[0]).value);
      }
    } else if m.Write? {
      RoundGone(w, m.observer);
    }
  }

  lemma RoundGone(w: World, i: nat)
    requires Reads(w, i) && w.rounds[i].work.Receiving?
    ensures var v := DoWrite(w, i);
            forall j :: j in v.rounds ==> v.rounds[j].Between? || (j in w.rounds && v.rounds[j] == w.rounds[j])
  {
    hide Record;
  }

  lemma WriteBooks(env: Env, w: World, i: nat)
    requires Reads(w, i) && w.rounds[i].work.Receiving? && WorkLinked(w.db, w.rounds[i].work)
    requires RowsLinked(w.db) && BooksKept(env, w)
    ensures Booked(DoWrite(w, i).db) && RowsCarried(env, DoWrite(w, i).db.observations)
  {
    var r, work := w.rounds[i], w.rounds[i].work;
    assert WorkCarried(env, work);
    var recorded := Record(w.db, r.first, r.last, r.Settling?, work.seen, work.sent);
    hide Booked, RowsLinked, RowsCarried, Record;
    if recorded.Some? {
      RecordBooks(env, w.db, r.first, r.last, r.Settling?, work.seen, work.sent);
      BookedOnly(recorded.value, recorded.value.(cursor := DoWrite(w, i).db.cursor));
    }
  }

  lemma BookedOnly(db: Rows, d: Rows)
    requires Booked(db) && d.payments == db.payments && d.attempts == db.attempts && d.observations == db.observations
    ensures Booked(d)
  {
  }

  lemma ObserverBooked(env: Env, w: World, m: ObserverMove)
    requires ObserverMoves(w, m) && RowsLinked(w.db) && RoundsLinked(w.db, w.rounds) && BooksKept(env, w)
    ensures Booked(AfterObserver(env, w, m).db) && RowsCarried(env, AfterObserver(env, w, m).db.observations)
  {
    hide Booked, RowsLinked, RoundsLinked, RowsCarried, ValidLedger, RoundsCarried, WorkLinked, DoWrite, BeginRound,
         KeysIn, Against, Backs, Transactions, Find, SeenIn, SentIn;
    if m.Write? {
      RoundWork(w, m.observer);
      WriteBooks(env, w, m.observer);
    } else {
      BookedOnly(w.db, AfterObserver(env, w, m).db);
    }
  }

  lemma ObserverBooks(env: Env, w: World, m: ObserverMove)
    requires ObserverMoves(w, m) && Consistent(w) && BooksKept(env, w)
    ensures BooksKept(env, AfterObserver(env, w, m))
  {
    ObserverCarried(env, w, m);
    LinkedOf(w);
    hide Consistent, AfterObserver, ObserverMoves, Booked;
    ObserverBooked(env, w, m);
  }

  lemma CreatedStays(env: Env, w: World, s: Step, v: World)
    requires Next(env, w, s, v) && Consistent(w) && CreatedEmpty(w)
    ensures CreatedEmpty(v)
  {
    match s
    case ByChain(m) =>
    case ByWorker(m) => WorkerCreated(w, m);
    case ByRequest(m) => RequestCreated(env, w, m);
    case ByObserver(m) => ObserverCreated(env, w, m);
  }

  lemma WorkerCreated(w: World, m: WorkerMove)
    requires WorkerMoves(w, m) && Consistent(w) && CreatedEmpty(w)
    ensures CreatedEmpty(AfterWorker(w, m))
  {
    hide Grounds, RefundGrounds, RowsLinked, RoundsLinked, CallsLinked;
    if m.GiveUpOn? {
      LoseKeeps(w.db, {m.ref});
      ReceivedCreated(w.db, AfterWorker(w, m).db);
    } else if m.Save? {
      assert DecisionLinked(w.db, m.decision);
    }
  }

  lemma ReceivedCreated(db: Rows, d: Rows)
    requires d == db || PaymentsReceive(db.payments, d.payments)
    requires forall p :: p in db.payments && db.payments[p].status == Created ==> db.payments[p].received.None?
    ensures forall p :: p in d.payments && d.payments[p].status == Created ==> d.payments[p].received.None?
  {
    forall p | p in d.payments && d.payments[p].status == Created ensures d.payments[p].received.None? {
      assert d == db || OnlyReceived(db.payments[p], d.payments[p]);
    }
  }

  lemma RequestCreated(env: Env, w: World, m: RequestMove)
    requires RequestMoves(env, w, m) && Consistent(w) && CreatedEmpty(w)
    ensures CreatedEmpty(AfterRequest(env, w, m))
  {
    hide DoProceed, Runs, RowsLinked;
    if m.Proceed? {
      assert CallLinked(w.db, w.calls[m.call]);
      LinkedOf(w);
      ProceedRows(env, w, m.call, m.now, m.id, m.key);
    }
  }

  lemma LinkedOf(w: World)
    requires Consistent(w)
    ensures RowsLinked(w.db) && RoundsLinked(w.db, w.rounds)
  {
  }

  lemma ObserverCreated(env: Env, w: World, m: ObserverMove)
    requires ObserverMoves(w, m) && Consistent(w) && CreatedEmpty(w)
    ensures CreatedEmpty(AfterObserver(env, w, m))
  {
    if m.Write? {
      LinkedOf(w);
      hide Consistent, RoundsLinked, RowsLinked, DoWrite, WorkLinked;
      RoundWork(w, m.observer);
      var d := Wrote(w, m.observer);
      ReceivedCreated(w.db, DoWrite(w, m.observer).db);
    }
  }

  lemma BooksStep(env: Env, w: World, s: Step, v: World)
    requires Next(env, w, s, v) && Consistent(w) && BooksKept(env, w) && CreatedEmpty(w)
    ensures BooksKept(env, v)
  {
    hide Consistent, AfterWorker, AfterRequest, AfterObserver, CreatedEmpty;
    match s
    case ByChain(m) =>
    case ByWorker(m) => WorkerBooks(env, w, m);
    case ByRequest(m) => RequestBooks(env, w, m);
    case ByObserver(m) => ObserverBooks(env, w, m);
  }

  lemma {:induction false} BooksRun(env: Env, ws: seq<World>, ss: seq<Step>, i: nat)
    requires Run(env, ws, ss) && i < |ws|
    ensures BooksKept(env, ws[i]) && CreatedEmpty(ws[i])
  {
    hide Next, Consistent;
    if i > 0 {
      hide BooksKept, CreatedEmpty;
      BooksRun(env, ws, ss, i - 1);
      ConsistentRun(env, ws, ss, i - 1);
      BooksStep(env, ws[i - 1], ss[i - 1], ws[i]);
      CreatedStays(env, ws[i - 1], ss[i - 1], ws[i]);
    }
  }

  // ---- the theorem, and where it stops

  /** A row read again at or past its deadline, or with a value nobody can read: it says nothing arrived, and may have. */
  predicate Doubtful(o: Observation) { o.reason == Late || (o.reason == Short && o.transfer.value.None?) }

  ghost predicate DoubtfulStands(rows: map<Ref, Observation>, p: PaymentId) {
    exists ref :: ref in rows && OfAttempts(rows[ref], p) && Doubtful(rows[ref])
  }

  /**
   Over every run, while a payment can still receive: a row that tells of an
   arrival standing for it means it has received, and having received means such
   a row stands, or a doubtful one does. An attempt confirms only while a row
   stands that matched it.
   */
  lemma BookkeepingTheorem(env: Env, ws: seq<World>, ss: seq<Step>, i: nat, p: PaymentId)
    requires Run(env, ws, ss) && i < |ws| && p in ws[i].db.payments && ws[i].db.payments[p].Open()
    ensures var db := ws[i].db;
            && (TellingStands(db.observations, p) ==> db.payments[p].received.Some?)
            && (db.payments[p].received.Some? ==>
                  TellingStands(db.observations, p) || DoubtfulStands(db.observations, p))
    ensures forall a :: a in ws[i].db.attempts && ws[i].db.attempts[a].status == Confirming ==>
              ConfirmedBy(ws[i].db.observations, a)
  {
    hide Next;
    BooksRun(env, ws, ss, i);
    hide Run, RowsCarried, RoundsCarried, ValidLedger;
    var db := ws[i].db;
    if TellingStands(db.observations, p) {
      var ref :| ref in db.observations && OfAttempts(db.observations[ref], p) && Tells(db.observations[ref]);
      assert RowTold(db.payments, db.observations[ref]);
    }
    if db.payments[p].received.Some? {
      var ref :| ref in db.observations && OfAttempts(db.observations[ref], p) && MayHaveTold(db.observations[ref]);
      assert Tells(db.observations[ref]) || Doubtful(db.observations[ref]);
    }
  }

  /** A row called late is in a block at or past the deadline of the attempt it stands against. */
  predicate LateIsPast(db: Rows, o: Observation) {
    o.against.ForAttempt? && o.reason == Late ==>
      o.against.attempt in db.attempts && o.place.time >= db.attempts[o.against.attempt].validBefore
  }

  /**
   So where no doubtful row stands, what a payment received is set exactly while
   a row that tells of it stands. A late row of an open payment is in a block at
   or past its attempt's deadline: a payer who signs the deadline that was offered
   leaves none.
   */
  lemma ReceivedExactly(env: Env, ws: seq<World>, ss: seq<Step>, i: nat, p: PaymentId)
    requires Run(env, ws, ss) && i < |ws| && p in ws[i].db.payments && ws[i].db.payments[p].Open()
    ensures !DoubtfulStands(ws[i].db.observations, p) ==>
              (ws[i].db.payments[p].received.Some? <==> TellingStands(ws[i].db.observations, p))
    ensures forall ref :: ref in ws[i].db.observations && OfAttempts(ws[i].db.observations[ref], p) ==>
              LateIsPast(ws[i].db, ws[i].db.observations[ref])
  {
    hide Next;
    BookkeepingTheorem(env, ws, ss, i, p);
    ConsistentRun(env, ws, ss, i);
    var db := ws[i].db;
    LinkedOf(ws[i]);
    hide Run, TellingStands, DoubtfulStands;
    forall ref | ref in db.observations && OfAttempts(db.observations[ref], p) ensures LateIsPast(db, db.observations[ref]) {
      LinkedAt(db, ref);
    }
  }
}
