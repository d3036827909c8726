/** Exactly which steps leave what a payment received unlike what its rows say. */
module Agreement {
  import opened Basics
  import opened Lifecycle
  import opened Records
  import opened Evidence
  import opened Tables
  import opened Chains
  import opened Reading
  import opened RowFacts
  import opened Protocol
  import opened Consistency
  import opened Reachable
  import opened Observing
  import opened ReadOnce
  import opened Writing
  import opened Bookkeeping
  import opened Arrivals

  /** While a payment can receive, it has received exactly when a row stands that tells it so. */
  ghost predicate Agrees(db: Rows, p: PaymentId)
    requires p in db.payments
  {
    db.payments[p].Open() ==> (db.payments[p].received.Some? <==> TellingStands(db.observations, p))
  }

  /** A short row whose value nobody can read: it tells of nothing, and is counted as standing. */
  predicate Unreadable(o: Observation) { o.reason == Short && o.transfer.value.None? }

  // ---- rows lost

  ghost predicate TellsBeside(rows: map<Ref, Observation>, lost: set<Ref>, p: PaymentId) {
    exists ref :: ref in rows && ref !in lost && OfAttempts(rows[ref], p) && Tells(rows[ref])
  }

  ghost predicate UnreadableBeside(rows: map<Ref, Observation>, lost: set<Ref>, p: PaymentId) {
    exists ref :: ref in rows && ref !in lost && OfAttempts(rows[ref], p) && Unreadable(rows[ref])
  }

  ghost predicate LosesOne(rows: map<Ref, Observation>, lost: set<Ref>, p: PaymentId) {
    exists ref :: ref in rows && ref in lost && OfAttempts(rows[ref], p)
  }

  /** Everything that told a payment is lost, and an unreadable short row is not. */
  ghost predicate StrandsLosing(db: Rows, lost: set<Ref>, p: PaymentId)
    requires p in db.payments
  {
    && db.payments[p].Open() && db.payments[p].received.Some?
    && !TellsBeside(db.observations, lost, p) && UnreadableBeside(db.observations, lost, p)
  }

  lemma MarkedTells(rows: map<Ref, Observation>, lost: set<Ref>, p: PaymentId)
    ensures TellingStands(Mark(rows, lost), p) <==> TellsBeside(rows, lost, p)
  {
    var marked := Mark(rows, lost);
    if TellingStands(marked, p) {
      var ref :| ref in marked && OfAttempts(marked[ref], p) && Tells(marked[ref]);
      assert marked[ref] == rows[ref];
    }
    if TellsBeside(rows, lost, p) {
      var ref :| ref in rows && ref !in lost && OfAttempts(rows[ref], p) && Tells(rows[ref]);
      assert marked[ref] == rows[ref];
    }
  }

  /** What counts as standing for an open payment is a row that tells, or an unreadable one. */
  lemma ArrivalIs(db: Rows, lost: set<Ref>, p: PaymentId)
    requires RowsLinked(db) && p in db.payments && db.payments[p].Open()
    ensures ArrivalStands(Mark(db.observations, lost), p) <==>
              TellsBeside(db.observations, lost, p) || UnreadableBeside(db.observations, lost, p)
  {
    var rows, marked := db.observations, Mark(db.observations, lost);
    if ArrivalStands(marked, p) {
      var ref :| ref in marked && marked[ref].payment == p && (marked[ref].reason == Matched || marked[ref].reason == Short);
      assert marked[ref] == rows[ref] && ref !in lost;
      OfOpenPayment(db, ref);
      assert Tells(rows[ref]) || Unreadable(rows[ref]);
    }
    if ref :| ref in rows && ref !in lost && OfAttempts(rows[ref], p) && (Tells(rows[ref]) || Unreadable(rows[ref])) {
      assert marked[ref] == rows[ref];
    }
  }

  /** What a payment has received after rows are lost. */
  lemma LostReceived(db: Rows, lost: set<Ref>, p: PaymentId)
    requires RowsLinked(db) && p in db.payments && db.payments[p].Open()
    ensures var d := Lose(db, lost);
            && p in d.payments && d.payments[p].Open()
            && (d.payments[p].received.Some? <==>
                  && db.payments[p].received.Some?
                  && (LosesOne(db.observations, lost, p) ==>
                        TellsBeside(db.observations, lost, p) || UnreadableBeside(db.observations, lost, p)))
  {
    ArrivalIs(db, lost, p);
    hide RowsLinked, TellsBeside, UnreadableBeside, ArrivalStands;
    if LosesOne(db.observations, lost, p) {
      assert p in LostPayments(db.observations, lost);
    }
  }

  /** Taking back for what was lost keeps the agreement, unless an unreadable short row is all that is left. */
  lemma LosingExactly(db: Rows, lost: set<Ref>, p: PaymentId)
    requires RowsLinked(db) && p in db.payments && Agrees(db, p)
    ensures p in Lose(db, lost).payments
    ensures Agrees(Lose(db, lost), p) <==> !StrandsLosing(db, lost, p)
  {
    var d := Lose(db, lost);
    LoseKeeps(db, lost);
    assert OnlyReceived(db.payments[p], d.payments[p]);
    if db.payments[p].Open() {
      LostReceived(db, lost, p);
      MarkedTells(db.observations, lost, p);
      if db.payments[p].received.Some? {
        var ref :| ref in db.observations && OfAttempts(db.observations[ref], p) && Tells(db.observations[ref]);
        assert ref in lost || TellsBeside(db.observations, lost, p);
      }
    }
  }

  // ---- rows read again

  function NotedIn(es: seq<Entry>): set<Ref> { set i | 0 <= i < |es| :: es[i].ref }

  /** The rows a round over a span no longer finds there, which only a final one takes back. */
  function LostBy(rows: map<Ref, Observation>, first: nat, last: nat, final: bool, es: seq<Entry>): set<Ref> {
    if final then LostIn(rows, first, last, TxsOf(es)) else {}
  }

  predicate SeenUnreadable(s: Seen) { s.reason == Short && s.transfer.value.None? }

  ghost predicate SaysSo(seen: seq<Seen>, p: PaymentId) { exists s :: s in seen && s.payment == p && SaysArrived(s) }

  ghost predicate SaysUnreadable(seen: seq<Seen>, p: PaymentId) { exists s :: s in seen && s.payment == p && SeenUnreadable(s) }

  lemma NotedIs(es: seq<Entry>, ref: Ref)
    ensures ref in NotedIn(es) <==> IsNoted(es, ref)
  {
    if e :| e in es && e.ref == ref {
      var i :| 0 <= i < |es| && es[i] == e;
    }
  }

  lemma UnnotedStays(rows: map<Ref, Observation>, es: seq<Entry>, final: bool, ref: Ref)
    requires ref !in NotedIn(es)
    ensures ref in Put(rows, es, final) <==> ref in rows
    ensures ref in rows ==> Put(rows, es, final)[ref] == rows[ref]
  {
    NotedIs(es, ref);
    PutExact(rows, es, final);
    hide Put, NotedIn;
    if ref in Put(rows, es, final) {
      assert PutFrom(rows, es, final, ref, Put(rows, es, final)[ref]);
    }
  }

  /** What is written is not lost, so what is lost can be told before anything is written. */
  lemma LostBefore(rows: map<Ref, Observation>, first: nat, last: nat, final: bool, es: seq<Entry>)
    ensures var lost := LostBy(rows, first, last, final, es);
            LostBy(Put(rows, es, final), first, last, final, es) == lost && lost !! NotedIn(es)
  {
    var put := Put(rows, es, final);
    var lost, after := LostBy(rows, first, last, final, es), LostBy(put, first, last, final, es);
    hide Put;
    forall ref ensures ref in lost <==> ref in after {
      if ref in NotedIn(es) {
        NotedIs(es, ref);
        NotedIsNotLost(rows, first, last, es, ref);
        NotedIsNotLost(put, first, last, es, ref);
      } else {
        UnnotedStays(rows, es, final, ref);
      }
    }
    forall ref | ref in NotedIn(es) ensures ref !in lost {
      NotedIs(es, ref);
      NotedIsNotLost(rows, first, last, es, ref);
    }
  }

  /** What was seen of an attempt is what its row says. */
  lemma SeenIsRow(db: Rows, seen: seq<Seen>, sent: seq<Sent>, final: bool, put: map<Ref, Observation>, s: Seen)
    requires RowsLinked(db) && EntriesAgree(Entries(seen, sent)) && put == Put(db.observations, Entries(seen, sent), final)
    requires forall e :: e in Entries(seen, sent) ==> EntryLinked(db, e)
    requires s in seen
    ensures var ref := SeenEntry(s).ref;
            && ref in put && ref in NotedIn(Entries(seen, sent)) && OfAttempts(put[ref], s.payment)
            && put[ref].against == ForAttempt(s.attempt)
            && put[ref].reason == s.reason && put[ref].transfer == s.transfer
  {
    var es, e := Entries(seen, sent), SeenEntry(s);
    hide Put, RowsLinked, EntryLinked;
    var i :| 0 <= i < |seen| && seen[i] == s;
    assert es[i] == e && e in es;
    NotedIs(es, e.ref);
    OnlyEntry(db.observations, es, final, e);
    Disjoint(db);
    assert AllLinked(db, db.observations) by { ObservedLinked(db); }
    PutLinked(db, db.observations, es, final);
    LinkedEntry(db, e);
    SameSubject(db, e.ref, put[e.ref], EntryRow(e));
  }

  lemma ObservedLinked(db: Rows)
    requires RowsLinked(db)
    ensures AllLinked(db, db.observations)
  {
  }

  /** A row of an attempt that was written says what was seen of it. */
  lemma RowIsSeen(db: Rows, seen: seq<Seen>, sent: seq<Sent>, final: bool, put: map<Ref, Observation>, ref: Ref)
    returns (s: Seen)
    requires RowsLinked(db) && EntriesAgree(Entries(seen, sent)) && put == Put(db.observations, Entries(seen, sent), final)
    requires forall e :: e in Entries(seen, sent) ==> EntryLinked(db, e)
    requires ref in put && ref in NotedIn(Entries(seen, sent)) && put[ref].against.ForAttempt?
    ensures put[ref].against == ForAttempt(s.attempt) && put[ref].place == s.place
    ensures s in seen && s.payment == put[ref].payment && s.reason == put[ref].reason && s.transfer == put[ref].transfer
    ensures s.reason == Matched ==> s.transfer.value.Some?
  {
    var es := Entries(seen, sent);
    hide Put, RowsLinked, EntryLinked;
    var i :| 0 <= i < |es| && es[i].ref == ref;
    var e := es[i];
    OnlyEntry(db.observations, es, final, e);
    Disjoint(db);
    assert AllLinked(db, db.observations) by { ObservedLinked(db); }
    PutLinked(db, db.observations, es, final);
    LinkedEntry(db, e);
    SameSubject(db, ref, put[ref], EntryRow(e));
    SentOfRefunds(seen, sent, i);
    MatchedIsReadable(db, e);
    s := seen[i];
  }

  lemma SentOfRefunds(seen: seq<Seen>, sent: seq<Sent>, i: nat)
    requires i < |seen| + |sent| && Entries(seen, sent)[i].against.ForAttempt?
    ensures i < |seen| && Entries(seen, sent)[i] == SeenEntry(seen[i])
  {
    var es := Entries(seen, sent);
    forall k | |seen| <= k < |es| ensures es[k].against.ForRefund? {
      assert es[|seen| + (k - |seen|)] == SentEntry(sent[k - |seen|]);
    }
  }

  /** What matched an attempt could be read. */
  lemma MatchedIsReadable(db: Rows, e: Entry)
    requires EntryLinked(db, e)
    ensures e.against.ForAttempt? && e.reason == Matched ==> e.transfer.value.Some?
  {
  }

  /** Which rows tell once a round is written: those that told and were neither lost nor read again, and what was seen. */
  lemma PutTells(db: Rows, seen: seq<Seen>, sent: seq<Sent>, final: bool, put: map<Ref, Observation>, lost: set<Ref>, p: PaymentId)
    requires RowsLinked(db) && EntriesAgree(Entries(seen, sent)) && put == Put(db.observations, Entries(seen, sent), final)
    requires forall e :: e in Entries(seen, sent) ==> EntryLinked(db, e)
    requires lost !! NotedIn(Entries(seen, sent))
    ensures var kept := lost + NotedIn(Entries(seen, sent));
            && (TellsBeside(put, lost, p) <==> TellsBeside(db.observations, kept, p) || SaysSo(seen, p))
            && (UnreadableBeside(put, lost, p) <==> UnreadableBeside(db.observations, kept, p) || SaysUnreadable(seen, p))
            && (LosesOne(put, lost, p) <==> LosesOne(db.observations, lost, p))
  {
    var es := Entries(seen, sent);
    var rows, noted := db.observations, NotedIn(es);
    hide Put, RowsLinked, EntryLinked, Entries, NotedIn, EntriesAgree;
    forall ref | ref !in noted ensures (ref in put <==> ref in rows) && (ref in rows ==> put[ref] == rows[ref]) {
      UnnotedStays(rows, es, final, ref);
    }
    forall ref | ref in put && ref in noted && OfAttempts(put[ref], p)
      ensures Tells(put[ref]) ==> SaysSo(seen, p)
      ensures Unreadable(put[ref]) ==> SaysUnreadable(seen, p)
    {
      var s := RowIsSeen(db, seen, sent, final, put, ref);
    }
    forall s | s in seen && s.payment == p
      ensures SaysArrived(s) ==> TellsBeside(put, lost, p)
      ensures SeenUnreadable(s) ==> UnreadableBeside(put, lost, p)
    {
      SeenIsRow(db, seen, sent, final, put, s);
    }
  }

  /** A row that told, read again, tells again or is in a block at or past its attempt's deadline. */
  lemma RereadTellsOrLate(env: Env, db: Rows, ref: Ref, s: Seen)
    requires ValidLedger(env.ledger) && RowsLinked(db) && ref in db.observations && SeenEntry(s).ref == ref
    requires Tells(db.observations[ref]) && OfAttempts(db.observations[ref], s.payment) && db.payments[s.payment].Open()
    requires Carries(env.ledger, ref.tx, db.observations[ref].transfer) && Carries(env.ledger, s.tx, s.transfer)
    requires SeenLinked(db, s)
    ensures SaysArrived(s) || (s.reason == Late && s.place.time >= db.attempts[s.attempt].validBefore)
  {
    var o := db.observations[ref];
    LinkedAt(db, ref);
    SameTransfer(env, ref.tx, o.transfer, s.transfer);
    assert db.attempts[o.against.attempt].key == db.attempts[s.attempt].key;
    assert o.against.attempt == s.attempt;
  }

  // ---- crediting

  /** What a payment that can receive has received after what was seen is credited. */
  lemma {:induction false} ArriveExactly(ps: map<PaymentId, Payment>, seen: seq<Seen>, p: PaymentId)
    requires p in ps && ps[p].Open()
    ensures var qs := Arrive(ps, seen);
            p in qs && qs[p].Open() && (qs[p].received.Some? <==> ps[p].received.Some? || SaysSo(seen, p))
  {
    if seen != [] {
      var front, last := seen[..|seen| - 1], seen[|seen| - 1];
      ArriveExactly(ps, front, p);
      assert seen == front + [last];
      assert SaysSo(seen, p) <==> SaysSo(front, p) || (last.payment == p && SaysArrived(last));
    }
  }

  // ---- a round

  /**
   A round after which nothing tells an open payment of what it has received:
   whatever did was lost or read again as something else, and either an unreadable
   short row stands or nothing of the payment was lost.
   */
  ghost predicate StrandsReading(db: Rows, first: nat, last: nat, final: bool, seen: seq<Seen>, sent: seq<Sent>, p: PaymentId)
    requires p in db.payments
  {
    var es := Entries(seen, sent);
    var lost := LostBy(db.observations, first, last, final, es);
    && db.payments[p].Open() && db.payments[p].received.Some?
    && !TellsBeside(db.observations, lost + NotedIn(es), p) && !SaysSo(seen, p)
    && (|| UnreadableBeside(db.observations, lost + NotedIn(es), p) || SaysUnreadable(seen, p)
        || !LosesOne(db.observations, lost, p))
  }

  lemma WrittenReceived(db: Rows, first: nat, last: nat, final: bool, es: seq<Entry>, p: PaymentId)
    requires RowsLinked(db) && p in db.payments && db.payments[p].Open()
    requires forall e :: e in es ==> EntryLinked(db, e)
    ensures var put, w := Put(db.observations, es, final), Written(db, first, last, final, es);
            var lost := LostBy(db.observations, first, last, final, es);
            && p in w.payments && w.payments[p].Open()
            && (w.payments[p].received.Some? <==>
                  && db.payments[p].received.Some?
                  && (LosesOne(put, lost, p) ==> TellsBeside(put, lost, p) || UnreadableBeside(put, lost, p)))
            && (TellingStands(w.observations, p) <==> TellsBeside(put, lost, p))
  {
    var put := Put(db.observations, es, final);
    var lost := LostBy(db.observations, first, last, final, es);
    PutRowsLinked(db, es, final);
    LostBefore(db.observations, first, last, final, es);
    var pdb := db.(observations := put);
    hide RowsLinked, EntryLinked, Put, Lose, TellsBeside, UnreadableBeside, LosesOne;
    if final {
      LostReceived(pdb, lost, p);
      LoseKeeps(pdb, lost);
      MarkedTells(put, lost, p);
    } else {
      MarkedTells(put, {}, p);
      assert Mark(put, {}) == put;
      NothingLost(put, p);
    }
  }

  lemma NothingLost(rows: map<Ref, Observation>, p: PaymentId)
    ensures !LosesOne(rows, {}, p)
  {
  }

  /** A round keeps the agreement exactly where it does not strand what was received. */
  lemma ReadingExactly(db: Rows, first: nat, last: nat, final: bool, seen: seq<Seen>, sent: seq<Sent>, p: PaymentId)
    requires RowsLinked(db) && p in db.payments && Agrees(db, p)
    requires forall s :: s in seen ==> SeenLinked(db, s)
    requires forall s :: s in sent ==> SentLinked(db, s)
    requires EntriesAgree(Entries(seen, sent)) && Record(db, first, last, final, seen, sent).Some?
    ensures var d := Record(db, first, last, final, seen, sent).value;
            p in d.payments && (Agrees(d, p) <==> !StrandsReading(db, first, last, final, seen, sent, p))
  {
    var es, d := Entries(seen, sent), Record(db, first, last, final, seen, sent).value;
    var put, lost := Put(db.observations, es, final), LostBy(db.observations, first, last, final, es);
    LinkedIsCurrent(db, seen);
    RecordKeeps(db, first, last, final, seen, sent);
    assert OnlyReceived(db.payments[p], d.payments[p]);
    if db.payments[p].Open() {
      EntriesLinked(db, seen, sent);
      RecordObservations(db, first, last, final, seen, sent);
      RecordAttempts(db, first, last, final, seen, sent);
      LostBefore(db.observations, first, last, final, es);
      hide RowsLinked, EntryLinked, SeenLinked, SentLinked, Record, Written, Put, EntriesAgree, NotedIn, LostBy, Arrive,
           PaymentsReceive, AttemptsSeen, Entries;
      PutTells(db, seen, sent, final, put, lost, p);
      WrittenReceived(db, first, last, final, es, p);
      ArriveExactly(Written(db, first, last, final, es).payments, seen, p);
      SomethingWent(db.observations, lost, NotedIn(es), p);
    }
  }

  /** What told and no longer does was lost or read again. */
  lemma SomethingWent(rows: map<Ref, Observation>, lost: set<Ref>, noted: set<Ref>, p: PaymentId)
    ensures TellsBeside(rows, lost + noted, p) ==> TellingStands(rows, p)
  {
  }

  // ---- every step of every run

  /** The steps that leave what a payment received unlike what its rows say. */
  ghost predicate Strands(w: World, s: Step, p: PaymentId)
    requires p in w.db.payments
  {
    match s
    case ByObserver(Write(i)) =>
      && Reads(w, i) && w.rounds[i].work.Receiving? && Writes(w, i)
      && StrandsReading(w.db, w.rounds[i].first, w.rounds[i].last, w.rounds[i].Settling?,
                        w.rounds[i].work.seen, w.rounds[i].work.sent, p)
    case ByWorker(GiveUpOn(ref)) =>
      ref in w.db.observations && Stands(w.db.observations[ref]) && StrandsLosing(w.db, {ref}, p)
    case _ => false
  }

  /** The round's transaction goes through: everything fits a row, no attempt moved on, and the cursor did not. */
  ghost predicate Writes(w: World, i: nat)
    requires Reads(w, i) && w.rounds[i].work.Receiving?
  {
    var r, work := w.rounds[i], w.rounds[i].work;
    && Record(w.db, r.first, r.last, r.Settling?, work.seen, work.sent).Some?
    && (r.Settling? ==> AdvancesFrom(w.db, r.from))
    && (r.Ahead? ==> work.seen != [] || work.sent != [])
  }

  lemma WriteIs(w: World, i: nat)
    requires Reads(w, i) && w.rounds[i].work.Receiving? && WorkLinked(w.db, w.rounds[i].work)
    ensures var r, work, v := w.rounds[i], w.rounds[i].work, DoWrite(w, i);
            && (Writes(w, i) ==>
                  var d := Record(w.db, r.first, r.last, r.Settling?, work.seen, work.sent).value;
                  v.db.payments == d.payments && v.db.attempts == d.attempts && v.db.observations == d.observations)
            && (!Writes(w, i) ==> v.db == w.db)
  {
    var r, work := w.rounds[i], w.rounds[i].work;
    SeenAreLinked(w.db, work);
    LinkedIsCurrent(w.db, work.seen);
    hide Record, SeenLinked, WorkLinked;
    if Record(w.db, r.first, r.last, r.Settling?, work.seen, work.sent).Some? {
      RecordKeeps(w.db, r.first, r.last, r.Settling?, work.seen, work.sent);
    }
  }

  lemma WriteAgreement(env: Env, w: World, i: nat, p: PaymentId)
    requires Reads(w, i) && w.rounds[i].work.Receiving? && Consistent(w) && RoundsOnce(w.rounds)
    requires p in w.db.payments && Agrees(w.db, p)
    ensures var v := DoWrite(w, i);
            p in v.db.payments && (Agrees(v.db, p) <==> !Strands(w, ByObserver(Write(i)), p))
  {
    LinkedOf(w);
    RoundWork(w, i);
    OnceAt(w.rounds, i);
    hide Consistent, RowsLinked, RoundsLinked, WorkLinked, RoundsOnce, WorkOnce, DoWrite, Record, StrandsReading,
         TellingStands, Strands, Writes;
    WriteIs(w, i);
    StrandsWriting(w, i, p);
    if Writes(w, i) {
      GoesThrough(w, i);
      WorkExactly(w.db, w.rounds[i].first, w.rounds[i].last, w.rounds[i].Settling?, w.rounds[i].work, p);
    }
  }

  lemma StrandsWriting(w: World, i: nat, p: PaymentId)
    requires Reads(w, i) && w.rounds[i].work.Receiving? && p in w.db.payments
    ensures Strands(w, ByObserver(Write(i)), p) <==>
              && Writes(w, i)
              && StrandsReading(w.db, w.rounds[i].first, w.rounds[i].last, w.rounds[i].Settling?,
                                w.rounds[i].work.seen, w.rounds[i].work.sent, p)
  {
  }

  lemma GoesThrough(w: World, i: nat)
    requires Reads(w, i) && w.rounds[i].work.Receiving? && Writes(w, i)
    ensures Record(w.db, w.rounds[i].first, w.rounds[i].last, w.rounds[i].Settling?,
                   w.rounds[i].work.seen, w.rounds[i].work.sent).Some?
  {
  }

  lemma WorkExactly(db: Rows, first: nat, last: nat, final: bool, work: Work, p: PaymentId)
    requires RowsLinked(db) && work.Receiving? && WorkLinked(db, work) && WorkOnce(work)
    requires p in db.payments && Agrees(db, p) && Record(db, first, last, final, work.seen, work.sent).Some?
    ensures var d := Record(db, first, last, final, work.seen, work.sent).value;
            p in d.payments && (Agrees(d, p) <==> !StrandsReading(db, first, last, final, work.seen, work.sent, p))
  {
    WorkAgrees(work);
    hide RowsLinked, WorkOnce, Record, StrandsReading, Agrees, EntriesAgree, SeenLinked, SentLinked;
    ReadingExactly(db, first, last, final, work.seen, work.sent, p);
  }

  /** Payments that move along, and nothing that is read or given up on: what is received stays as it was. */
  lemma QuietAgreement(db: Rows, d: Rows, p: PaymentId)
    requires RowsLinked(db) && p in db.payments && Agrees(db, p) && p in d.payments && d.observations == db.observations
    requires d.payments[p].Open() ==>
               if db.payments[p].Open() then d.payments[p].received == db.payments[p].received
               else d.payments[p].received.None? && db.payments[p].status == Created
    ensures Agrees(d, p)
  {
    forall ref | ref in db.observations && OfAttempts(db.observations[ref], p) ensures db.payments[p].status != Created {
      assert RowLinked(db, ref, db.observations[ref]);
    }
  }

  lemma SaveAgreement(db: Rows, d: Decision, p: PaymentId)
    requires RowsLinked(db) && DecisionLinked(db, d) && p in db.payments && Agrees(db, p)
    requires db.payments[p].status == Created ==> db.payments[p].received.None?
    ensures var after := SavePayment(db, d.id, d.moved, d.read.version);
            after.Some? ==> p in after.value.payments && Agrees(after.value, p)
  {
    var after := SavePayment(db, d.id, d.moved, d.read.version);
    if after.Some? {
      QuietAgreement(db, after.value, p);
    }
  }

  lemma GiveUpAgreement(db: Rows, ref: Ref, p: PaymentId)
    requires RowsLinked(db) && p in db.payments && Agrees(db, p)
    ensures var d := GiveUp(db, ref);
            && p in d.payments
            && (Agrees(d, p) <==>
                  !(ref in db.observations && Stands(db.observations[ref]) && StrandsLosing(db, {ref}, p)))
  {
    hide RowsLinked, Lose, StrandsLosing, TellingStands;
    LosingExactly(db, {ref}, p);
  }

  lemma WorkerAgreement(w: World, m: WorkerMove, p: PaymentId)
    requires WorkerMoves(w, m) && Consistent(w) && CreatedEmpty(w) && p in w.db.payments && Agrees(w.db, p)
    ensures var v := AfterWorker(w, m);
            p in v.db.payments && (Agrees(v.db, p) <==> !Strands(w, ByWorker(m), p))
  {
    LinkedOf(w);
    hide Grounds, RefundGrounds, RowsLinked, RoundsLinked, CallsLinked, GiveUp, SavePayment, TellingStands;
    match m
    case Save(d) => SaveAgreement(w.db, d, p);
    case GiveUpOn(ref) => GiveUpAgreement(w.db, ref, p);
    case _ =>
  }

  lemma RequestAgreement(env: Env, w: World, m: RequestMove, p: PaymentId)
    requires RequestMoves(env, w, m) && Consistent(w) && p in w.db.payments && Agrees(w.db, p)
    ensures var v := AfterRequest(env, w, m); p in v.db.payments && Agrees(v.db, p)
  {
    RequestLeaves(env, w, m);
    LinkedOf(w);
    if m.Proceed? {
      assert CallLinked(w.db, w.calls[m.call]);
      hide DoProceed, Runs, RowsLinked, TellingStands;
      ProceedRows(env, w, m.call, m.now, m.id, m.key);
    }
  }

  lemma ObserverAgreement(env: Env, w: World, m: ObserverMove, p: PaymentId)
    requires ObserverMoves(w, m) && Consistent(w) && RoundsOnce(w.rounds) && p in w.db.payments && Agrees(w.db, p)
    ensures var v := AfterObserver(env, w, m);
            p in v.db.payments && (Agrees(v.db, p) <==> !Strands(w, ByObserver(m), p))
  {
    hide Consistent, RoundsOnce, TellingStands, DoWrite, BeginRound, KeysIn, Against, Backs, Transactions, Find, SeenIn, SentIn;
    if m.Write? {
      WriteAgreement(env, w, m.observer, p);
    }
  }

  lemma AgreementStep(env: Env, w: World, s: Step, v: World, p: PaymentId)
    requires Next(env, w, s, v) && Consistent(w) && CreatedEmpty(w) && RoundsOnce(w.rounds)
    requires p in w.db.payments && Agrees(w.db, p)
    ensures p in v.db.payments && (Agrees(v.db, p) <==> !Strands(w, s, p))
  {
    hide Consistent, CreatedEmpty, RoundsOnce, TellingStands, ChainMoves, WorkerMoves, RequestMoves, ObserverMoves,
         AfterWorker, AfterRequest, AfterObserver, Strands;
    match s
    case ByChain(m) => ChainAgreement(w, m, p);
    case ByWorker(m) => WorkerAgreement(w, m, p);
    case ByRequest(m) =>
      RequestAgreement(env, w, m, p);
      assert !Strands(w, s, p) by { RequestStrands(w, m, p); }
    case ByObserver(m) => ObserverAgreement(env, w, m, p);
  }

  lemma ChainAgreement(w: World, m: ChainMove, p: PaymentId)
    requires p in w.db.payments
    ensures !Strands(w, ByChain(m), p)
  {
  }

  lemma RequestStrands(w: World, m: RequestMove, p: PaymentId)
    requires p in w.db.payments
    ensures !Strands(w, ByRequest(m), p)
  {
  }

  /**
   Over every run, from a state in which what a payment received is set exactly
   while a row that tells of it stands, a step keeps it so if and only if it does
   not strand it: everything that told the payment is lost or read again as
   something else, and either an unreadable short row stands or nothing of the
   payment was lost.
   */
  lemma AgreementTheorem(env: Env, ws: seq<World>, ss: seq<Step>, i: nat, p: PaymentId)
    requires Run(env, ws, ss) && i < |ss| && p in ws[i].db.payments && Agrees(ws[i].db, p)
    ensures p in ws[i + 1].db.payments
    ensures Agrees(ws[i + 1].db, p) <==> !Strands(ws[i], ss[i], p)
  {
    ConsistentRun(env, ws, ss, i);
    BooksRun(env, ws, ss, i);
    OnceRun(env, ws, ss, i);
    hide Consistent, CreatedEmpty, RoundsOnce, Strands, Agrees, BooksKept, ValidLedger;
    assert Next(env, ws[i], ss[i], ws[i + 1]);
    hide Run, Next;
    AgreementStep(env, ws[i], ss[i], ws[i + 1], p);
  }
}
