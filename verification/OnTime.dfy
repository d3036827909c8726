/** Where payers keep to what they were offered, the books follow the rows in every state. */
module OnTime {
  import opened Basics
  import opened Lifecycle
  import opened Records
  import opened Evidence
  import opened Tables
  import opened Chains
  import opened Reading
  import opened RowFacts
  import opened Protocol
  import opened Consistency
  import opened Reachable
  import opened Observing
  import opened ReadOnce
  import opened Writing
  import opened Bookkeeping
  import opened Arrivals
  import opened Agreement
  import opened Confirmations
  import opened Lifetimes

  /** The chain carries no key of an attempt at or past its deadline, and nothing of one that nobody can read. */
  ghost predicate KeepsTo(env: Env, w: World) {
    forall h: nat, x, t, a ::
      On(w.chain, h, x) && Carries(env.ledger, x, t) && a in w.db.attempts && w.db.attempts[a].key == t.key ==>
        w.chain.blocks[h].time < w.db.attempts[a].validBefore && t.value.Some?
  }

  predicate InTime(db: Rows, a: AttemptId, at: Place, t: Transfer) {
    a in db.attempts && at.time < db.attempts[a].validBefore && t.value.Some?
  }

  ghost predicate RowsInTime(db: Rows, rows: map<Ref, Observation>) {
    forall ref :: ref in rows && rows[ref].against.ForAttempt? ==>
      InTime(db, rows[ref].against.attempt, rows[ref].place, rows[ref].transfer)
  }

  ghost predicate WorkInTime(db: Rows, work: Work) {
    work.Receiving? ==> forall s :: s in work.seen ==> InTime(db, s.attempt, s.place, s.transfer)
  }

  ghost predicate RoundsInTime(db: Rows, rounds: map<nat, Round>) {
    forall i :: i in rounds && (rounds[i].Settling? || rounds[i].Ahead?) ==> WorkInTime(db, rounds[i].work)
  }

  ghost predicate AllInTime(w: World) { RowsInTime(w.db, w.db.observations) && RoundsInTime(w.db, w.rounds) }

  // ---- attempts keep their deadlines

  lemma RowsInTimeLater(db: Rows, d: Rows, rows: map<Ref, Observation>)
    requires Grows(db, d) && RowsInTime(db, rows)
    ensures RowsInTime(d, rows)
  {
    forall a | a in db.attempts ensures a in d.attempts && SameAttempt(db.attempts[a], d.attempts[a]) {
    }
  }

  lemma RoundsInTimeLater(db: Rows, d: Rows, rounds: map<nat, Round>)
    requires Grows(db, d) && RoundsInTime(db, rounds)
    ensures RoundsInTime(d, rounds)
  {
    forall a | a in db.attempts ensures a in d.attempts && SameAttempt(db.attempts[a], d.attempts[a]) {
    }
    hide Grows;
  }

  // ---- a receipt

  lemma ReceiptInTime(env: Env, w: World, work: Work, at: Place)
    requires KeepsTo(env, w) && work.Receiving? && work.todo != [] && WorkLinked(w.db, work) && WorkInTime(w.db, work)
    requires PlacedAt(w.chain, at) && On(w.chain, at.height, work.todo[0])
    ensures WorkInTime(w.db, Received(env, work.todo[0], at, work))
  {
    var x := work.todo[0];
    var ts := if x in env.ledger then env.ledger[x] else [];
    forall s | s in SeenIn(ts, x, at, work.against) ensures InTime(w.db, s.attempt, s.place, s.transfer) {
      SeenInExact(ts, x, at, work.against, s);
      var t :| t in ts && SeenOf(t, x, at, work.against) == Some(s);
      assert HitLinked(w.db, t.key, work.against[t.key]);
      assert Carries(env.ledger, x, t);
    }
  }

  // ---- a round's rows

  lemma PutInTime(db: Rows, seen: seq<Seen>, sent: seq<Sent>, final: bool, put: map<Ref, Observation>)
    requires RowsLinked(db) && RowsInTime(db, db.observations)
    requires EntriesAgree(Entries(seen, sent)) && put == Put(db.observations, Entries(seen, sent), final)
    requires forall e :: e in Entries(seen, sent) ==> EntryLinked(db, e)
    requires forall s :: s in seen ==> InTime(db, s.attempt, s.place, s.transfer)
    ensures RowsInTime(db, put)
  {
    var es := Entries(seen, sent);
    hide Put, RowsLinked, EntryLinked, Entries, NotedIn, EntriesAgree;
    forall ref | ref in put && put[ref].against.ForAttempt?
      ensures InTime(db, put[ref].against.attempt, put[ref].place, put[ref].transfer)
    {
      if ref in NotedIn(es) {
        var s := RowIsSeen(db, seen, sent, final, put, ref);
      } else {
        UnnotedStays(db.observations, es, final, ref);
      }
    }
  }

  lemma WrittenInTime(db: Rows, first: nat, last: nat, final: bool, seen: seq<Seen>, sent: seq<Sent>)
    requires RowsLinked(db) && RowsInTime(db, db.observations) && EntriesAgree(Entries(seen, sent))
    requires forall e :: e in Entries(seen, sent) ==> EntryLinked(db, e)
    requires forall s :: s in seen ==> InTime(db, s.attempt, s.place, s.transfer)
    ensures RowsInTime(db, Written(db, first, last, final, Entries(seen, sent)).observations)
  {
    var es := Entries(seen, sent);
    var put := db.(observations := Put(db.observations, es, final));
    PutInTime(db, seen, sent, final, put.observations);
    if final {
      LoseKeeps(put, LostIn(put.observations, first, last, TxsOf(es)));
    }
  }

  lemma WorkWritten(db: Rows, first: nat, last: nat, final: bool, work: Work)
    requires RowsLinked(db) && RowsInTime(db, db.observations)
    requires work.Receiving? && WorkLinked(db, work) && WorkOnce(work) && WorkInTime(db, work)
    ensures RowsInTime(db, Written(db, first, last, final, Entries(work.seen, work.sent)).observations)
  {
    WorkAgrees(work);
    EntriesLinked(db, work.seen, work.sent);
    hide RowsLinked, RowsInTime, WorkOnce, EntriesAgree, EntryLinked, Entries;
    WrittenInTime(db, first, last, final, work.seen, work.sent);
  }

  lemma WriteInTime(w: World, i: nat)
    requires Reads(w, i) && w.rounds[i].work.Receiving? && RowsLinked(w.db) && WorkLinked(w.db, w.rounds[i].work)
    requires WorkOnce(w.rounds[i].work) && WorkInTime(w.db, w.rounds[i].work) && RowsInTime(w.db, w.db.observations)
    ensures RowsInTime(w.db, DoWrite(w, i).db.observations)
  {
    var r, work := w.rounds[i], w.rounds[i].work;
    hide RowsLinked, WorkLinked, WorkOnce, WorkInTime, RowsInTime, DoWrite, PaymentsReceive, AttemptsSeen, Entries;
    var d := Wrote(w, i);
    WorkWritten(w.db, r.first, r.last, true, work);
    WorkWritten(w.db, r.first, r.last, false, work);
    AheadPuts(w.db, r.first, r.last, Entries(work.seen, work.sent));
  }

  // ---- every step

  lemma WorkAt(db: Rows, rounds: map<nat, Round>, i: nat)
    requires RoundsInTime(db, rounds) && i in rounds && (rounds[i].Settling? || rounds[i].Ahead?)
    ensures WorkInTime(db, rounds[i].work)
  {
  }

  lemma RoundsBeside(db: Rows, before: map<nat, Round>, after: map<nat, Round>)
    requires RoundsInTime(db, before)
    requires forall j :: j in after ==>
               || (j in before && after[j] == before[j]) || after[j].Between? || after[j].Standing?
               || ((after[j].Settling? || after[j].Ahead?) && (after[j].work.Receiving? ==> after[j].work.seen == []))
    ensures RoundsInTime(db, after)
  {
  }

  lemma RoundMovedInTime(w: World, i: nat, work: Work)
    requires RoundsInTime(w.db, w.rounds) && Reads(w, i) && WorkInTime(w.db, work)
    ensures RoundsInTime(w.db, WithWork(w, i, work).rounds)
  {
    hide WorkInTime;
  }

  lemma ReceiptsInTime(env: Env, w: World, i: nat)
    requires Reads(w, i) && w.rounds[i].work.Receiving? && w.rounds[i].work.todo != []
    requires KeepsTo(env, w) && RoundsLinked(w.db, w.rounds) && RoundsInTime(w.db, w.rounds)
    ensures RoundsInTime(w.db, DoReceipt(env, w, i).rounds)
  {
    RoundWork(w, i);
    WorkAt(w.db, w.rounds, i);
    ReceiptIs(env, w, i);
    var work := w.rounds[i].work;
    hide RoundsLinked, WorkLinked, KeepsTo, RoundsInTime, WorkInTime, Received, DoReceipt;
    if Find(w.chain, work.todo[0]).Some? {
      ReceiptInTime(env, w, work, Find(w.chain, work.todo[0]).value);
      RoundMovedInTime(w, i, Received(env, work.todo[0], Find(w.chain, work.todo[0]).value, work));
    } else {
      RoundsBeside(w.db, w.rounds, Dropped(w.rounds, i));
    }
  }

  /** What an observer reads and writes is in time, by the rows as they were. */
  lemma ObserverInTime(env: Env, w: World, m: ObserverMove)
    requires ObserverMoves(w, m) && KeepsTo(env, w) && RowsLinked(w.db) && RoundsLinked(w.db, w.rounds)
    requires RoundsOnce(w.rounds) && AllInTime(w)
    ensures var v := AfterObserver(env, w, m);
            RowsInTime(w.db, v.db.observations) && RoundsInTime(w.db, v.rounds)
  {
    hide KeepsTo, RowsLinked, RoundsLinked, RoundsOnce, RowsInTime, RoundsInTime, DoReceipt, DoWrite, Against, Backs,
         Transactions, KeysIn;
    if m.Receipt? {
      ReceiptsInTime(env, w, m.observer);
      assert DoReceipt(env, w, m.observer).db == w.db by { ReceiptIs(env, w, m.observer); }
    } else {
      assert RoundsInTime(w.db, AfterObserver(env, w, m).rounds) by {
        if m.Write? {
          RoundGone(w, m.observer);
        }
        RoundsBeside(w.db, w.rounds, AfterObserver(env, w, m).rounds);
      }
      if m.Write? {
        RoundWork(w, m.observer);
        OnceAt(w.rounds, m.observer);
        WorkAt(w.db, w.rounds, m.observer);
        WriteInTime(w, m.observer);
      }
    }
  }

  lemma GiveUpInTime(db: Rows, ref: Ref)
    requires RowsInTime(db, db.observations)
    ensures RowsInTime(db, GiveUp(db, ref).observations)
  {
    LoseKeeps(db, {ref});
  }

  lemma WorkerInTime(w: World, m: WorkerMove)
    requires WorkerMoves(w, m) && RowsInTime(w.db, w.db.observations)
    ensures var v := AfterWorker(w, m); v.rounds == w.rounds && RowsInTime(w.db, v.db.observations)
  {
    hide RowsInTime, GiveUp, Grounds, RefundGrounds;
    if m.GiveUpOn? {
      GiveUpInTime(w.db, m.ref);
    }
  }

  lemma RowsOfStep(env: Env, w: World, s: Step, v: World)
    requires Next(env, w, s, v) && Consistent(w) && RoundsOnce(w.rounds) && KeepsTo(env, w) && AllInTime(w)
    ensures RowsInTime(w.db, v.db.observations) && RoundsInTime(w.db, v.rounds)
  {
    LinkedOf(w);
    hide Consistent, KeepsTo, RowsLinked, RoundsLinked, RoundsOnce, RowsInTime, RoundsInTime, AfterObserver, AfterRequest,
         AfterWorker, ObserverMoves, RequestMoves, WorkerMoves, ChainMoves;
    match s
    case ByChain(m) =>
    case ByWorker(m) => WorkerInTime(w, m);
    case ByRequest(m) => RequestLeaves(env, w, m);
    case ByObserver(m) => ObserverInTime(env, w, m);
  }

  lemma InTimeStep(env: Env, w: World, s: Step, v: World)
    requires Next(env, w, s, v) && Consistent(w) && RoundsOnce(w.rounds) && KeepsTo(env, w) && AllInTime(w)
    ensures AllInTime(v)
  {
    hide Next, Consistent, KeepsTo, RoundsOnce, Grows, RowsInTime, RoundsInTime;
    RowsOfStep(env, w, s, v);
    GrowsStep(env, w, s, v);
    RowsInTimeLater(w.db, v.db, v.db.observations);
    RoundsInTimeLater(w.db, v.db, v.rounds);
  }

  /** Payers keep to what they were offered for as long as the run goes. */
  ghost predicate AlwaysKeepsTo(env: Env, ws: seq<World>) { forall i :: 0 <= i < |ws| ==> KeepsTo(env, ws[i]) }

  lemma {:induction false} InTimeRun(env: Env, ws: seq<World>, ss: seq<Step>, i: nat)
    requires Run(env, ws, ss) && AlwaysKeepsTo(env, ws) && i < |ws|
    ensures AllInTime(ws[i])
  {
    hide Next, KeepsTo;
    if i > 0 {
      InTimeRun(env, ws, ss, i - 1);
      ConsistentRun(env, ws, ss, i - 1);
      OnceRun(env, ws, ss, i - 1);
      hide Consistent, RoundsOnce, AllInTime, ValidLedger;
      InTimeStep(env, ws[i - 1], ss[i - 1], ws[i]);
    }
  }

  // ---- what that leaves

  /** A row in time of a payment that is open is neither late nor without an amount. */
  lemma InTimeIsPlain(db: Rows, ref: Ref, o: Observation)
    requires RowLinked(db, ref, o) && o.against.ForAttempt? && o.payment in db.payments && db.payments[o.payment].Open()
    requires InTime(db, o.against.attempt, o.place, o.transfer)
    ensures !Doubtful(o)
  {
  }

  lemma NothingDoubtful(db: Rows, p: PaymentId)
    requires RowsLinked(db) && RowsInTime(db, db.observations) && p in db.payments && db.payments[p].Open()
    ensures !DoubtfulStands(db.observations, p)
  {
    forall ref | ref in db.observations && OfAttempts(db.observations[ref], p) ensures !Doubtful(db.observations[ref]) {
      LinkedAt(db, ref);
      InTimeIsPlain(db, ref, db.observations[ref]);
    }
  }

  lemma OnTimeConfirms(db: Rows, a: AttemptId)
    requires RowsLinked(db) && RowsInTime(db, db.observations) && a in db.attempts
    requires db.attempts[a].payment in db.payments && db.payments[db.attempts[a].payment].Open()
    requires db.attempts[a].status == Confirming ==> ConfirmedBy(db.observations, a)
    ensures TrulyConfirming(db, a)
  {
    if db.attempts[a].status == Confirming {
      var ref :| ref in db.observations && db.observations[ref].against == ForAttempt(a)
                 && MayHaveConfirmed(db.observations[ref]);
      LinkedAt(db, ref);
      InTimeIsPlain(db, ref, db.observations[ref]);
    }
  }

  /**
   Over every run whose chain never carries the key of an attempt at or past its
   deadline, or with an amount nobody can read: in every state, what an open payment
   received is set exactly while a row that tells of it stands, and an attempt at
   one confirms only while a row stands that matched it.
   */
  lemma OnTimeTheorem(env: Env, ws: seq<World>, ss: seq<Step>, i: nat, p: PaymentId)
    requires Run(env, ws, ss) && AlwaysKeepsTo(env, ws) && i < |ws|
    requires p in ws[i].db.payments && ws[i].db.payments[p].Open()
    ensures ws[i].db.payments[p].received.Some? <==> TellingStands(ws[i].db.observations, p)
    ensures forall a :: a in ws[i].db.attempts && ws[i].db.attempts[a].payment == p ==> TrulyConfirming(ws[i].db, a)
  {
    InTimeRun(env, ws, ss, i);
    ConsistentRun(env, ws, ss, i);
    LinkedOf(ws[i]);
    ReceivedExactly(env, ws, ss, i, p);
    BookkeepingTheorem(env, ws, ss, i, p);
    var db := ws[i].db;
    hide Run, AlwaysKeepsTo, Consistent, RowsLinked, RowsInTime, RoundsInTime, TellingStands, DoubtfulStands,
         TrulyConfirming, ConfirmedBy;
    NothingDoubtful(db, p);
    forall a | a in db.attempts && db.attempts[a].payment == p ensures TrulyConfirming(db, a) {
      OnTimeConfirms(db, a);
    }
  }
}
