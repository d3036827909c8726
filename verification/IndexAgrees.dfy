/** The index agrees with the chain, over every run with one observer at a time. */
module IndexAgrees {
  import opened Basics
  import opened Lifecycle
  import opened Records
  import opened Evidence
  import opened Tables
  import opened Chains
  import opened Reading
  import opened RowFacts
  import opened Protocol
  import opened Consistency
  import opened Reachable
  import opened Index
  import opened Indexing
  import opened Observing
  import opened Writing
  import opened Watched

  lemma WriteIndexed(env: Env, w: World, i: nat)
    requires Reads(w, i) && w.rounds[i].work.Receiving? && w.rounds[i].work.todo == []
    requires Indexed(env, w) && RowsLinked(w.db) && RoundsLinked(w.db, w.rounds) && RowsWatched(env, w.db.observations)
    ensures Indexed(env, DoWrite(w, i))
  {
    hide Indexed, RowsLinked, RoundsLinked, WorkLinked, DoWrite, RowsWatched;
    RoundWork(w, i);
    var d := Wrote(w, i);
    RoundDropped(env, w, i);
    if w.rounds[i].Ahead? {
      AheadIndexed(env, w, i);
    } else if DoWrite(w, i).ranges != w.ranges {
      SettledIndexed(env, w, i);
    }
  }

  lemma ObserverIndexed(env: Env, w: World, m: ObserverMove)
    requires ObserverMoves(w, m) && Lone(w, ByObserver(m)) && Consistent(w) && Indexed(env, w)
    requires RowsWatched(env, w.db.observations)
    ensures Indexed(env, AfterObserver(env, w, m))
  {
    hide Indexed, Consistent, RowsLinked, RoundsLinked, RowsWatched, DoInit, BeginRound, DoStand, DoGoAhead, DoScan, DoLook, DoReceipt, DoWrite;
    LinkedRows(w);
    LinkedRounds(w);
    match m
    case Init(h) => InitIndexed(env, w, h);
    case Begin(i, f, l, width) => BeginIndexed(env, w, i, f, l, width);
    case Stand(i) => StandIndexed(env, w, i);
    case GoAhead(i, width) => GoAheadIndexed(env, w, i, width);
    case Scan(i) => ScanIndexed(env, w, i);
    case Look(i) => LookIndexed(env, w, i);
    case Receipt(i) => ReceiptIndexed(env, w, i);
    case Write(i) => WriteIndexed(env, w, i);
    case Quit(i) => RoundDropped(env, w, i);
  }

  lemma IndexedStep(env: Env, w: World, s: Step, v: World)
    requires Next(env, w, s, v) && Lone(w, s) && Consistent(w) && Indexed(env, w) && RowsWatched(env, w.db.observations)
    ensures Indexed(env, v)
  {
    hide Indexed, Consistent, RowsWatched, AfterChain, AfterWorker, AfterRequest, AfterObserver;
    match s
    case ByChain(m) => ChainIndexed(env, w, m);
    case ByWorker(m) => WorkerIndexed(env, w, m);
    case ByRequest(m) => RequestIndexed(env, w, m);
    case ByObserver(m) => ObserverIndexed(env, w, m);
  }

  lemma InitialIndexed(env: Env, w: World)
    requires Initial(env, w)
    ensures Indexed(env, w)
  {
  }

  lemma RowsWatchedRun(env: Env, ws: seq<World>, ss: seq<Step>, i: nat)
    requires Run(env, ws, ss) && i < |ws|
    ensures RowsWatched(env, ws[i].db.observations)
  {
    hide Next;
    WatchedRun(env, ws, ss, i);
  }

  lemma {:induction false} IndexedRun(env: Env, ws: seq<World>, ss: seq<Step>, i: nat)
    requires Run(env, ws, ss) && LoneRun(ws, ss) && i < |ws|
    ensures Indexed(env, ws[i])
  {
    hide Next, Lone, Indexed, Consistent, RowsWatched, Initial;
    if i == 0 {
      InitialIndexed(env, ws[0]);
    } else {
      IndexedRun(env, ws, ss, i - 1);
      ConsistentRun(env, ws, ss, i - 1);
      RowsWatchedRun(env, ws, ss, i - 1);
      IndexedStep(env, ws[i - 1], ss[i - 1], ws[i]);
    }
  }

  // ---- what was called final stands

  ghost predicate FinalStands(rows: map<Ref, Observation>) {
    forall ref :: ref in rows && rows[ref].final ==> Stands(rows[ref])
  }

  lemma GiveUpStands(env: Env, w: World, ref: Ref)
    requires Indexed(env, w) && Truthful(w, ByWorker(GiveUpOn(ref))) && FinalStands(w.db.observations)
    ensures FinalStands(GiveUp(w.db, ref).observations)
  {
    LoseKeeps(w.db, {ref});
    if ref in w.db.observations {
      assert RowTrue(env, w.chain, w.db.cursor, ref, w.db.observations[ref]);
    }
  }

  /** What is written has a verdict, and none of the verdicts is that it is gone. */
  lemma EntriesStand(db: Rows, work: Work)
    requires work.Receiving? && WorkLinked(db, work)
    ensures forall e :: e in Entries(work.seen, work.sent) ==> e.reason != Vanished
  {
    EntriesLinked(db, work.seen, work.sent);
    forall e | e in Entries(work.seen, work.sent) ensures e.reason != Vanished {
      assert EntryLinked(db, e);
    }
  }

  lemma PassedStands(env: Env, c: Chain, db: Rows, first: nat, last: nat, es: seq<Entry>)
    requires RowsTrue(env, c, db) && FinalStands(db.observations)
    requires db.cursor.Some? && first == db.cursor.value.height + 1
    requires forall e :: e in es ==> e.reason != Vanished && first <= e.place.height <= last
    ensures FinalStands(Passed(db.observations, first, last, es))
  {
    var after := Passed(db.observations, first, last, es);
    hide Passed;
    forall ref | ref in after && after[ref].final ensures Stands(after[ref]) {
      PassedRow(db.observations, first, last, es, ref);
      if ref in db.observations {
        assert RowTrue(env, c, db.cursor, ref, db.observations[ref]);
      }
    }
  }

  lemma PutStands(rows: map<Ref, Observation>, es: seq<Entry>, put: map<Ref, Observation>)
    requires FinalStands(rows) && forall e :: e in es ==> e.reason != Vanished
    requires put == Put(rows, es, false)
    ensures FinalStands(put)
  {
    hide Put;
    PutExact(rows, es, false);
    forall ref | ref in put && put[ref].final ensures Stands(put[ref]) {
      assert PutFrom(rows, es, false, ref, put[ref]);
    }
  }

  lemma EntriesWithin(env: Env, c: Chain, db: Rows, first: nat, last: nat, work: Work)
    requires work.Receiving? && WorkFinal(env, c, db, first, last, work)
    ensures forall e :: e in Entries(work.seen, work.sent) ==> first <= e.place.height <= last
  {
    EntriesFinal(env, c, first, last, work.seen, work.sent);
    forall e | e in Entries(work.seen, work.sent) ensures first <= e.place.height <= last {
      assert EntryFinal(env, c, first, last, e);
    }
  }

  lemma WriteStands(env: Env, w: World, i: nat)
    requires Reads(w, i) && w.rounds[i].work.Receiving? && Indexed(env, w) && RoundsLinked(w.db, w.rounds)
    requires FinalStands(w.db.observations)
    ensures FinalStands(DoWrite(w, i).db.observations)
  {
    hide RowsTrue, WorkLinked, RoundsLinked, FinalStands, Put, Passed, DoWrite, WorkFinal, WorkAhead, Entries,
         PaymentsReceive, AttemptsSeen;
    RoundWork(w, i);
    OneRound(env, w, i);
    var r, work := w.rounds[i], w.rounds[i].work;
    var d := Wrote(w, i);
    EntriesStand(w.db, work);
    if r.Ahead? {
      PutStands(w.db.observations, Entries(work.seen, work.sent), Put(w.db.observations, Entries(work.seen, work.sent), false));
    } else {
      EntriesWithin(env, w.chain, w.db, r.first, r.last, work);
      PassedIs(w.db, r.first, r.last, Entries(work.seen, work.sent));
      PassedStands(env, w.chain, w.db, r.first, r.last, Entries(work.seen, work.sent));
    }
  }

  lemma StandsStep(env: Env, w: World, s: Step, v: World)
    requires Next(env, w, s, v) && Truthful(w, s) && Consistent(w) && Indexed(env, w)
    requires FinalStands(w.db.observations)
    ensures FinalStands(v.db.observations)
  {
    hide FinalStands, Indexed, Consistent, Truthful, DoWrite, Grounds, RefundGrounds;
    match s
    case ByChain(m) =>
    case ByWorker(m) =>
      if m.GiveUpOn? {
        GiveUpStands(env, w, m.ref);
      }
    case ByRequest(m) => RequestLeaves(env, w, m);
    case ByObserver(m) =>
      if m.Write? {
        LinkedRounds(w);
        WriteStands(env, w, m.observer);
      }
  }

  lemma {:induction false} StandsRun(env: Env, ws: seq<World>, ss: seq<Step>, i: nat)
    requires Run(env, ws, ss) && LoneRun(ws, ss) && TruthfulRun(ws, ss) && i < |ws|
    ensures FinalStands(ws[i].db.observations)
  {
    hide Next, Lone, Truthful, ValidChain, ValidLedger;
    if i > 0 {
      StandsRun(env, ws, ss, i - 1);
      IndexedRun(env, ws, ss, i - 1);
      ConsistentRun(env, ws, ss, i - 1);
      StandsStep(env, ws[i - 1], ss[i - 1], ws[i]);
    }
  }

  // ---- the theorem

  /** A row that stands, up to the cursor. */
  predicate OnRecord(env: Env, db: Rows, k: Key, x: Tx, at: Place, t: Transfer) {
    && Ref(k, x) in db.observations && Stands(db.observations[Ref(k, x)])
    && db.observations[Ref(k, x)].place == at && db.observations[Ref(k, x)].transfer == t
    && ReadTo(db.cursor, at.height)
  }

  /** A transfer of an issued key, up to the cursor, as the final chain carries it. */
  ghost predicate OnChain(env: Env, c: Chain, db: Rows, k: Key, x: Tx, at: Place, t: Transfer) {
    && ReadTo(db.cursor, at.height) && at.height <= c.final && PlacedAt(c, at) && On(c, at.height, x)
    && Owed(env, x, t) && t.key == k && IssuedKey(db, k)
  }

  /** A row recorded as final is the transfer its key and transaction name, and where the chain has it. */
  lemma RecordedIsCarried(env: Env, c: Chain, db: Rows, h: nat, x: Tx, t: Transfer)
    requires ChainTruth(env, c) && RowsTrue(env, c, db) && RowsLinked(db)
    requires On(c, h, x) && Owed(env, x, t) && HasFinal(db, Ref(t.key, x))
    ensures db.observations[Ref(t.key, x)].transfer == t
    ensures db.observations[Ref(t.key, x)].place == PlaceAt(c, h)
  {
    var ref := Ref(t.key, x);
    var o := db.observations[ref];
    assert RowTrue(env, c, db.cursor, ref, o);
    assert RowLinked(db, ref, o);
    SameTransfer(env, x, t, o.transfer);
    assert On(c, o.place.height, x);
  }

  lemma AgreesAt(env: Env, w: World, k: Key, x: Tx, at: Place, t: Transfer)
    requires Indexed(env, w) && RowsLinked(w.db) && FinalStands(w.db.observations)
    ensures OnRecord(env, w.db, k, x, at, t) <==> OnChain(env, w.chain, w.db, k, x, at, t)
  {
    if OnRecord(env, w.db, k, x, at, t) {
      assert RowTrue(env, w.chain, w.db.cursor, Ref(k, x), w.db.observations[Ref(k, x)]);
      StandingIsOwed(env, w.chain, w.db, Ref(k, x));
    }
    if OnChain(env, w.chain, w.db, k, x, at, t) {
      assert HasFinal(w.db, Ref(k, x));
      RecordedIsCarried(env, w.chain, w.db, at.height, x, t);
    }
  }

  /**
   Over every run in which one observer reads at a time and nothing on the final
   chain is given up on: the standing rows up to the cursor are, by key,
   transaction, block and content, exactly the transfers of issued keys that the
   final chain carries there.
   */
  lemma IndexTheorem(env: Env, ws: seq<World>, ss: seq<Step>, i: nat, k: Key, x: Tx, at: Place, t: Transfer)
    requires Run(env, ws, ss) && LoneRun(ws, ss) && TruthfulRun(ws, ss) && i < |ws|
    ensures OnRecord(env, ws[i].db, k, x, at, t) <==> OnChain(env, ws[i].chain, ws[i].db, k, x, at, t)
  {
    hide Next, Lone, Truthful;
    IndexedRun(env, ws, ss, i);
    StandsRun(env, ws, ss, i);
    ConsistentRun(env, ws, ss, i);
    LinkedRows(ws[i]);
    hide Indexed, FinalStands, RowsLinked, OnRecord, OnChain;
    AgreesAt(env, ws[i], k, x, at, t);
  }
}
