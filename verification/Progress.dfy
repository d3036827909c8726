/** A finalised range commits with its cursor or not at all, and what nobody raced commits. */
module Progress {
  import opened Basics
  import opened Lifecycle
  import opened Records
  import opened Evidence
  import opened Tables
  import opened Reading
  import opened RowFacts
  import opened Protocol
  import opened Consistency
  import opened Reachable
  import opened Observing
  import opened Writing
  import opened Bookkeeping
  import opened Linear
  import opened ReadOnce

  predicate AsRead(db: Rows, s: Seen) { s.attempt in db.attempts && db.attempts[s.attempt] == s.read }

  ghost predicate SeenApart(seen: seq<Seen>) {
    forall i, j :: 0 <= i < j < |seen| ==> seen[i].attempt != seen[j].attempt
  }

  /** Every attempt a round saw is as it was read, and seen once. */
  ghost predicate Unraced(db: Rows, seen: seq<Seen>) {
    SeenApart(seen) && forall s :: s in seen ==> AsRead(db, s)
  }

  lemma SeenOnce(db: Rows, seen: seq<Seen>, s: Seen, q: Seen)
    requires Unraced(db, seen) && s in seen && q in seen && s.attempt == q.attempt
    ensures s == q
  {
    var i :| 0 <= i < |seen| && seen[i] == s;
    var j :| 0 <= j < |seen| && seen[j] == q;
    assert i == j;
  }

  /** An attempt's key is no refund's. */
  lemma KeysApart(db: Rows, s: Seen, q: Sent)
    requires RefundsLinked(db) && SeenLinked(db, s) && SentLinked(db, q)
    ensures SeenEntry(s).ref != SentEntry(q).ref
  {
  }

  /** A row of an attempt's key can come from nothing but what was seen of that attempt. */
  lemma EntryOfSeen(db: Rows, seen: seq<Seen>, sent: seq<Sent>, s: Seen, e: Entry)
    requires AttemptsLinked(db) && RefundsLinked(db) && Unraced(db, seen)
    requires forall q :: q in seen ==> SeenLinked(db, q)
    requires forall q :: q in sent ==> SentLinked(db, q)
    requires s in seen && e in Entries(seen, sent) && e.ref == SeenEntry(s).ref
    ensures e == SeenEntry(s)
  {
    var es := Entries(seen, sent);
    forall k | |seen| <= k < |es| ensures es[k].ref != SeenEntry(s).ref {
      KeysApart(db, s, sent[k - |seen|]);
      assert es[|seen| + (k - |seen|)] == SentEntry(sent[k - |seen|]);
    }
    var i :| 0 <= i < |es| && es[i] == e;
    assert SeenLinked(db, seen[i]) && SeenLinked(db, s);
    SeenOnce(db, seen, s, seen[i]);
  }

  /** The row of what was seen is what was seen, against the attempt it was seen for. */
  lemma SeenRow(db: Rows, seen: seq<Seen>, sent: seq<Sent>, final: bool, put: map<Ref, Observation>, s: Seen)
    requires RowsLinked(db) && Unraced(db, seen) && s in seen
    requires forall q :: q in seen ==> SeenLinked(db, q)
    requires forall q :: q in sent ==> SentLinked(db, q)
    requires put == Put(db.observations, Entries(seen, sent), final)
    ensures var ref := SeenEntry(s).ref;
            ref in put && put[ref].reason == s.reason && put[ref].against == ForAttempt(s.attempt)
  {
    var es, entry := Entries(seen, sent), SeenEntry(s);
    hide Put, Entries, SentLinked, SeenLinked, EntryLinked, Unraced;
    SeenIsEntry(seen, sent, s);
    EntriesLinked(db, seen, sent);
    PutLinked(db, db.observations, es, final);
    forall e | e in es && e.ref == entry.ref ensures e == entry {
      EntryOfSeen(db, seen, sent, s, e);
    }
    OnlyEntry(db.observations, es, final, entry);
    LinkedEntry(db, entry);
    SameSubject(db, entry.ref, put[entry.ref], EntryRow(entry));
  }

  /** What a range loses takes back no attempt the range matches. */
  lemma MatchedIsKept(db: Rows, first: nat, last: nat, seen: seq<Seen>, sent: seq<Sent>, s: Seen)
    requires RowsLinked(db) && Unraced(db, seen) && s in seen && s.reason == Matched
    requires forall q :: q in seen ==> SeenLinked(db, q)
    requires forall q :: q in sent ==> SentLinked(db, q)
    ensures var written := Written(db, first, last, true, Entries(seen, sent));
            s.attempt in written.attempts && written.attempts[s.attempt] == s.read
  {
    var es, ref := Entries(seen, sent), SeenEntry(s).ref;
    var rows := Put(db.observations, es, true);
    var put := db.(observations := rows);
    var lost := LostIn(rows, first, last, TxsOf(es));
    SeenRow(db, seen, sent, true, rows, s);
    var i :| 0 <= i < |seen| && seen[i] == s;
    assert es[i] == SeenEntry(s) && es[i] in es;
    assert IsNoted(es, ref);
    NotedIsNotLost(rows, first, last, es, ref);
    hide Put, RowsLinked, Entries, LostIn;
    var marked := Mark(rows, lost);
    assert marked[ref] == rows[ref];
    assert AttemptMatched(marked, s.attempt);
    NotTakenBack(put, lost, s.attempt);
  }

  lemma NotTakenBack(db: Rows, lost: set<Ref>, a: AttemptId)
    requires a in db.attempts && AttemptMatched(Mark(db.observations, lost), a)
    ensures a in Lose(db, lost).attempts && Lose(db, lost).attempts[a] == db.attempts[a]
  {
  }

  lemma OneConfirms(db: Rows, s: Seen)
    requires s.reason == Matched ==> AsRead(db, s)
    ensures ConfirmOne(db, s).Some?
    ensures forall q: Seen :: AsRead(db, q) && q.attempt != s.attempt ==> AsRead(ConfirmOne(db, s).value, q)
  {
  }

  /** Attempts that are as they were read confirm, one after another, and nothing else is touched. */
  lemma {:induction false} AllConfirm(db: Rows, seen: seq<Seen>)
    requires SeenApart(seen) && forall s :: s in seen && s.reason == Matched ==> AsRead(db, s)
    ensures Confirm(db, seen).Some?
    ensures forall q: Seen :: AsRead(db, q) && (forall s :: s in seen ==> s.attempt != q.attempt) ==>
              AsRead(Confirm(db, seen).value, q)
  {
    if seen != [] {
      var front, last := seen[..|seen| - 1], seen[|seen| - 1];
      assert forall s :: s in front ==> s in seen;
      assert last in seen;
      forall s | s in front ensures s.attempt != last.attempt {
        var i :| 0 <= i < |front| && front[i] == s;
        assert seen[i] == s && i < |seen| - 1;
      }
      hide AsRead, ConfirmOne;
      AllConfirm(db, front);
      OneConfirms(Confirm(db, front).value, last);
    }
  }

  lemma UnracedRecords(db: Rows, first: nat, last: nat, seen: seq<Seen>, sent: seq<Sent>)
    requires RowsLinked(db) && Unraced(db, seen) && Storable(Entries(seen, sent))
    requires forall q :: q in seen ==> SeenLinked(db, q)
    requires forall q :: q in sent ==> SentLinked(db, q)
    ensures Record(db, first, last, true, seen, sent).Some?
  {
    var es := Entries(seen, sent);
    var credited := Credited(Written(db, first, last, true, es), seen);
    hide RowsLinked, Written, Storable, Entries, SeenLinked, SentLinked, Confirm;
    forall s | s in seen && s.reason == Matched ensures AsRead(credited, s)
    {
      MatchedIsKept(db, first, last, seen, sent, s);
    }
    AllConfirm(credited, seen);
  }

  /** What a recorded range saw has final rows. */
  lemma RecordedRows(db: Rows, first: nat, last: nat, seen: seq<Seen>, sent: seq<Sent>, s: Seen)
    requires forall q :: q in seen ==> SeenLinked(db, q)
    requires s in seen && Record(db, first, last, true, seen, sent).Some?
    ensures var rows := Record(db, first, last, true, seen, sent).value.observations;
            SeenEntry(s).ref in rows && rows[SeenEntry(s).ref].final
  {
    var es := Entries(seen, sent);
    hide Written, Passed, Entries, SeenLinked, Record;
    RecordObservations(db, first, last, true, seen, sent);
    PassedIs(db, first, last, es);
    SeenIsEntry(seen, sent, s);
    PassedKeeps(db.observations, first, last, es, SeenEntry(s).ref);
  }

  /** A range nobody raced commits, its rows with its cursor. */
  lemma UnracedRange(db: Rows, first: nat, last: nat, from: Position, to: Position, seen: seq<Seen>, sent: seq<Sent>)
    requires RowsLinked(db) && AdvancesFrom(db, from) && Unraced(db, seen) && Storable(Entries(seen, sent))
    requires forall q :: q in seen ==> SeenLinked(db, q)
    requires forall q :: q in sent ==> SentLinked(db, q)
    ensures var after := WriteRange(db, first, last, from, to, seen, sent);
            && after.Some? && after.value.cursor == Some(to)
            && forall s :: s in seen ==>
                 SeenEntry(s).ref in after.value.observations && after.value.observations[SeenEntry(s).ref].final
  {
    hide RowsLinked, Record, Storable, Entries, SeenLinked, SentLinked, SeenEntry,
         Unraced, PaymentsReceive, AttemptsSeen, OnlyConfirmings, Current;
    UnracedRecords(db, first, last, seen, sent);
    LinkedIsCurrent(db, seen);
    RecordKeeps(db, first, last, true, seen, sent);
    forall s | s in seen
      ensures SeenEntry(s).ref in Record(db, first, last, true, seen, sent).value.observations
      ensures Record(db, first, last, true, seen, sent).value.observations[SeenEntry(s).ref].final
    {
      RecordedRows(db, first, last, seen, sent, s);
    }
  }

  /**
   A finalised range is committed with its cursor whenever nobody moved the
   cursor or an attempt it saw since they were read, and a row can hold what it saw.
   */
  lemma UnracedCommits(w: World, i: nat)
    requires Reads(w, i) && w.rounds[i].Settling? && w.rounds[i].work.Receiving?
    requires RowsLinked(w.db) && WorkLinked(w.db, w.rounds[i].work)
    requires AdvancesFrom(w.db, w.rounds[i].from)
    requires Unraced(w.db, w.rounds[i].work.seen)
    requires Storable(Entries(w.rounds[i].work.seen, w.rounds[i].work.sent))
    ensures var r, v := w.rounds[i], DoWrite(w, i);
            && v.db.cursor == Some(r.to) && v.ranges == w.ranges + [Range(r.first, r.last)]
            && forall s :: s in r.work.seen ==>
                 SeenEntry(s).ref in v.db.observations && v.db.observations[SeenEntry(s).ref].final
  {
    var r, work := w.rounds[i], w.rounds[i].work;
    SeenAreLinked(w.db, work);
    SentAreLinked(w.db, work);
    hide RowsLinked, WorkLinked, AdvancesFrom, WriteRange, Storable, Entries, SeenLinked, SentLinked, SeenEntry, Unraced;
    UnracedRange(w.db, r.first, r.last, r.from, r.to, work.seen, work.sent);
  }

  lemma SeenIsEntry(seen: seq<Seen>, sent: seq<Sent>, s: Seen)
    requires s in seen
    ensures SeenEntry(s) in Entries(seen, sent)
  {
    var i :| 0 <= i < |seen| && seen[i] == s;
    assert Entries(seen, sent)[i] == SeenEntry(s);
  }

  lemma SentAreLinked(db: Rows, work: Work)
    requires work.Receiving? && WorkLinked(db, work)
    ensures forall s :: s in work.sent ==> SentLinked(db, s)
  {
  }

  // ---- rows and cursor together

  /** A row says of what was read just that, and that it is final. */
  predicate SaysFinal(rows: map<Ref, Observation>, e: Entry) {
    && e.ref in rows && rows[e.ref].final
    && rows[e.ref].place == e.place && rows[e.ref].transfer == e.transfer && rows[e.ref].reason == e.reason
  }

  lemma PassedSays(rows: map<Ref, Observation>, first: nat, last: nat, es: seq<Entry>, e: Entry)
    requires EntriesAgree(es) && e in es
    ensures SaysFinal(Passed(rows, first, last, es), e)
  {
    PassedKeeps(rows, first, last, es, e.ref);
    PassedRow(rows, first, last, es, e.ref);
    hide Passed;
  }

  lemma RecordSays(db: Rows, first: nat, last: nat, seen: seq<Seen>, sent: seq<Sent>, e: Entry)
    requires forall s :: s in seen ==> SeenLinked(db, s)
    requires EntriesAgree(Entries(seen, sent)) && e in Entries(seen, sent)
    requires Record(db, first, last, true, seen, sent).Some?
    ensures SaysFinal(Record(db, first, last, true, seen, sent).value.observations, e)
  {
    hide Record, Written, Passed, SeenLinked, EntriesAgree, SaysFinal, Entries;
    RecordObservations(db, first, last, true, seen, sent);
    PassedIs(db, first, last, Entries(seen, sent));
    PassedSays(db.observations, first, last, Entries(seen, sent), e);
  }

  lemma RangeWrites(w: World, i: nat, e: Entry)
    requires Reads(w, i) && w.rounds[i].Settling? && w.rounds[i].work.Receiving? && WorkLinked(w.db, w.rounds[i].work)
    requires WorkOnce(w.rounds[i].work) && DoWrite(w, i).ranges != w.ranges
    requires e in Entries(w.rounds[i].work.seen, w.rounds[i].work.sent)
    ensures SaysFinal(DoWrite(w, i).db.observations, e)
  {
    var r, work := w.rounds[i], w.rounds[i].work;
    SeenAreLinked(w.db, work);
    WorkAgrees(work);
    hide WorkLinked, WorkOnce, Record, SeenLinked, EntriesAgree, SaysFinal, Entries;
    RecordSays(w.db, r.first, r.last, work.seen, work.sent, e);
  }

  /**
   In any run a finalised range is written with its advance or not at all: either
   the rows, the cursor and the ranges are what they were, or the cursor was where
   the round read it and is where the round read to, the range joins the ones
   committed, and each row says of what was read just that, and that it is final.
   */
  lemma RangeCommitsWithAdvance(env: Env, ws: seq<World>, ss: seq<Step>, j: nat, i: nat)
    requires Run(env, ws, ss) && j < |ss| && ss[j] == ByObserver(ObserverMove.Write(i))
    requires i in ws[j].rounds && ws[j].rounds[i].Settling?
    ensures var w, v, r := ws[j], ws[j + 1], ws[j].rounds[i];
            || (v.db == w.db && v.ranges == w.ranges)
            || (&& AdvancesFrom(w.db, r.from) && v.db.cursor == Some(r.to)
                && v.ranges == w.ranges + [Range(r.first, r.last)]
                && forall e :: e in Entries(r.work.seen, r.work.sent) ==> SaysFinal(v.db.observations, e))
  {
    var w, r := ws[j], ws[j].rounds[i];
    assert Next(env, w, ss[j], ws[j + 1]);
    ConsistentRun(env, ws, ss, j);
    OnceRun(env, ws, ss, j);
    LinkedRounds(w);
    hide Run, Consistent, RoundsLinked, RoundsOnce, WorkLinked, WorkOnce, DoWrite, SaysFinal, Entries;
    RoundWork(w, i);
    OnceAt(w.rounds, i);
    WriteCursor(w, i);
    if ws[j + 1].ranges != w.ranges {
      forall e | e in Entries(r.work.seen, r.work.sent) ensures SaysFinal(ws[j + 1].db.observations, e) {
        RangeWrites(w, i, e);
      }
    } else {
      WrittenOrNot(w, i);
    }
  }

  lemma WrittenOrNot(w: World, i: nat)
    requires Reads(w, i) && w.rounds[i].Settling? && w.rounds[i].work.Receiving? && DoWrite(w, i).ranges == w.ranges
    ensures DoWrite(w, i).db == w.db
  {
    hide Record;
    assert |w.ranges + [Range(w.rounds[i].first, w.rounds[i].last)]| == |w.ranges| + 1;
  }
}
