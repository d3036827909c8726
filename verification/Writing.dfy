/** What a round writes keeps the rows saying what the chain says, up to where the cursor then is. */
module Writing {
  import opened Basics
  import opened Lifecycle
  import opened Records
  import opened Evidence
  import opened Tables
  import opened Chains
  import opened Reading
  import opened RowFacts
  import opened Protocol
  import opened Consistency
  import opened Reachable
  import opened Index
  import opened Indexing
  import opened Observing

  // ---- what is put

  /** A row is one of the entries', as final as the round or as it was, or it is untouched. */
  ghost predicate PutFrom(rows: map<Ref, Observation>, es: seq<Entry>, final: bool, ref: Ref, o: Observation) {
    || (exists e :: e in es && e.ref == ref && o.place == e.place && o.transfer == e.transfer && o.reason == e.reason
          && o.final == (final || (ref in rows && rows[ref].final)))
    || (ref in rows && o == rows[ref] && forall e :: e in es ==> e.ref != ref)
  }

  lemma {:induction false} PutExact(rows: map<Ref, Observation>, es: seq<Entry>, final: bool)
    ensures var put := Put(rows, es, final);
            && (forall ref :: ref in rows ==> ref in put)
            && (forall e :: e in es ==> e.ref in put)
            && (forall ref :: ref in put ==> PutFrom(rows, es, final, ref, put[ref]))
  {
    if es != [] {
      var front, e := es[..|es| - 1], es[|es| - 1];
      PutExact(rows, front, final);
      assert es == front + [e];
      var put := Put(rows, es, final);
      forall ref | ref in put ensures PutFrom(rows, es, final, ref, put[ref]) {
        if ref == e.ref {
          assert e in es;
          if ref in Put(rows, front, final) {
            assert PutFrom(rows, front, final, ref, Put(rows, front, final)[ref]);
          }
        } else {
          assert PutFrom(rows, front, final, ref, Put(rows, front, final)[ref]);
        }
      }
    }
  }

  /** The only thing written of a row is what the row says. */
  lemma OnlyEntry(rows: map<Ref, Observation>, es: seq<Entry>, final: bool, e: Entry)
    requires e in es && forall q :: q in es && q.ref == e.ref ==> q == e
    ensures e.ref in Put(rows, es, final) && Put(rows, es, final)[e.ref].reason == e.reason
    ensures Put(rows, es, final)[e.ref].transfer == e.transfer && Put(rows, es, final)[e.ref].place == e.place
  {
    PutExact(rows, es, final);
    hide Put;
    assert PutFrom(rows, es, final, e.ref, Put(rows, es, final)[e.ref]);
  }

  /** The rows a final pass over a range leaves behind. */
  function Passed(rows: map<Ref, Observation>, first: nat, last: nat, es: seq<Entry>): map<Ref, Observation> {
    var put := Put(rows, es, true);
    Mark(put, LostIn(put, first, last, TxsOf(es)))
  }

  lemma PassedIs(db: Rows, first: nat, last: nat, es: seq<Entry>)
    ensures Written(db, first, last, true, es).observations == Passed(db.observations, first, last, es)
  {
    var put := db.(observations := Put(db.observations, es, true));
    LoseKeeps(put, LostIn(put.observations, first, last, TxsOf(es)));
  }

  /** A row a final pass touched is an entry's and stands; one it did not either is as it was or is gone from the range. */
  lemma PassedRow(rows: map<Ref, Observation>, first: nat, last: nat, es: seq<Entry>, ref: Ref)
    requires ref in Passed(rows, first, last, es)
    ensures var o := Passed(rows, first, last, es)[ref];
            || (exists e :: e in es && e.ref == ref && o.place == e.place && o.transfer == e.transfer && o.reason == e.reason && o.final)
            || (&& ref in rows && (forall e :: e in es ==> e.ref != ref)
                && (o == rows[ref] || o == rows[ref].(reason := Vanished))
                && (o == rows[ref] || first <= rows[ref].place.height <= last)
                && (first <= o.place.height <= last && Stands(o) ==> exists e :: e in es && e.ref.tx == ref.tx))
  {
    PutExact(rows, es, true);
    var put := Put(rows, es, true);
    assert PutFrom(rows, es, true, ref, put[ref]);
    if e :| e in es && e.ref == ref {
      var i :| 0 <= i < |es| && es[i] == e;
      assert ref.tx in TxsOf(es);
    }
  }

  lemma PassedKeeps(rows: map<Ref, Observation>, first: nat, last: nat, es: seq<Entry>, ref: Ref)
    requires (ref in rows && rows[ref].final) || exists e :: e in es && e.ref == ref
    ensures ref in Passed(rows, first, last, es) && Passed(rows, first, last, es)[ref].final
  {
    PutExact(rows, es, true);
    assert PutFrom(rows, es, true, ref, Put(rows, es, true)[ref]);
  }

  // ---- a finalised range

  ghost predicate NothingIssued(db: Rows, d: Rows) { forall k :: IssuedKey(d, k) ==> IssuedKey(db, k) }

  /** What a standing row says is owed a row. */
  lemma StandingIsOwed(env: Env, c: Chain, db: Rows, ref: Ref)
    requires RowsLinked(db) && RowsSound(env, db) && ref in db.observations
    requires RowTrue(env, c, db.cursor, ref, db.observations[ref])
    requires Stands(db.observations[ref]) && db.observations[ref].transfer.asset in env.watched
    ensures Owed(env, ref.tx, db.observations[ref].transfer) && IssuedKey(db, ref.key)
    ensures db.observations[ref].transfer.key == ref.key
  {
    var o := db.observations[ref];
    assert RowLinked(db, ref, o);
    match o.against
    case ForAttempt(a) => assert HoldsAttempt(db, a, ref.key);
    case ForRefund(r) =>
      assert Refundable(db, db.refunds[r].payment);
      assert HoldsRefund(db, r, ref.key);
  }

  lemma PassedIsTrue(env: Env, c: Chain, db: Rows, first: nat, last: nat, to: Position, work: Work, es: seq<Entry>, ref: Ref)
    requires RowsLinked(db) && RowsSound(env, db) && RowsTrue(env, c, db) && RowsWatched(env, db.observations)
    requires db.cursor.Some? && first == db.cursor.value.height + 1 <= last && to.height == last
    requires work.Receiving? && work.todo == [] && es == Entries(work.seen, work.sent)
    requires WorkFinal(env, c, db, first, last, work)
    requires ref in Passed(db.observations, first, last, es)
    ensures RowTrue(env, c, Some(to), ref, Passed(db.observations, first, last, es)[ref])
  {
    EntriesFinal(env, c, first, last, work.seen, work.sent);
    var o := Passed(db.observations, first, last, es)[ref];
    hide RowsLinked, RowsSound, Passed, Within, IssuedKey, WorkFinal;
    PassedRow(db.observations, first, last, es, ref);
    if e :| e in es && e.ref == ref && o.place == e.place && o.transfer == e.transfer && o.reason == e.reason && o.final {
      assert EntryFinal(env, c, first, last, e);
    } else {
      assert RowTrue(env, c, db.cursor, ref, db.observations[ref]);
      if !o.final && first <= o.place.height <= last && Stands(o) {
        var e :| e in es && e.ref.tx == ref.tx;
        assert EntryFinal(env, c, first, last, e);
        StandingIsOwed(env, c, db, ref);
        UnnotedIsNotOwed(env, c, db, first, last, work, ref, e);
      }
    }
  }

  /** A transfer owed a row, in a transaction of the range, is among the entries. */
  lemma UnnotedIsNotOwed(env: Env, c: Chain, db: Rows, first: nat, last: nat, work: Work, ref: Ref, e: Entry)
    requires work.Receiving? && work.todo == [] && WorkFinal(env, c, db, first, last, work)
    requires e.ref.tx == ref.tx && EntryFinal(env, c, first, last, e)
    requires ref in db.observations && db.observations[ref].transfer.key == ref.key
    requires Owed(env, ref.tx, db.observations[ref].transfer) && IssuedKey(db, ref.key)
    ensures exists d :: d in Entries(work.seen, work.sent) && d.ref == ref
  {
    assert Within(c, first, last, ref.tx);
    assert Covered(work, ref.key, ref.tx);
    NotedIsEntry(work.seen, work.sent, ref);
  }

  lemma NotedIsEntry(seen: seq<Seen>, sent: seq<Sent>, ref: Ref)
    requires Noted(seen, sent, ref)
    ensures exists d :: d in Entries(seen, sent) && d.ref == ref
  {
    var es := Entries(seen, sent);
    if s :| s in seen && SeenEntry(s).ref == ref {
      var i :| 0 <= i < |seen| && seen[i] == s;
      assert es[i] in es;
    } else {
      var s :| s in sent && SentEntry(s).ref == ref;
      var i :| 0 <= i < |sent| && sent[i] == s;
      assert es[|seen| + i] in es;
    }
  }

  lemma EntriesFinal(env: Env, c: Chain, first: nat, last: nat, seen: seq<Seen>, sent: seq<Sent>)
    requires forall s :: s in seen ==> EntryFinal(env, c, first, last, SeenEntry(s))
    requires forall s :: s in sent ==> EntryFinal(env, c, first, last, SentEntry(s))
    ensures forall e :: e in Entries(seen, sent) ==> EntryFinal(env, c, first, last, e)
  {
    var es := Entries(seen, sent);
    forall e | e in es ensures EntryFinal(env, c, first, last, e) {
      var i :| 0 <= i < |es| && es[i] == e;
      if i < |seen| {
        assert seen[i] in seen;
      } else {
        assert sent[i - |seen|] in sent && e == SentEntry(sent[i - |seen|]);
      }
    }
  }

  lemma PassedIsWhole(env: Env, c: Chain, db: Rows, d: Rows, first: nat, last: nat, work: Work)
    requires RowsWhole(env, c, db) && NothingIssued(db, d)
    requires db.cursor.Some? && first == db.cursor.value.height + 1 <= last
    requires d.cursor.Some? && d.cursor.value.height == last
    requires work.Receiving? && work.todo == [] && WorkFinal(env, c, db, first, last, work)
    requires d.observations == Passed(db.observations, first, last, Entries(work.seen, work.sent))
    ensures RowsWhole(env, c, d)
  {
    hide Passed;
    var es := Entries(work.seen, work.sent);
    forall h: nat, x, t | ReadTo(d.cursor, h) && On(c, h, x) && Owed(env, x, t) && IssuedKey(d, t.key)
      ensures HasFinal(d, Ref(t.key, x))
    {
      if h < first {
        assert ReadTo(db.cursor, h);
        assert HasFinal(db, Ref(t.key, x));
      } else {
        assert Within(c, first, last, x);
        assert Covered(work, t.key, x);
        NotedIsEntry(work.seen, work.sent, Ref(t.key, x));
      }
      PassedKeeps(db.observations, first, last, es, Ref(t.key, x));
    }
  }

  // ---- what is read ahead of it

  lemma EntriesAhead(env: Env, c: Chain, f: nat, seen: seq<Seen>, sent: seq<Sent>)
    requires forall s :: s in seen ==> EntryAhead(env, c, f, SeenEntry(s))
    requires forall s :: s in sent ==> EntryAhead(env, c, f, SentEntry(s))
    ensures forall e :: e in Entries(seen, sent) ==> EntryAhead(env, c, f, e)
  {
    var es := Entries(seen, sent);
    forall e | e in es ensures EntryAhead(env, c, f, e) {
      var i :| 0 <= i < |es| && es[i] == e;
      if i < |seen| {
        assert seen[i] in seen;
      } else {
        assert sent[i - |seen|] in sent && e == SentEntry(sent[i - |seen|]);
      }
    }
  }

  /** A row read ahead is above the cursor, and no final row is written over. */
  lemma AheadIsTrue(env: Env, c: Chain, db: Rows, d: Rows, f: nat, es: seq<Entry>)
    requires RowsTrue(env, c, db) && db.cursor.Some? && db.cursor.value.height <= f && d.cursor == db.cursor
    requires d.observations == Put(db.observations, es, false)
    requires forall e :: e in es ==> EntryAhead(env, c, f, e)
    ensures RowsTrue(env, c, d)
  {
    hide Put;
    PutExact(db.observations, es, false);
    forall ref | ref in d.observations ensures RowTrue(env, c, d.cursor, ref, d.observations[ref]) {
      assert PutFrom(db.observations, es, false, ref, d.observations[ref]);
      assert ref in db.observations ==> RowTrue(env, c, db.cursor, ref, db.observations[ref]);
      if e :| e in es && e.ref == ref {
        assert EntryAhead(env, c, f, e);
      }
    }
  }

  lemma AheadIsWhole(env: Env, c: Chain, db: Rows, d: Rows, es: seq<Entry>)
    requires RowsWhole(env, c, db) && NothingIssued(db, d) && d.cursor == db.cursor
    requires d.observations == Put(db.observations, es, false)
    ensures RowsWhole(env, c, d)
  {
    hide Put;
    PutExact(db.observations, es, false);
    forall h: nat, x, t | ReadTo(d.cursor, h) && On(c, h, x) && Owed(env, x, t) && IssuedKey(d, t.key)
      ensures HasFinal(d, Ref(t.key, x))
    {
      var ref := Ref(t.key, x);
      assert HasFinal(db, ref);
      assert PutFrom(db.observations, es, false, ref, d.observations[ref]);
    }
  }

  // ---- the step

  /** Recording issues no key, opens no payment and calls none paid. */
  lemma RecordIndex(env: Env, db: Rows, d: Rows, decisions: set<Decision>)
    requires RowsLinked(db) && RowsSound(env, db) && Watching(db, decisions) && db.cursor.Some?
    requires PaymentsReceive(db.payments, d.payments) && AttemptsSeen(db.attempts, d.attempts)
    requires d.refunds == db.refunds && d.cursor.Some?
    ensures RowsSound(env, d) && Watching(d, decisions) && NothingIssued(db, d)
  {
    RecordGrows(db, d);
    SoundStays(env, db, d);
    KeysStay(env, {}, db, d);
    forall k | IssuedKey(d, k) ensures IssuedKey(db, k) {
      KeyStays(env, db, d, k);
    }
  }

  lemma KeyStays(env: Env, db: Rows, d: Rows, k: Key)
    requires Grows(db, d) && AttemptsLinked(db) && RefundsLinked(db) && IssuedKey(d, k)
    requires d.attempts.Keys == db.attempts.Keys && d.refunds.Keys == db.refunds.Keys
    ensures IssuedKey(db, k)
  {
    KeysSurvive(db, d);
    if AttemptKey(d, k) {
      var a :| HoldsAttempt(d, a, k);
      assert HoldsAttempt(db, a, k);
    } else {
      var r :| HoldsRefund(d, r, k);
      assert HoldsRefund(db, r, k);
    }
  }

  /** What a write that went through made of the rows. */
  lemma Wrote(w: World, i: nat) returns (d: Rows)
    requires Reads(w, i) && w.rounds[i].work.Receiving? && WorkLinked(w.db, w.rounds[i].work)
    ensures var r, work, v := w.rounds[i], w.rounds[i].work, DoWrite(w, i);
            if r.Settling? && v.ranges != w.ranges then
              && v == w.(db := d.(cursor := Some(r.to)), rounds := w.rounds[i := Between(r.final, r.latest)], ranges := v.ranges)
              && d.observations == Written(w.db, r.first, r.last, true, Entries(work.seen, work.sent)).observations
            else if r.Ahead? && v.db != w.db then
              && v == w.(db := d, rounds := Dropped(w.rounds, i))
              && d.observations == Put(w.db.observations, Entries(work.seen, work.sent), false)
            else v == w.(rounds := Dropped(w.rounds, i)) && d == w.db
    ensures PaymentsReceive(w.db.payments, d.payments) && AttemptsSeen(w.db.attempts, d.attempts)
    ensures OnlyConfirmings(w.db.outbox, d.outbox) && d.refunds == w.db.refunds && d.cursor == w.db.cursor
  {
    var r, work := w.rounds[i], w.rounds[i].work;
    hide WorkLinked, Written, Confirm, Credited, Storable;
    assert forall s :: s in work.seen ==> SeenLinked(w.db, s) by { SeenAreLinked(w.db, work); }
    LinkedIsCurrent(w.db, work.seen);
    d := w.db;
    if r.Settling? && DoWrite(w, i).ranges != w.ranges {
      d := Record(w.db, r.first, r.last, true, work.seen, work.sent).value;
      RecordObservations(w.db, r.first, r.last, true, work.seen, work.sent);
      RecordKeeps(w.db, r.first, r.last, true, work.seen, work.sent);
    } else if r.Ahead? && DoWrite(w, i).db != w.db {
      d := Record(w.db, r.first, r.last, false, work.seen, work.sent).value;
      RecordObservations(w.db, r.first, r.last, false, work.seen, work.sent);
      RecordKeeps(w.db, r.first, r.last, false, work.seen, work.sent);
      AheadPuts(w.db, r.first, r.last, Entries(work.seen, work.sent));
    }
  }

  lemma AheadPuts(db: Rows, first: nat, last: nat, es: seq<Entry>)
    ensures Written(db, first, last, false, es).observations == Put(db.observations, es, false)
  {
  }

  lemma SeenAreLinked(db: Rows, work: Work)
    requires work.Receiving? && WorkLinked(db, work)
    ensures forall s :: s in work.seen ==> SeenLinked(db, s)
  {
  }

  /** A round that committed a finalised range leaves the cursor on it, and the rows true and whole up to there. */
  lemma SettledIndexed(env: Env, w: World, i: nat)
    requires Reads(w, i) && w.rounds[i].Settling? && w.rounds[i].work.Receiving? && w.rounds[i].work.todo == []
    requires Indexed(env, w) && RowsLinked(w.db) && WorkLinked(w.db, w.rounds[i].work)
    requires RowsWatched(env, w.db.observations) && DoWrite(w, i).ranges != w.ranges
    ensures Indexed(env, DoWrite(w, i))
  {
    hide RowsLinked, WorkLinked, DoWrite, WorkFinal, ChainTrue, CallsSound, RowsWhole, RowsTrue, RowsWatched,
         RowsSound, Watching, PaymentsReceive, AttemptsSeen;
    OneRound(env, w, i);
    var r, work := w.rounds[i], w.rounds[i].work;
    var d := Wrote(w, i);
    PassedIs(w.db, r.first, r.last, Entries(work.seen, work.sent));
    SettledRows(env, w, r, d);
  }

  lemma SettledRows(env: Env, w: World, r: Round, d: Rows)
    requires Indexed(env, w) && RowsLinked(w.db) && RowsWatched(env, w.db.observations)
    requires r.Settling? && r.work.Receiving? && r.work.todo == [] && RoundTrue(env, w.chain, w.db, r)
    requires PaymentsReceive(w.db.payments, d.payments) && AttemptsSeen(w.db.attempts, d.attempts)
    requires d.refunds == w.db.refunds && d.cursor == w.db.cursor
    requires d.observations == Passed(w.db.observations, r.first, r.last, Entries(r.work.seen, r.work.sent))
    ensures var to := d.(cursor := Some(r.to));
            && RowsTrue(env, w.chain, to) && RowsWhole(env, w.chain, to)
            && RowsSound(env, to) && Watching(to, w.decisions) && CursorTrue(w.chain, to.cursor)
  {
    var to := d.(cursor := Some(r.to));
    var es := Entries(r.work.seen, r.work.sent);
    hide Passed, RowsLinked, WorkFinal, ChainTrue, RoundsTrue, CallsSound, RowsWhole, PaymentsReceive,
         AttemptsSeen, RowsSound, Watching, NothingIssued, RowsWatched;
    RecordIndex(env, w.db, to, w.decisions);
    forall ref | ref in to.observations ensures RowTrue(env, w.chain, to.cursor, ref, to.observations[ref]) {
      PassedIsTrue(env, w.chain, w.db, r.first, r.last, r.to, r.work, es, ref);
    }
    PassedIsWhole(env, w.chain, w.db, to, r.first, r.last, r.work);
  }

  /** A round that wrote what it read ahead of the final block moved nothing the index is about. */
  lemma AheadIndexed(env: Env, w: World, i: nat)
    requires Reads(w, i) && w.rounds[i].Ahead? && w.rounds[i].work.Receiving? && w.rounds[i].work.todo == []
    requires Indexed(env, w) && RowsLinked(w.db) && WorkLinked(w.db, w.rounds[i].work)
    ensures Indexed(env, DoWrite(w, i))
  {
    hide RowsLinked, WorkLinked, DoWrite, WorkAhead, ChainTrue, CallsSound, RowsWhole, RowsTrue,
         RowsSound, Watching, PaymentsReceive, AttemptsSeen, Put;
    OneRound(env, w, i);
    RoundDropped(env, w, i);
    var d := Wrote(w, i);
    if DoWrite(w, i).db != w.db {
      AheadRows(env, w, w.rounds[i], d);
      NoRounds(env, w, i);
    }
  }

  lemma NoRounds(env: Env, w: World, i: nat)
    requires Indexed(env, w) && i in w.rounds
    ensures Dropped(w.rounds, i) == map[]
  {
    OneRound(env, w, i);
  }

  lemma WorkEntries(env: Env, c: Chain, f: nat, work: Work)
    requires work.Receiving? && WorkAhead(env, c, f, work)
    ensures forall e :: e in Entries(work.seen, work.sent) ==> EntryAhead(env, c, f, e)
  {
    EntriesAhead(env, c, f, work.seen, work.sent);
  }

  lemma AheadRows(env: Env, w: World, r: Round, d: Rows)
    requires Indexed(env, w) && RowsLinked(w.db)
    requires r.Ahead? && r.work.Receiving? && RoundTrue(env, w.chain, w.db, r)
    requires PaymentsReceive(w.db.payments, d.payments) && AttemptsSeen(w.db.attempts, d.attempts)
    requires d.refunds == w.db.refunds && d.cursor == w.db.cursor
    requires d.observations == Put(w.db.observations, Entries(r.work.seen, r.work.sent), false)
    ensures RowsTrue(env, w.chain, d) && RowsWhole(env, w.chain, d)
    ensures RowsSound(env, d) && Watching(d, w.decisions)
  {
    hide RowsTrue, RowsLinked, ChainTrue, RoundsTrue, CallsSound, RowsWhole, PaymentsReceive, AttemptsSeen, RowsSound,
         Watching, NothingIssued, Put, EntryAhead, CursorTrue, WorkAhead, Entries;
    var es := Entries(r.work.seen, r.work.sent);
    WorkEntries(env, w.chain, r.final, r.work);
    AheadIsTrue(env, w.chain, w.db, d, r.final, es);
    RecordIndex(env, w.db, d, w.decisions);
    AheadIsWhole(env, w.chain, w.db, d, es);
  }
}
