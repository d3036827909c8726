/** What an observer's steps read of the chain is what is there, and all of it. */
module Observing {
  import opened Basics
  import opened Lifecycle
  import opened Records
  import opened Evidence
  import opened Tables
  import opened Chains
  import opened Reading
  import opened RowFacts
  import opened Protocol
  import opened Consistency
  import opened Reachable
  import opened Index
  import opened Indexing

  // ---- rounds come and go

  lemma RoundReplaced(env: Env, w: World, i: nat, r: Round)
    requires Indexed(env, w) && w.rounds.Keys <= {i} && RoundTrue(env, w.chain, w.db, r)
    ensures Indexed(env, w.(rounds := w.rounds[i := r]))
  {
    hide RoundTrue, RowsTrue, RowsWhole, ChainTrue, RowsSound, CallsSound, Watching, CursorTrue;
  }

  lemma RoundDropped(env: Env, w: World, i: nat)
    requires Indexed(env, w)
    ensures Indexed(env, w.(rounds := Dropped(w.rounds, i)))
  {
    hide RoundTrue, RowsTrue, RowsWhole, ChainTrue, RowsSound, CallsSound, Watching, CursorTrue;
    forall j | j in Dropped(w.rounds, i) ensures RoundTrue(env, w.chain, w.db, Dropped(w.rounds, i)[j]) {
      assert RoundTrue(env, w.chain, w.db, w.rounds[j]);
    }
  }

  lemma OneRound(env: Env, w: World, i: nat)
    requires Indexed(env, w) && i in w.rounds
    ensures w.rounds.Keys == {i} && RoundTrue(env, w.chain, w.db, w.rounds[i])
  {
    hide RoundTrue;
  }

  lemma NoRoundYet(env: Env, w: World)
    requires Indexed(env, w) && w.db.cursor.None?
    ensures w.rounds == map[]
  {
    if w.rounds != map[] {
      var i :| i in w.rounds;
      OneRound(env, w, i);
    }
  }

  /** The first position: nothing was issued before it, so nothing up to it is owed a row. */
  lemma FirstPosition(env: Env, c: Chain, db: Rows, h: nat)
    requires h < |c.blocks| && db.attempts == map[] && db.refunds == map[] && db.observations == map[]
    ensures var d := db.(cursor := Some(PositionAt(c, h)));
            RowsTrue(env, c, d) && RowsWhole(env, c, d)
  {
    assert forall k :: !IssuedKey(db.(cursor := Some(PositionAt(c, h))), k);
  }

  lemma InitIndexed(env: Env, w: World, h: nat)
    requires h <= w.chain.final < |w.chain.blocks| && Consistent(w) && Indexed(env, w)
    ensures Indexed(env, DoInit(w, h))
  {
    LinkedRows(w);
    hide Consistent, RowsLinked;
    if w.db.cursor.None? {
      FirstIndexed(env, w, h);
    }
  }

  lemma FirstIndexed(env: Env, w: World, h: nat)
    requires h <= w.chain.final < |w.chain.blocks| && RowsLinked(w.db) && Indexed(env, w) && w.db.cursor.None?
    ensures Indexed(env, w.(db := w.db.(cursor := Some(PositionAt(w.chain, h))), start := h))
  {
    hide RowsLinked, ChainTrue, CallsSound, RoundTrue, RowsTrue, RowsWhole, RowsSound;
    NothingSeen(w.db, w.decisions);
    NoRoundYet(env, w);
    FirstPosition(env, w.chain, w.db, h);
    SoundAnywhere(env, w.db, Some(PositionAt(w.chain, h)));
  }

  lemma SoundAnywhere(env: Env, db: Rows, cursor: Option<Position>)
    requires RowsSound(env, db)
    ensures RowsSound(env, db.(cursor := cursor))
  {
  }

  lemma LinkedRows(w: World)
    requires Consistent(w)
    ensures RowsLinked(w.db)
  {
  }

  lemma BeginIndexed(env: Env, w: World, i: nat, f: nat, l: nat, width: nat)
    requires ObserverMoves(w, Begin(i, f, l, width)) && w.rounds == map[] && Indexed(env, w)
    ensures Indexed(env, w.(rounds := w.rounds[i := BeginRound(w, f, l, width)]))
  {
    hide ChainTrue, RowsSound, RowsWhole, RowsTrue, CallsSound, Watching, RoundsTrue;
    RoundReplaced(env, w, i, BeginRound(w, f, l, width));
  }

  lemma StandIndexed(env: Env, w: World, i: nat)
    requires i in w.rounds && w.rounds[i].Standing? && Indexed(env, w)
    ensures Indexed(env, DoStand(w, i))
  {
    hide ChainTrue, RowsSound, RowsWhole, RowsTrue, CallsSound, Watching, Indexed;
    OneRound(env, w, i);
    var r := w.rounds[i];
    RoundReplaced(env, w, i, Between(r.final, r.latest));
    RoundDropped(env, w, i);
    assert w.db == w.db.(cursor := Some(r.from));
  }

  lemma GoAheadIndexed(env: Env, w: World, i: nat, width: nat)
    requires i in w.rounds && w.rounds[i].Between? && width >= 1 && Indexed(env, w)
    ensures Indexed(env, DoGoAhead(w, i, width))
  {
    hide ChainTrue, RowsSound, RowsWhole, RowsTrue, CallsSound, Watching, Indexed;
    OneRound(env, w, i);
    var r := w.rounds[i];
    RoundDropped(env, w, i);
    if r.latest > r.final {
      RoundReplaced(env, w, i, AheadRound(r.final, r.latest, width));
    }
  }

  /** The work of a round moves on. */
  lemma WorkReplaced(env: Env, w: World, i: nat, work: Work)
    requires Reads(w, i) && Indexed(env, w)
    requires var r := w.rounds[i];
             if r.Settling? then WorkFinal(env, w.chain, w.db, r.first, r.last, work)
             else WorkAhead(env, w.chain, r.final, work)
    ensures Indexed(env, WithWork(w, i, work))
  {
    hide Indexed, WorkFinal, WorkAhead;
    OneRound(env, w, i);
    RoundReplaced(env, w, i, w.rounds[i].(work := work));
  }

  // ---- scanning

  /** What is scanned above a block is in no block up to it. */
  lemma ScanAhead(env: Env, c: Chain, f: nat, first: nat, last: nat)
    requires ValidChain(c, env.ledger) && f < first
    ensures WorkAhead(env, c, f, Looking(KeysIn(c, first, last, env.ledger, env.watched)))
  {
    forall one | one in KeysIn(c, first, last, env.ledger, env.watched) ensures Beyond(c, f, one.tx) {
      KeysInExact(c, first, last, env.ledger, env.watched, one.key, one.tx);
    }
  }

  lemma ScanIndexed(env: Env, w: World, i: nat)
    requires Reads(w, i) && w.rounds[i].work.Scanning? && Indexed(env, w)
    ensures Indexed(env, DoScan(env, w, i))
  {
    hide RowsSound, RowsWhole, RowsTrue, CallsSound, Watching, KeysIn, WorkAhead;
    OneRound(env, w, i);
    var r := w.rounds[i];
    if r.Ahead? {
      ScanAhead(env, w.chain, r.final, r.first, r.last);
    }
    WorkReplaced(env, w, i, Looking(KeysIn(w.chain, r.first, r.last, env.ledger, env.watched)));
  }

  // ---- looking keys up

  ghost function Looked(db: Rows, consumed: seq<Consumed>): Work {
    var against, back := Against(db, consumed), Backs(db, consumed);
    Receiving(against, back, Transactions(consumed, against.Keys + back.Keys), [], [])
  }

  /** Every issued key that was spent in the range is looked for, and the one transaction that spent it is read. */
  lemma LookCovers(env: Env, c: Chain, db: Rows, first: nat, last: nat, x: Tx, t: Transfer)
    requires ValidChain(c, env.ledger) && AttemptsLinked(db) && RefundsLinked(db)
    requires Within(c, first, last, x) && Owed(env, x, t) && IssuedKey(db, t.key)
    ensures var work := Looked(db, KeysIn(c, first, last, env.ledger, env.watched)); Covered(work, t.key, x)
  {
    var consumed := KeysIn(c, first, last, env.ledger, env.watched);
    var held := Against(db, consumed).Keys + Backs(db, consumed).Keys;
    OwedSpends(env, x, t);
    KeysInExact(c, first, last, env.ledger, env.watched, t.key, x);
    KeyIsHeld(db, consumed, t.key, x);
    forall d | d in consumed && d.key == t.key ensures d.tx == x {
      SpentBy(env, c, first, last, t.key, x, d.tx);
    }
    hide Against, Backs, KeysIn, ValidChain, AttemptsLinked, RefundsLinked;
    TransactionsComplete(consumed, held, {}, {}, Consumed(t.key, x));
  }

  /** A key is held by an attempt or by a refund, and never by both. */
  lemma KeyIsHeld(db: Rows, consumed: seq<Consumed>, k: Key, x: Tx)
    requires AttemptsLinked(db) && RefundsLinked(db) && IssuedKey(db, k) && Consumed(k, x) in consumed
    ensures k in Against(db, consumed).Keys + Backs(db, consumed).Keys
  {
    var i :| 0 <= i < |consumed| && consumed[i] == Consumed(k, x);
    assert k in SpentKeys(consumed);
  }

  lemma SpentBy(env: Env, c: Chain, first: nat, last: nat, k: Key, x: Tx, y: Tx)
    requires ValidChain(c, env.ledger) && Within(c, first, last, x) && Consumes(env.ledger, env.watched, x, k)
    requires Consumed(k, y) in KeysIn(c, first, last, env.ledger, env.watched)
    ensures x == y
  {
    KeysInExact(c, first, last, env.ledger, env.watched, k, y);
    var h :| first <= h <= last && On(c, h, x);
    var g :| first <= g <= last && On(c, g, y);
    assert Spends(env.ledger, x, k) && Spends(env.ledger, y, k);
  }

  lemma LookSound(consumed: seq<Consumed>, held: set<Key>)
    ensures forall x :: x in Transactions(consumed, held) ==> exists one :: one in consumed && one.tx == x
  {
    TransactionsSound(consumed, held, {}, {});
  }

  lemma LookFinal(env: Env, c: Chain, db: Rows, first: nat, last: nat)
    requires ValidChain(c, env.ledger) && AttemptsLinked(db) && RefundsLinked(db)
    ensures WorkFinal(env, c, db, first, last, Looked(db, KeysIn(c, first, last, env.ledger, env.watched)))
  {
    var consumed := KeysIn(c, first, last, env.ledger, env.watched);
    var work := Looked(db, consumed);
    forall x | x in work.todo ensures Within(c, first, last, x) {
      LookSound(consumed, work.against.Keys + work.back.Keys);
      var one :| one in consumed && one.tx == x;
      KeysInExact(c, first, last, env.ledger, env.watched, one.key, x);
    }
    forall k | k in work.against || k in work.back ensures SpentWithin(env, c, first, last, k) {
      var i :| 0 <= i < |consumed| && consumed[i].key == k;
      assert consumed[i] == Consumed(k, consumed[i].tx) && consumed[i] in consumed;
      KeysInExact(c, first, last, env.ledger, env.watched, k, consumed[i].tx);
    }
    forall x, t | Within(c, first, last, x) && Owed(env, x, t) && IssuedKey(db, t.key) ensures Covered(work, t.key, x) {
      LookCovers(env, c, db, first, last, x, t);
    }
  }

  lemma LookAhead(env: Env, c: Chain, db: Rows, f: nat, consumed: seq<Consumed>)
    requires WorkAhead(env, c, f, Looking(consumed))
    ensures WorkAhead(env, c, f, Looked(db, consumed))
  {
    hide Beyond;
    var work := Looked(db, consumed);
    LookSound(consumed, work.against.Keys + work.back.Keys);
  }

  lemma LookIndexed(env: Env, w: World, i: nat)
    requires Reads(w, i) && w.rounds[i].work.Looking? && Indexed(env, w) && RowsLinked(w.db)
    ensures Indexed(env, DoLook(w, i))
  {
    hide RowsSound, RowsWhole, RowsTrue, CallsSound, Watching, KeysIn, Looked, Against, Backs, Transactions;
    OneRound(env, w, i);
    var r := w.rounds[i];
    if r.Ahead? {
      LookAhead(env, w.chain, w.db, r.final, r.work.consumed);
    } else {
      LookFinal(env, w.chain, w.db, r.first, r.last);
    }
    hide WorkFinal, WorkAhead;
    WorkReplaced(env, w, i, Looked(w.db, r.work.consumed));
    LookedIs(w, i);
  }

  lemma LookedIs(w: World, i: nat)
    requires Reads(w, i) && w.rounds[i].work.Looking?
    ensures DoLook(w, i) == WithWork(w, i, Looked(w.db, w.rounds[i].work.consumed))
  {
  }

  // ---- reading receipts

  lemma SameTransfer(env: Env, x: Tx, t: Transfer, u: Transfer)
    requires ValidLedger(env.ledger) && Carries(env.ledger, x, t) && Carries(env.ledger, x, u) && t.key == u.key
    ensures t == u
  {
    var i :| 0 <= i < |env.ledger[x]| && env.ledger[x][i] == t;
    var j :| 0 <= j < |env.ledger[x]| && env.ledger[x][j] == u;
    assert !(i < j) && !(j < i);
  }

  /** A transfer of a key that a watched asset consumed in the range is the transfer that consumed it. */
  lemma ConsumedIsWatched(env: Env, c: Chain, first: nat, last: nat, x: Tx, t: Transfer)
    requires ValidChain(c, env.ledger) && ValidLedger(env.ledger)
    requires Within(c, first, last, x) && Carries(env.ledger, x, t) && SpentWithin(env, c, first, last, t.key)
    ensures t.asset in env.watched
  {
    var y :| Within(c, first, last, y) && Consumes(env.ledger, env.watched, y, t.key);
    var i :| 0 <= i < |env.ledger[y]| && env.ledger[y][i].key == t.key && env.ledger[y][i].asset in env.watched;
    assert Spends(env.ledger, y, t.key);
    var j :| 0 <= j < |env.ledger[x]| && env.ledger[x][j] == t;
    assert Spends(env.ledger, x, t.key);
    var g, h :| On(c, g, y) && On(c, h, x);
    assert x == y;
    SameTransfer(env, x, t, env.ledger[y][i]);
  }

  lemma FoundWithin(c: Chain, ledger: Ledger, first: nat, last: nat, x: Tx)
    requires ValidChain(c, ledger) && Within(c, first, last, x)
    ensures Find(c, x).Some? && first <= Find(c, x).value.height <= last
    ensures PlacedAt(c, Find(c, x).value) && On(c, Find(c, x).value.height, x)
  {
    var h :| first <= h <= last && On(c, h, x);
    var at := Find(c, x).value;
    assert On(c, at.height, x);
  }

  /** A receipt of a final range adds only transfers that are there. */
  lemma ReceiptSound(env: Env, c: Chain, first: nat, last: nat, x: Tx, work: Work)
    requires ChainTruth(env, c) && work.Receiving? && Within(c, first, last, x)
    requires forall k :: k in work.against || k in work.back ==> SpentWithin(env, c, first, last, k)
    ensures x in env.ledger && Find(c, x).Some?
    ensures var ts, at := env.ledger[x], Find(c, x).value;
            && (forall s :: s in SeenIn(ts, x, at, work.against) ==> EntryFinal(env, c, first, last, SeenEntry(s)))
            && (forall s :: s in SentIn(ts, x, at, work.against, work.back) ==> EntryFinal(env, c, first, last, SentEntry(s)))
  {
    FoundWithin(c, env.ledger, first, last, x);
    var ts, at := env.ledger[x], Find(c, x).value;
    forall s | s in SeenIn(ts, x, at, work.against) ensures EntryFinal(env, c, first, last, SeenEntry(s)) {
      SeenInExact(ts, x, at, work.against, s);
      var t :| t in ts && SeenOf(t, x, at, work.against) == Some(s);
      ConsumedIsWatched(env, c, first, last, x, t);
    }
    forall s | s in SentIn(ts, x, at, work.against, work.back) ensures EntryFinal(env, c, first, last, SentEntry(s)) {
      SentInExact(ts, x, at, work.against, work.back, s);
      var t :| t in ts && SentOf(t, x, at, work.against, work.back) == Some(s);
      ConsumedIsWatched(env, c, first, last, x, t);
    }
  }

  ghost predicate ChainTruth(env: Env, c: Chain) { ValidLedger(env.ledger) && ValidChain(c, env.ledger) }

  /** A receipt notes every transfer of a key that is looked for. */
  lemma ReceiptNotes(env: Env, db: Rows, x: Tx, at: Place, t: Transfer, work: Work)
    requires work.Receiving? && WorkLinked(db, work) && RowsSound(env, db) && Owed(env, x, t)
    requires t.key in work.against || t.key in work.back
    ensures Noted(SeenIn(env.ledger[x], x, at, work.against), SentIn(env.ledger[x], x, at, work.against, work.back), Ref(t.key, x))
  {
    var ts := env.ledger[x];
    if t.key in work.against {
      assert HitLinked(db, t.key, work.against[t.key]);
      var s := SeenOf(t, x, at, work.against).value;
      SeenInExact(ts, x, at, work.against, s);
      assert SeenEntry(s).ref == Ref(t.key, x);
    } else {
      assert BackLinked(db, t.key, work.back[t.key]);
      var s := SentOf(t, x, at, work.against, work.back).value;
      SentInExact(ts, x, at, work.against, work.back, s);
      assert SentEntry(s).ref == Ref(t.key, x);
    }
  }

  lemma NotedEither(a: seq<Seen>, b: seq<Seen>, c: seq<Sent>, d: seq<Sent>, ref: Ref)
    requires Noted(a, c, ref) || Noted(b, d, ref)
    ensures Noted(a + b, c + d, ref)
  {
    if s :| s in a && SeenEntry(s).ref == ref {
      assert s in a + b;
    } else if s :| s in b && SeenEntry(s).ref == ref {
      assert s in a + b;
    } else if s :| s in c && SentEntry(s).ref == ref {
      assert s in c + d;
    } else {
      var s :| s in d && SentEntry(s).ref == ref;
      assert s in c + d;
    }
  }

  function Received(env: Env, x: Tx, at: Place, work: Work): Work
    requires work.Receiving? && work.todo != []
  {
    var ts := if x in env.ledger then env.ledger[x] else [];
    work.(todo := work.todo[1..],
          seen := work.seen + SeenIn(ts, x, at, work.against),
          sent := work.sent + SentIn(ts, x, at, work.against, work.back))
  }

  lemma ReceiptCovers(env: Env, db: Rows, at: Place, work: Work, x: Tx, t: Transfer)
    requires work.Receiving? && work.todo != [] && WorkLinked(db, work) && RowsSound(env, db)
    requires Owed(env, x, t) && Covered(work, t.key, x)
    ensures Covered(Received(env, work.todo[0], at, work), t.key, x)
  {
    hide WorkLinked, RowsSound, SeenIn, SentIn;
    var y := work.todo[0];
    var ts := if y in env.ledger then env.ledger[y] else [];
    var seen, sent := SeenIn(ts, y, at, work.against), SentIn(ts, y, at, work.against, work.back);
    if Noted(work.seen, work.sent, Ref(t.key, x)) {
      NotedEither(work.seen, seen, work.sent, sent, Ref(t.key, x));
    } else if x == y {
      ReceiptNotes(env, db, x, at, t, work);
      NotedEither(work.seen, seen, work.sent, sent, Ref(t.key, x));
    } else {
      assert work.todo == [y] + work.todo[1..];
    }
  }

  lemma ReceiptFinal(env: Env, c: Chain, db: Rows, first: nat, last: nat, work: Work)
    requires ChainTruth(env, c) && RowsSound(env, db) && WorkLinked(db, work)
    requires work.Receiving? && work.todo != [] && WorkFinal(env, c, db, first, last, work)
    ensures Find(c, work.todo[0]).Some?
    ensures WorkFinal(env, c, db, first, last, Received(env, work.todo[0], Find(c, work.todo[0]).value, work))
  {
    hide RowsSound, WorkLinked, ChainTruth, Covered, EntryFinal, SpentWithin, Within, SeenIn, SentIn, Find;
    var x := work.todo[0];
    ReceiptSound(env, c, first, last, x, work);
    var after := Received(env, x, Find(c, x).value, work);
    forall y, t | Within(c, first, last, y) && Owed(env, y, t) && IssuedKey(db, t.key) ensures Covered(after, t.key, y) {
      ReceiptCovers(env, db, Find(c, x).value, work, y, t);
    }
  }

  lemma FoundAhead(c: Chain, f: nat, x: Tx)
    requires Beyond(c, f, x) && Find(c, x).Some?
    ensures f < Find(c, x).value.height
  {
  }

  lemma ReceiptAhead(env: Env, c: Chain, f: nat, work: Work)
    requires work.Receiving? && work.todo != [] && WorkAhead(env, c, f, work) && Find(c, work.todo[0]).Some?
    ensures WorkAhead(env, c, f, Received(env, work.todo[0], Find(c, work.todo[0]).value, work))
  {
    hide Beyond, SeenIn, SentIn;
    var x := work.todo[0];
    var at := Find(c, x).value;
    FoundAhead(c, f, x);
    var ts := if x in env.ledger then env.ledger[x] else [];
    forall s | s in SeenIn(ts, x, at, work.against) ensures EntryAhead(env, c, f, SeenEntry(s)) {
      SeenInExact(ts, x, at, work.against, s);
      var t :| t in ts && SeenOf(t, x, at, work.against) == Some(s);
    }
    forall s | s in SentIn(ts, x, at, work.against, work.back) ensures EntryAhead(env, c, f, SentEntry(s)) {
      SentInExact(ts, x, at, work.against, work.back, s);
      var t :| t in ts && SentOf(t, x, at, work.against, work.back) == Some(s);
    }
  }

  lemma ReceiptIs(env: Env, w: World, i: nat)
    requires Reads(w, i) && w.rounds[i].work.Receiving? && w.rounds[i].work.todo != []
    ensures var work := w.rounds[i].work;
            DoReceipt(env, w, i) ==
              if Find(w.chain, work.todo[0]).None? then w.(rounds := Dropped(w.rounds, i))
              else WithWork(w, i, Received(env, work.todo[0], Find(w.chain, work.todo[0]).value, work))
  {
  }

  lemma ReceiptIndexed(env: Env, w: World, i: nat)
    requires Reads(w, i) && w.rounds[i].work.Receiving? && w.rounds[i].work.todo != []
    requires Indexed(env, w) && RoundsLinked(w.db, w.rounds)
    ensures Indexed(env, DoReceipt(env, w, i))
  {
    OneRound(env, w, i);
    assert RoundLinked(w.db, w.rounds[i]);
    hide RowsSound, RowsWhole, RowsTrue, CallsSound, Watching, Received, DoReceipt, WorkFinal, WorkAhead, WithWork, Find;
    ReceiptIs(env, w, i);
    var r := w.rounds[i];
    RoundDropped(env, w, i);
    if Find(w.chain, r.work.todo[0]).Some? {
      if r.Ahead? {
        ReceiptAhead(env, w.chain, r.final, r.work);
      } else {
        ReceiptFinal(env, w.chain, w.db, r.first, r.last, r.work);
      }
      WorkReplaced(env, w, i, Received(env, r.work.todo[0], Find(w.chain, r.work.todo[0]).value, r.work));
    }
  }
}
