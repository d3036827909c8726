/** What a round reads and writes where nothing moves under it: which blocks, and that it goes through. */
module Unraced {
  import opened Basics
  import opened Lifecycle
  import opened Records
  import opened Evidence
  import opened Tables
  import opened Chains
  import opened Reading
  import opened RowFacts
  import opened Protocol
  import opened Consistency
  import opened Reachable
  import opened Index
  import opened Indexing
  import opened Observing
  import opened ReadOnce
  import opened Writing
  import opened IndexAgrees
  import opened Bookkeeping
  import opened Arrivals
  import opened Progress

  // ---- what a round has of the blocks it reads

  /** The attempts a round looked up are as they were, and so is each one it saw. */
  ghost predicate AsLooked(db: Rows, work: Work)
    requires work.Receiving?
  {
    && (forall k :: k in work.against ==> work.against[k].attempt in db.attempts
                                          && db.attempts[work.against[k].attempt] == work.against[k].read)
    && forall s :: s in work.seen ==> AsRead(db, s)
  }

  /** A round has everything its blocks hold so far, of attempts as they still are, each seen once. */
  ghost predicate Covering(env: Env, w: World, i: nat) {
    && Reads(w, i)
    && var r := w.rounds[i];
       && WorkFinal(env, w.chain, w.db, r.first, r.last, r.work)
       && (r.work.Receiving? ==> AsLooked(w.db, r.work) && SeenApart(r.work.seen))
  }

  lemma LooksAsIs(db: Rows, consumed: seq<Consumed>)
    ensures AsLooked(db, Looked(db, consumed)) && SeenApart(Looked(db, consumed).seen)
  {
  }

  lemma SeenAsLooked(db: Rows, ts: seq<Transfer>, x: Tx, at: Place, work: Work, s: Seen)
    requires work.Receiving? && AsLooked(db, work) && s in SeenIn(ts, x, at, work.against)
    ensures AsRead(db, s)
  {
    SeenInExact(ts, x, at, work.against, s);
  }

  predicate OfOtherKeys(seen: seq<Seen>) {
    forall i, j :: 0 <= i < j < |seen| ==> seen[i].transfer.key != seen[j].transfer.key
  }

  /** One receipt's transfers are each of another key. */
  lemma {:induction false} SeenInApart(ts: seq<Transfer>, x: Tx, at: Place, against: map<Key, Hit>)
    requires forall i, j :: 0 <= i < j < |ts| ==> ts[i].key != ts[j].key
    ensures OfOtherKeys(SeenIn(ts, x, at, against))
  {
    if ts != [] {
      var front := ts[..|ts| - 1];
      SeenInApart(front, x, at, against);
      forall s | s in SeenIn(front, x, at, against) ensures s.transfer.key != ts[|ts| - 1].key {
        SeenInExact(front, x, at, against, s);
        var t :| t in front && SeenOf(t, x, at, against) == Some(s);
        var i :| 0 <= i < |front| && front[i] == t;
        SeenOfKey(t, x, at, against);
        assert ts[i] == t;
      }
      SeenOfKey(ts[|ts| - 1], x, at, against);
      hide SeenOf;
      AppendsApart(SeenIn(front, x, at, against), SeenOf(ts[|ts| - 1], x, at, against), ts[|ts| - 1].key);
    }
  }

  lemma SeenOfKey(t: Transfer, x: Tx, at: Place, against: map<Key, Hit>)
    ensures SeenOf(t, x, at, against).Some? ==> SeenOf(t, x, at, against).value.transfer == t
  {
  }

  lemma AppendsApart(seen: seq<Seen>, one: Option<Seen>, key: Key)
    requires OfOtherKeys(seen) && forall s :: s in seen ==> s.transfer.key != key
    requires one.Some? ==> one.value.transfer.key == key
    ensures OfOtherKeys(seen + Optional(one))
  {
    assert forall i :: 0 <= i < |seen| ==> seen[i] in seen;
  }

  /** What was seen of the same attempt was seen of the same key. */
  lemma SameKey(db: Rows, s: Seen, q: Seen)
    requires SeenLinked(db, s) && SeenLinked(db, q) && s.attempt == q.attempt
    ensures s.transfer.key == q.transfer.key
  {
  }

  /** Two transactions of the blocks that are read do not spend one key. */
  lemma SeenOnceOnChain(env: Env, c: Chain, first: nat, last: nat, s: Seen, q: Seen)
    requires ChainTruth(env, c) && s.transfer.key == q.transfer.key
    requires EntryFinal(env, c, first, last, SeenEntry(s)) && EntryFinal(env, c, first, last, SeenEntry(q))
    ensures s.tx == q.tx
  {
    var ts, us := env.ledger[s.tx], env.ledger[q.tx];
    var i :| 0 <= i < |ts| && ts[i] == s.transfer;
    var j :| 0 <= j < |us| && us[j] == q.transfer;
    assert Spends(env.ledger, s.tx, s.transfer.key) && Spends(env.ledger, q.tx, s.transfer.key);
  }

  lemma ReceiptSeen(env: Env, db: Rows, x: Tx, at: Place, work: Work)
    requires ValidLedger(env.ledger) && work.Receiving? && AsLooked(db, work)
    ensures var more := SeenIn(if x in env.ledger then env.ledger[x] else [], x, at, work.against);
            OfOtherKeys(more) && forall s :: s in more ==> AsRead(db, s) && s.tx == x
  {
    var ts := if x in env.ledger then env.ledger[x] else [];
    forall s | s in SeenIn(ts, x, at, work.against) ensures AsRead(db, s) && s.tx == x {
      SeenAsLooked(db, ts, x, at, work, s);
      SeenInExact(ts, x, at, work.against, s);
    }
    LedgerApart(env, x);
    SeenInApart(ts, x, at, work.against);
  }

  lemma SeenStayApart(env: Env, c: Chain, db: Rows, first: nat, last: nat, x: Tx, seen: seq<Seen>, more: seq<Seen>)
    requires ChainTruth(env, c) && SeenApart(seen) && OfOtherKeys(more)
    requires (forall s :: s in seen ==> s.tx != x) && (forall s :: s in more ==> s.tx == x)
    requires forall s :: s in seen + more ==> SeenLinked(db, s) && EntryFinal(env, c, first, last, SeenEntry(s))
    ensures SeenApart(seen + more)
  {
    var all := seen + more;
    hide ValidLedger, ValidChain, EntryFinal, SeenLinked, SeenApart;
    forall i, j | 0 <= i < j < |all| ensures all[i].attempt != all[j].attempt {
      assert all[i] in all && all[j] in all;
      if all[i].attempt == all[j].attempt {
        SameKey(db, all[i], all[j]);
        SeenOnceOnChain(env, c, first, last, all[i], all[j]);
        BeforeOrMore(seen, more, x, i, j);
        assert false;
      }
    }
    assert SeenApart(all) by { ApartIs(all); }
  }

  lemma ApartIs(seen: seq<Seen>)
    requires forall i, j :: 0 <= i < j < |seen| ==> seen[i].attempt != seen[j].attempt
    ensures SeenApart(seen)
  {
  }

  lemma ReceiptApart(env: Env, c: Chain, db: Rows, first: nat, last: nat, work: Work)
    requires ChainTruth(env, c) && work.Receiving? && work.todo != [] && WorkOnce(work)
    requires AsLooked(db, work) && SeenApart(work.seen) && Find(c, work.todo[0]).Some?
    requires var after := Received(env, work.todo[0], Find(c, work.todo[0]).value, work);
             WorkFinal(env, c, db, first, last, after) && WorkLinked(db, after)
    ensures var after := Received(env, work.todo[0], Find(c, work.todo[0]).value, work);
            AsLooked(db, after) && SeenApart(after.seen)
  {
    var x, at := work.todo[0], Find(c, work.todo[0]).value;
    var more := SeenIn(if x in env.ledger then env.ledger[x] else [], x, at, work.against);
    assert x in work.todo && forall s :: s in work.seen ==> s.tx != x;
    assert Received(env, x, at, work).seen == work.seen + more;
    ReceiptSeen(env, db, x, at, work);
    hide SeenIn, SentIn, Find, ValidLedger, ValidChain, SeenLinked, EntryFinal, SeenApart, OfOtherKeys, WorkOnce;
    SeenStayApart(env, c, db, first, last, x, work.seen, more);
  }

  lemma LedgerApart(env: Env, x: Tx)
    requires ValidLedger(env.ledger)
    ensures var ts := if x in env.ledger then env.ledger[x] else []; forall i, j :: 0 <= i < j < |ts| ==> ts[i].key != ts[j].key
  {
  }

  lemma BeforeOrMore(seen: seq<Seen>, more: seq<Seen>, x: Tx, i: nat, j: nat)
    requires SeenApart(seen) && (forall s :: s in seen ==> s.tx != x) && (forall s :: s in more ==> s.tx == x)
    requires OfOtherKeys(more)
    requires i < j < |seen + more|
    ensures var s, q := (seen + more)[i], (seen + more)[j];
            s.attempt != q.attempt || s.tx != q.tx || s.transfer.key != q.transfer.key
  {
    if i < |seen| {
      assert (seen + more)[i] in seen;
    }
    if j >= |seen| {
      assert (seen + more)[j] == more[j - |seen|] && (seen + more)[j] in more;
    }
  }

  // ---- a round's steps, with nothing moving under them

  lemma ScanCovering(env: Env, w: World, i: nat)
    requires Reads(w, i) && w.rounds[i].work.Scanning?
    ensures Covering(env, DoScan(env, w, i), i)
  {
  }

  lemma LookCovering(env: Env, w: World, i: nat)
    requires Covering(env, w, i) && w.rounds[i].work.Looking? && Indexed(env, w) && RowsLinked(w.db)
    ensures Covering(env, DoLook(w, i), i)
  {
    var r := w.rounds[i];
    assert ValidChain(w.chain, env.ledger);
    assert r.work.consumed == KeysIn(w.chain, r.first, r.last, env.ledger, env.watched);
    hide Looked, WorkFinal, AsLooked, KeysIn, Indexed, DoLook, ValidChain;
    LookFinal(env, w.chain, w.db, r.first, r.last);
    LooksAsIs(w.db, r.work.consumed);
    LookedIs(w, i);
  }

  lemma ReceiptCovering(env: Env, w: World, i: nat)
    requires Covering(env, w, i) && w.rounds[i].work.Receiving? && w.rounds[i].work.todo != []
    requires Indexed(env, w) && RoundsLinked(w.db, w.rounds) && RoundsOnce(w.rounds)
    requires RoundsLinked(w.db, DoReceipt(env, w, i).rounds)
    ensures Covering(env, DoReceipt(env, w, i), i) && Same(w, DoReceipt(env, w, i), i)
  {
    var r, v := w.rounds[i], DoReceipt(env, w, i);
    assert ChainTruth(env, w.chain) && RowsSound(env, w.db);
    RoundWork(w, i);
    OnceAt(w.rounds, i);
    ReceiptIs(env, w, i);
    hide WorkFinal, AsLooked, Indexed, DoReceipt, ChainTruth, RowsSound, WorkLinked, WorkOnce, Received, RoundsLinked, Find, SeenApart;
    ReceiptFinal(env, w.chain, w.db, r.first, r.last, r.work);
    LinkedAfter(v, i);
    ReceiptApart(env, w.chain, w.db, r.first, r.last, r.work);
  }

  lemma LinkedAfter(v: World, i: nat)
    requires RoundsLinked(v.db, v.rounds) && Reads(v, i)
    ensures WorkLinked(v.db, v.rounds[i].work)
  {
    assert RoundLinked(v.db, v.rounds[i]);
  }

  /** One world after another in which a round reads the same blocks. */
  predicate Same(w: World, v: World, i: nat) {
    Reads(w, i) && Reads(v, i) && v.rounds[i] == w.rounds[i].(work := v.rounds[i].work)
  }

  /** A step of a round's reading. */
  predicate Works(s: Step, i: nat) {
    s == ByObserver(Scan(i)) || s == ByObserver(Look(i)) || s == ByObserver(Receipt(i))
  }

  lemma WorksOn(env: Env, w: World, s: Step, v: World, i: nat)
    requires Next(env, w, s, v) && Works(s, i) && Covering(env, w, i) && Consistent(w) && Consistent(v)
    requires Indexed(env, w) && RoundsOnce(w.rounds)
    ensures Covering(env, v, i) && Same(w, v, i)
  {
    LinkedOf(w);
    LinkedOf(v);
    hide Consistent, Indexed, RoundsOnce, RowsLinked, RoundsLinked, Covering, DoReceipt, Against, Backs, Transactions, KeysIn;
    match s.observer
    case Scan(_) => ScanCovering(env, w, i);
    case Look(_) => LookCovering(env, w, i);
    case Receipt(_) => ReceiptCovering(env, w, i);
  }

  lemma RestsOn(env: Env, w: World, v: World, i: nat)
    requires Covering(env, w, i) && v.chain == w.chain && v.db == w.db && v.rounds == w.rounds
    ensures Covering(env, v, i) && Same(w, v, i)
  {
  }

  /** Between two steps of a run nothing moves under a round: the chain and the rows stay, and nothing is done but its reading. */
  ghost predicate Still(ws: seq<World>, ss: seq<Step>, j: nat, k: nat, i: nat)
    requires |ws| == |ss| + 1 && k <= |ss|
  {
    forall m :: j <= m < k ==>
      && ws[m + 1].chain == ws[m].chain && ws[m + 1].db == ws[m].db
      && (Works(ss[m], i) || ws[m + 1].rounds == ws[m].rounds)
  }

  lemma CoveringNext(env: Env, ws: seq<World>, ss: seq<Step>, m: nat, i: nat)
    requires Run(env, ws, ss) && LoneRun(ws, ss) && m < |ss| == |ws| - 1 && Covering(env, ws[m], i)
    requires ws[m + 1].chain == ws[m].chain && ws[m + 1].db == ws[m].db
    requires Works(ss[m], i) || ws[m + 1].rounds == ws[m].rounds
    ensures Covering(env, ws[m + 1], i) && Same(ws[m], ws[m + 1], i)
  {
    hide Covering, Next, LoneRun, Works, Same;
    if Works(ss[m], i) {
      ConsistentRun(env, ws, ss, m);
      ConsistentRun(env, ws, ss, m + 1);
      IndexedRun(env, ws, ss, m);
      OnceRun(env, ws, ss, m);
      assert Next(env, ws[m], ss[m], ws[m + 1]);
      hide Run, Indexed, Consistent, RoundsOnce;
      WorksOn(env, ws[m], ss[m], ws[m + 1], i);
    } else {
      RestsOn(env, ws[m], ws[m + 1], i);
    }
  }

  lemma {:induction false} CoveringRun(env: Env, ws: seq<World>, ss: seq<Step>, j: nat, k: nat, i: nat)
    requires Run(env, ws, ss) && LoneRun(ws, ss) && j <= k <= |ss| && |ws| == |ss| + 1
    requires Still(ws, ss, j, k, i) && Covering(env, ws[j], i)
    ensures Covering(env, ws[k], i) && Same(ws[j], ws[k], i) && ws[k].chain == ws[j].chain && ws[k].db == ws[j].db
    decreases k
  {
    hide Covering, Run, LoneRun, Still, Works, Same;
    if j < k {
      StillAt(ws, ss, j, k, i);
      CoveringRun(env, ws, ss, j, k - 1, i);
      CoveringNext(env, ws, ss, k - 1, i);
      SameTwice(ws[j], ws[k - 1], ws[k], i);
    } else {
      CoveringSame(env, ws[j], i);
    }
  }

  lemma StillAt(ws: seq<World>, ss: seq<Step>, j: nat, k: nat, i: nat)
    requires |ws| == |ss| + 1 && j < k <= |ss| && Still(ws, ss, j, k, i)
    ensures Still(ws, ss, j, k - 1, i) && ws[k].chain == ws[k - 1].chain && ws[k].db == ws[k - 1].db
    ensures Works(ss[k - 1], i) || ws[k].rounds == ws[k - 1].rounds
  {
    var m := k - 1;
    assert ws[m + 1].chain == ws[m].chain;
  }

  lemma SameTwice(w: World, u: World, v: World, i: nat)
    requires Same(w, u, i) && Same(u, v, i)
    ensures Same(w, v, i)
  {
  }

  lemma CoveringSame(env: Env, w: World, i: nat)
    requires Covering(env, w, i)
    ensures Same(w, w, i)
  {
  }

  // ---- what is written

  /** A row of what was read says where it was read, what, and how it was judged. */
  predicate Says(rows: map<Ref, Observation>, c: Chain, h: nat, x: Tx, t: Transfer) {
    && Ref(t.key, x) in rows && Stands(rows[Ref(t.key, x)])
    && h < |c.blocks| && rows[Ref(t.key, x)].place == PlaceAt(c, h) && rows[Ref(t.key, x)].transfer == t
  }

  lemma CoveredIsUnraced(env: Env, w: World, i: nat)
    requires Covering(env, w, i) && w.rounds[i].work.Receiving?
    ensures Unraced(w.db, w.rounds[i].work.seen)
  {
  }

  /** Nothing of a watched key is left out of a round whose every receipt was read. */
  lemma CoveredIsNoted(env: Env, w: World, i: nat, h: nat, x: Tx, t: Transfer) returns (e: Entry)
    requires Covering(env, w, i) && w.rounds[i].work.Receiving? && w.rounds[i].work.todo == []
    requires ChainTruth(env, w.chain) && w.rounds[i].first <= h <= w.rounds[i].last && On(w.chain, h, x)
    requires Owed(env, x, t) && IssuedKey(w.db, t.key)
    ensures e in Entries(w.rounds[i].work.seen, w.rounds[i].work.sent)
    ensures e.ref == Ref(t.key, x) && e.transfer == t && e.place == PlaceAt(w.chain, h)
  {
    var r := w.rounds[i];
    assert Within(w.chain, r.first, r.last, x);
    assert Covered(r.work, t.key, x);
    NotedIsEntry(r.work.seen, r.work.sent, Ref(t.key, x));
    EntriesFinal(env, w.chain, r.first, r.last, r.work.seen, r.work.sent);
    e :| e in Entries(r.work.seen, r.work.sent) && e.ref == Ref(t.key, x);
    assert EntryFinal(env, w.chain, r.first, r.last, e);
    SameTransfer(env, x, t, e.transfer);
  }

  lemma AheadRecords(db: Rows, first: nat, last: nat, seen: seq<Seen>, sent: seq<Sent>)
    requires Unraced(db, seen) && Storable(Entries(seen, sent))
    requires forall q :: q in seen ==> SeenLinked(db, q)
    ensures Record(db, first, last, false, seen, sent).Some?
  {
    var credited := Credited(Written(db, first, last, false, Entries(seen, sent)), seen);
    assert credited.attempts == db.attempts;
    hide Written, Storable, Entries, SeenLinked, Confirm, Credited;
    AllConfirm(credited, seen);
  }

  lemma AheadSays(env: Env, w: World, i: nat, h: nat, x: Tx, t: Transfer)
    requires Covering(env, w, i) && ReadyToWrite(env, w, i) && w.rounds[i].Ahead?
    requires w.rounds[i].first <= h <= w.rounds[i].last && On(w.chain, h, x)
    requires Owed(env, x, t) && IssuedKey(w.db, t.key)
    ensures Says(DoWrite(w, i).db.observations, w.chain, h, x, t)
  {
    var r, work := w.rounds[i], w.rounds[i].work;
    var es := Entries(work.seen, work.sent);
    var e := CoveredIsNoted(env, w, i, h, x, t);
    CoveredIsUnraced(env, w, i);
    SeenAreLinked(w.db, work);
    WorkAgrees(work);
    EntryStands(w.db, work, e);
    NothingIsNothing(work);
    assert h < |w.chain.blocks|;
    hide On, Owed, IssuedKey, Find, Covering, ChainTruth, WorkLinked, WorkOnce, Storable, Entries, SeenLinked, Record, Unraced, Put,
         Written;
    AheadRecords(w.db, r.first, r.last, work.seen, work.sent);
    RecordObservations(w.db, r.first, r.last, false, work.seen, work.sent);
    AheadPuts(w.db, r.first, r.last, es);
    OnlyEntry(w.db.observations, es, false, e);
  }

  lemma EntryStands(db: Rows, work: Work, e: Entry)
    requires work.Receiving? && WorkLinked(db, work) && e in Entries(work.seen, work.sent)
    ensures e.reason != Vanished
  {
    EntriesLinked(db, work.seen, work.sent);
    assert EntryLinked(db, e);
  }

  lemma NothingIsNothing(work: Work)
    requires work.Receiving?
    ensures work.seen == [] && work.sent == [] ==> Entries(work.seen, work.sent) == []
  {
  }

  // ---- the theorems

  /** A row can hold whatever the chain may carry. */
  ghost predicate AllStorable(env: Env) { forall x, t :: Carries(env.ledger, x, t) ==> t.storable }

  lemma ReadIsStorable(env: Env, work: Work)
    requires AllStorable(env) && work.Receiving? && WorkCarried(env, work)
    ensures Storable(Entries(work.seen, work.sent))
  {
    var es := Entries(work.seen, work.sent);
    forall i | 0 <= i < |es| ensures es[i].transfer.storable {
      if i < |work.seen| {
        assert es[i] == SeenEntry(work.seen[i]) && work.seen[i] in work.seen;
      } else {
        assert es[|work.seen| + (i - |work.seen|)] == SentEntry(work.sent[i - |work.seen|]);
        assert work.sent[i - |work.seen|] in work.sent;
      }
    }
  }

  ghost predicate ReadyToWrite(env: Env, w: World, i: nat) {
    && Reads(w, i) && w.rounds[i].work.Receiving? && w.rounds[i].work.todo == []
    && ChainTruth(env, w.chain) && RowsLinked(w.db)
    && WorkLinked(w.db, w.rounds[i].work) && WorkOnce(w.rounds[i].work)
    && Storable(Entries(w.rounds[i].work.seen, w.rounds[i].work.sent))
  }

  /** What a round that is about to write has, and what the rows it writes to are. */
  lemma AboutToWrite(env: Env, ws: seq<World>, ss: seq<Step>, k: nat, i: nat)
    requires Run(env, ws, ss) && LoneRun(ws, ss) && k < |ss| && ss[k] == ByObserver(ObserverMove.Write(i)) && AllStorable(env)
    ensures ReadyToWrite(env, ws[k], i) && ws[k + 1] == DoWrite(ws[k], i)
  {
    var w := ws[k];
    assert Next(env, w, ss[k], ws[k + 1]);
    ConsistentRun(env, ws, ss, k);
    IndexedRun(env, ws, ss, k);
    OnceRun(env, ws, ss, k);
    BooksRun(env, ws, ss, k);
    assert ChainTruth(env, w.chain);
    assert WorkCarried(env, w.rounds[i].work);
    LinkedOf(w);
    ReadIsStorable(env, w.rounds[i].work);
    hide Run, LoneRun, Next, Indexed, Consistent, RowsLinked, RoundsLinked, RoundsOnce, WorkLinked, WorkOnce, DoWrite, Storable,
         AllStorable, ChainTruth, WorkCarried, RowsCarried, CreatedEmpty;
  }

  /** A round from its start to its write, with nothing moving under it in between. */
  ghost predicate WholeRound(ws: seq<World>, ss: seq<Step>, j: nat, k: nat, i: nat) {
    && |ws| == |ss| + 1 && j < k < |ss| && Still(ws, ss, j + 1, k, i) && ss[k] == ByObserver(ObserverMove.Write(i))
  }

  lemma BegunCovers(env: Env, w: World, i: nat)
    requires Reads(w, i) && w.rounds[i].work.Scanning?
    ensures Covering(env, w, i)
  {
  }

  /**
   Over every run in which one observer reads at a time: a round ahead with nothing
   moving under it leaves, of every issued key's transfer in the newest blocks above
   the final one, as many of them as the round is wide, a row that says just where it
   is and what it carries.
   */
  lemma AheadTheorem(env: Env, ws: seq<World>, ss: seq<Step>, j: nat, k: nat, i: nat, width: nat, h: nat, x: Tx, t: Transfer)
    requires Run(env, ws, ss) && LoneRun(ws, ss) && AllStorable(env)
    requires WholeRound(ws, ss, j, k, i) && ss[j] == ByObserver(GoAhead(i, width))
    requires i in ws[j].rounds && ws[j].rounds[i].Between?
    requires ws[j].rounds[i].final < h <= ws[j].rounds[i].latest && ws[j].rounds[i].latest - h < width
    requires On(ws[k].chain, h, x) && Owed(env, x, t) && IssuedKey(ws[k].db, t.key)
    ensures Says(ws[k + 1].db.observations, ws[k].chain, h, x, t)
  {
    assert Next(env, ws[j], ss[j], ws[j + 1]);
    var r := ws[j + 1].rounds[i];
    assert Reads(ws[j + 1], i) && r.Ahead? && r.work.Scanning? && r.first <= h <= r.last;
    AboutToWrite(env, ws, ss, k, i);
    hide Run, LoneRun, Next, Covering, ReadyToWrite, DoWrite, AllStorable, Still;
    BegunCovers(env, ws[j + 1], i);
    CoveringRun(env, ws, ss, j + 1, k, i);
    AheadSays(env, ws[k], i, h, x, t);
  }

  lemma BeginsRange(env: Env, w: World, v: World, i: nat, f: nat, l: nat, width: nat)
    requires Next(env, w, ByObserver(Begin(i, f, l, width)), v) && w.db.cursor.Some? && w.db.cursor.value.height < f
    ensures var from := w.db.cursor.value;
            var to := if f - from.height < width then f else from.height + width;
            && to < |w.chain.blocks| && v.db == w.db && v.chain == w.chain && Reads(v, i)
            && v.rounds[i] == Settling(from, PositionAt(w.chain, to), f, l, from.height + 1, to, Scanning)
  {
  }

  /**
   And a round over finalised blocks commits: the cursor moves on by the round's
   width, or to the final block where that is nearer.
   */
  lemma RangeTheorem(env: Env, ws: seq<World>, ss: seq<Step>, j: nat, k: nat, i: nat, f: nat, l: nat, width: nat)
    requires Run(env, ws, ss) && LoneRun(ws, ss) && AllStorable(env)
    requires WholeRound(ws, ss, j, k, i) && ss[j] == ByObserver(Begin(i, f, l, width))
    requires ws[j].db.cursor.Some? && ws[j].db.cursor.value.height < f
    ensures var from, c := ws[j].db.cursor.value.height, ws[j].chain;
            var to := if f - from < width then f else from + width;
            && to < |c.blocks| && ws[k + 1].db.cursor == Some(PositionAt(c, to))
            && ws[k + 1].ranges == ws[k].ranges + [Range(from + 1, to)]
  {
    StepOf(env, ws, ss, j);
    assert Still(ws, ss, j + 1, k, i);
    hide Run, LoneRun, AllStorable, WholeRound, Still, Covering, ReadyToWrite, DoWrite, Same, Next;
    BeginsRange(env, ws[j], ws[j + 1], i, f, l, width);
    BegunCovers(env, ws[j + 1], i);
    CoveringRun(env, ws, ss, j + 1, k, i);
    AboutToWrite(env, ws, ss, k, i);
    hide PositionAt;
    CommitsRange(env, ws[j + 1], ws[k], i);
  }

  lemma StepOf(env: Env, ws: seq<World>, ss: seq<Step>, j: nat)
    requires Run(env, ws, ss) && j < |ss|
    ensures |ws| == |ss| + 1 && Next(env, ws[j], ss[j], ws[j + 1])
  {
  }

  lemma CommitsRange(env: Env, w: World, u: World, i: nat)
    requires Covering(env, u, i) && ReadyToWrite(env, u, i) && Same(w, u, i) && u.db == w.db
    requires w.rounds[i].Settling? && w.db.cursor == Some(w.rounds[i].from)
    ensures var r, v := w.rounds[i], DoWrite(u, i);
            v.db.cursor == Some(r.to) && v.ranges == u.ranges + [Range(r.first, r.last)]
  {
    CoveredIsUnraced(env, u, i);
    hide Covering, RowsLinked, WorkLinked, Storable, Unraced, DoWrite, SeenEntry;
    UnracedCommits(u, i);
  }
}
