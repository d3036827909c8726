/**
 What the rows of a network say about its chain, and what a round that is under
 way has of it so far, when one observer reads at a time.
 */
module Index {
  import opened Basics
  import opened Lifecycle
  import opened Records
  import opened Evidence
  import opened Tables
  import opened Chains
  import opened Reading
  import opened Protocol
  import opened Consistency

  /** A transfer a row is owed for once its key is issued here. */
  predicate Owed(env: Env, x: Tx, t: Transfer) {
    Carries(env.ledger, x, t) && t.asset in env.watched && t.scheme == Eip3009
  }

  predicate ReadTo(cursor: Option<Position>, h: nat) { cursor.Some? && h <= cursor.value.height }

  ghost predicate Within(c: Chain, first: nat, last: nat, x: Tx) { exists h :: first <= h <= last && On(c, h, x) }

  /** No block up to a height holds a transaction. */
  ghost predicate Beyond(c: Chain, f: nat, x: Tx) { forall h :: On(c, h, x) ==> f < h }

  ghost predicate ChainTrue(env: Env, c: Chain, landed: set<Tx>) {
    && ValidLedger(env.ledger) && ValidChain(c, env.ledger)
    && forall h, x :: On(c, h, x) ==> x in landed
  }

  /** The cursor is on a final block. */
  predicate CursorTrue(c: Chain, cursor: Option<Position>) {
    cursor.Some? ==> cursor.value.height <= c.final < |c.blocks| && cursor.value == PositionAt(c, cursor.value.height)
  }

  /**
   What a row says is carried by its transaction. A final one is of a watched
   asset, up to the cursor and where it says; any other up to the cursor is gone.
   */
  predicate RowTrue(env: Env, c: Chain, cursor: Option<Position>, ref: Ref, o: Observation) {
    && Carries(env.ledger, ref.tx, o.transfer)
    && (o.final ==>
          && ReadTo(cursor, o.place.height) && On(c, o.place.height, ref.tx) && PlacedAt(c, o.place)
          && o.transfer.asset in env.watched)
    && (!o.final && ReadTo(cursor, o.place.height) ==> !Stands(o))
  }

  ghost predicate RowsTrue(env: Env, c: Chain, db: Rows) {
    forall ref :: ref in db.observations ==> RowTrue(env, c, db.cursor, ref, db.observations[ref])
  }

  ghost predicate RowsWatched(env: Env, rows: map<Ref, Observation>) {
    forall ref :: ref in rows ==> rows[ref].transfer.asset in env.watched
  }

  predicate HasFinal(db: Rows, ref: Ref) { ref in db.observations && db.observations[ref].final }

  /** Every transfer of an issued key up to the cursor has its final row. */
  ghost predicate RowsWhole(env: Env, c: Chain, db: Rows) {
    forall h, x, t :: ReadTo(db.cursor, h) && On(c, h, x) && Owed(env, x, t) && IssuedKey(db, t.key) ==>
      HasFinal(db, Ref(t.key, x))
  }

  /** Nothing is issued, and so nothing is paid, before the network has a position. */
  ghost predicate Watching(db: Rows, decisions: set<Decision>) {
    db.cursor.None? ==>
      && db.attempts == map[]
      && (forall p :: p in db.payments ==> db.payments[p].status != Succeeded)
      && (forall d :: d in decisions ==> d.moved.status != Succeeded)
  }

  /** What issuing and opening promise of the rows they write. */
  ghost predicate RowsSound(env: Env, db: Rows) {
    && (forall p :: p in db.payments ==> db.payments[p].asset in env.watched)
    && (forall a :: a in db.attempts ==>
          && db.attempts[a].scheme == Eip3009 && db.attempts[a].payment in db.payments
          && db.attempts[a].validBefore <= db.payments[db.attempts[a].payment].expiresAt)
    && (forall r :: r in db.refunds ==> db.refunds[r].scheme == Eip3009)
  }

  predicate CallSound(c: Call) {
    (c.RefundAsked? || c.RefundLocked? || c.RefundMeasured? || c.RefundInserted?) ==>
      c.refund.scheme == Eip3009 && c.refund.status == RefundCreated
  }

  ghost predicate CallsSound(calls: map<nat, Call>) { forall c :: c in calls ==> CallSound(calls[c]) }

  // ---- a round under way

  predicate EntryFinal(env: Env, c: Chain, first: nat, last: nat, e: Entry) {
    && e.ref.key == e.transfer.key && Carries(env.ledger, e.ref.tx, e.transfer) && e.transfer.asset in env.watched
    && first <= e.place.height <= last && On(c, e.place.height, e.ref.tx) && PlacedAt(c, e.place)
  }

  ghost predicate EntryAhead(env: Env, c: Chain, f: nat, e: Entry) {
    && e.ref.key == e.transfer.key && Carries(env.ledger, e.ref.tx, e.transfer)
    && f < e.place.height && Beyond(c, f, e.ref.tx)
  }

  ghost predicate Noted(seen: seq<Seen>, sent: seq<Sent>, ref: Ref) {
    || (exists s :: s in seen && SeenEntry(s).ref == ref)
    || (exists s :: s in sent && SentEntry(s).ref == ref)
  }

  /** A transfer of a range is noted already, or the receipt it is in is still to be read. */
  ghost predicate Covered(work: Work, k: Key, x: Tx)
    requires work.Receiving?
  {
    (x in work.todo && (k in work.against || k in work.back)) || Noted(work.seen, work.sent, Ref(k, x))
  }

  ghost predicate SpentWithin(env: Env, c: Chain, first: nat, last: nat, k: Key) {
    exists x :: Within(c, first, last, x) && Consumes(env.ledger, env.watched, x, k)
  }

  /** What is read of a finalised range: only what is there, and everything that is. */
  ghost predicate WorkFinal(env: Env, c: Chain, db: Rows, first: nat, last: nat, work: Work) {
    match work
    case Scanning => true
    case Looking(consumed) => consumed == KeysIn(c, first, last, env.ledger, env.watched)
    case Receiving(against, back, todo, seen, sent) =>
      && (forall x :: x in todo ==> Within(c, first, last, x))
      && (forall k :: k in against || k in back ==> SpentWithin(env, c, first, last, k))
      && (forall s :: s in seen ==> EntryFinal(env, c, first, last, SeenEntry(s)))
      && (forall s :: s in sent ==> EntryFinal(env, c, first, last, SentEntry(s)))
      && (forall x, t :: Within(c, first, last, x) && Owed(env, x, t) && IssuedKey(db, t.key) ==> Covered(work, t.key, x))
  }

  /** What is read ahead of the final block is not at or below it, wherever it was moved to since. */
  ghost predicate WorkAhead(env: Env, c: Chain, f: nat, work: Work) {
    match work
    case Scanning => true
    case Looking(consumed) => forall one :: one in consumed ==> Beyond(c, f, one.tx)
    case Receiving(against, back, todo, seen, sent) =>
      && (forall x :: x in todo ==> Beyond(c, f, x))
      && (forall s :: s in seen ==> EntryAhead(env, c, f, SeenEntry(s)))
      && (forall s :: s in sent ==> EntryAhead(env, c, f, SentEntry(s)))
  }

  ghost predicate RoundTrue(env: Env, c: Chain, db: Rows, r: Round) {
    && r.final <= c.final
    && db.cursor.Some? && db.cursor.value.height <= r.final
    && match r {
      case Standing(from, _, _) => db.cursor == Some(from)
      case Settling(from, to, f, _, first, last, work) =>
        && db.cursor == Some(from) && first == from.height + 1 <= last <= f < |c.blocks|
        && to == PositionAt(c, last)
        && WorkFinal(env, c, db, first, last, work)
      case Between(_, _) => true
      case Ahead(f, first, last, work) => f < first && WorkAhead(env, c, f, work)
    }
  }

  /** One round at a time, and it has what it should of the chain. */
  ghost predicate RoundsTrue(env: Env, c: Chain, db: Rows, rounds: map<nat, Round>) {
    && (forall i, j :: i in rounds && j in rounds ==> i == j)
    && (forall i :: i in rounds ==> RoundTrue(env, c, db, rounds[i]))
  }

  ghost predicate Indexed(env: Env, w: World) {
    && ChainTrue(env, w.chain, w.landed)
    && CursorTrue(w.chain, w.db.cursor)
    && Watching(w.db, w.decisions)
    && RowsSound(env, w.db) && CallsSound(w.calls)
    && RowsTrue(env, w.chain, w.db)
    && RowsWhole(env, w.chain, w.db)
    && RoundsTrue(env, w.chain, w.db, w.rounds)
  }

  // ---- the chain moves on

  lemma FinalizeValid(c: Chain, f: nat, ledger: Ledger)
    requires ValidChain(c, ledger) && c.final <= f < |c.blocks|
    ensures ValidChain(c.(final := f), ledger)
  {
    var d := c.(final := f);
    assert forall h, x :: On(d, h, x) <==> On(c, h, x);
  }

  /** Whatever the chain does, it follows what it was. */
  lemma ChainFollows(env: Env, w: World, m: ChainMove)
    requires ChainMoves(env, w, m) && ChainTrue(env, w.chain, w.landed)
    ensures var v := AfterChain(env, w, m);
            Follows(w.chain, v.chain) && ChainTrue(env, v.chain, v.landed) && w.landed <= v.landed
  {
    var v := AfterChain(env, w, m);
    if m.Finalize? {
      FinalizeValid(w.chain, m.height, env.ledger);
    }
    forall h: nat, x | On(v.chain, h, x) ensures x in v.landed {
      if h < |w.chain.blocks| && v.chain.blocks[h] == w.chain.blocks[h] {
        assert On(w.chain, h, x);
      }
    }
  }

  /** Up to the final block two moments of one chain hold the same. */
  lemma FollowsOn(c: Chain, d: Chain, h: nat, x: Tx)
    requires Follows(c, d) && h <= c.final
    ensures On(c, h, x) <==> On(d, h, x)
  {
  }

  lemma FollowsBeyond(c: Chain, d: Chain, f: nat, x: Tx)
    requires Follows(c, d) && f <= c.final && Beyond(c, f, x)
    ensures Beyond(d, f, x)
  {
    forall h: nat | On(d, h, x) ensures f < h {
      if h <= f {
        FollowsOn(c, d, h, x);
      }
    }
  }

  lemma FollowsWithin(c: Chain, d: Chain, first: nat, last: nat, x: Tx)
    requires Follows(c, d) && last <= c.final
    ensures Within(c, first, last, x) <==> Within(d, first, last, x)
  {
    if Within(c, first, last, x) {
      var h :| first <= h <= last && On(c, h, x);
      assert On(d, h, x);
    }
    if Within(d, first, last, x) {
      var h :| first <= h <= last && On(d, h, x);
      assert On(c, h, x);
    }
  }

  lemma {:induction false} FollowsKeys(c: Chain, d: Chain, first: nat, last: nat, ledger: Ledger, watched: set<Asset>)
    requires Follows(c, d) && last <= c.final
    ensures KeysIn(c, first, last, ledger, watched) == KeysIn(d, first, last, ledger, watched)
    decreases last + 1 - first
  {
    if first <= last {
      FollowsKeys(c, d, first + 1, last, ledger, watched);
    }
  }

  lemma FollowsRow(env: Env, c: Chain, d: Chain, cursor: Option<Position>, ref: Ref, o: Observation)
    requires Follows(c, d) && CursorTrue(c, cursor) && RowTrue(env, c, cursor, ref, o)
    ensures RowTrue(env, d, cursor, ref, o)
  {
    if o.final {
      FollowsOn(c, d, o.place.height, ref.tx);
    }
  }

  // ---- keys come fresh

  /** A key issued since is one no transaction on the chain spends. */
  ghost predicate KeysFresh(env: Env, landed: set<Tx>, db: Rows, d: Rows) {
    forall k :: IssuedKey(d, k) ==> IssuedKey(db, k) || forall x :: x in landed ==> !Spends(env.ledger, x, k)
  }

  lemma OwedSpends(env: Env, x: Tx, t: Transfer)
    requires Owed(env, x, t)
    ensures Spends(env.ledger, x, t.key) && Consumes(env.ledger, env.watched, x, t.key)
  {
    var i :| 0 <= i < |env.ledger[x]| && env.ledger[x][i] == t;
  }

  /** What is on the chain was issued before it landed. */
  lemma IssuedBefore(env: Env, c: Chain, landed: set<Tx>, db: Rows, d: Rows, h: nat, x: Tx, t: Transfer)
    requires ChainTrue(env, c, landed) && KeysFresh(env, landed, db, d)
    requires On(c, h, x) && Owed(env, x, t) && IssuedKey(d, t.key)
    ensures IssuedKey(db, t.key)
  {
    OwedSpends(env, x, t);
    assert x in landed;
  }

  // ---- what a round has stays true while the chain moves and keys are issued

  lemma WorkFinalStays(env: Env, c: Chain, e: Chain, landed: set<Tx>, db: Rows, d: Rows, first: nat, last: nat, work: Work)
    requires ChainTrue(env, c, landed) && Follows(c, e) && KeysFresh(env, landed, db, d) && last <= c.final
    requires WorkFinal(env, c, db, first, last, work)
    ensures WorkFinal(env, e, d, first, last, work)
  {
    match work
    case Scanning =>
    case Looking(consumed) => FollowsKeys(c, e, first, last, env.ledger, env.watched);
    case Receiving(against, back, todo, seen, sent) =>
      forall x ensures Within(c, first, last, x) <==> Within(e, first, last, x) {
        FollowsWithin(c, e, first, last, x);
      }
      hide Within;
      forall k | k in against || k in back ensures SpentWithin(env, e, first, last, k) {
        assert SpentWithin(env, c, first, last, k);
      }
      forall s | s in seen ensures EntryFinal(env, e, first, last, SeenEntry(s)) {
        assert EntryFinal(env, c, first, last, SeenEntry(s));
        FollowsOn(c, e, s.place.height, s.tx);
      }
      forall s | s in sent ensures EntryFinal(env, e, first, last, SentEntry(s)) {
        assert EntryFinal(env, c, first, last, SentEntry(s));
        FollowsOn(c, e, s.place.height, s.tx);
      }
      forall x, t | Within(e, first, last, x) && Owed(env, x, t) && IssuedKey(d, t.key) ensures Covered(work, t.key, x) {
        WithinIssuedBefore(env, c, landed, db, d, first, last, x, t);
      }
  }

  lemma WithinIssuedBefore(env: Env, c: Chain, landed: set<Tx>, db: Rows, d: Rows, first: nat, last: nat, x: Tx, t: Transfer)
    requires ChainTrue(env, c, landed) && KeysFresh(env, landed, db, d)
    requires Within(c, first, last, x) && Owed(env, x, t) && IssuedKey(d, t.key)
    ensures IssuedKey(db, t.key)
  {
    var h :| first <= h <= last && On(c, h, x);
    IssuedBefore(env, c, landed, db, d, h, x, t);
  }

  lemma WorkAheadStays(env: Env, c: Chain, e: Chain, f: nat, work: Work)
    requires Follows(c, e) && f <= c.final && WorkAhead(env, c, f, work)
    ensures WorkAhead(env, e, f, work)
  {
    forall x | Beyond(c, f, x) ensures Beyond(e, f, x) {
      FollowsBeyond(c, e, f, x);
    }
    hide Beyond;
    if work.Receiving? {
      forall s | s in work.seen ensures EntryAhead(env, e, f, SeenEntry(s)) {
        assert EntryAhead(env, c, f, SeenEntry(s));
      }
      forall s | s in work.sent ensures EntryAhead(env, e, f, SentEntry(s)) {
        assert EntryAhead(env, c, f, SentEntry(s));
      }
    }
  }

  lemma RoundStays(env: Env, c: Chain, e: Chain, landed: set<Tx>, db: Rows, d: Rows, r: Round)
    requires ChainTrue(env, c, landed) && Follows(c, e) && KeysFresh(env, landed, db, d) && d.cursor == db.cursor
    requires RoundTrue(env, c, db, r)
    ensures RoundTrue(env, e, d, r)
  {
    hide WorkFinal, WorkAhead, ChainTrue, KeysFresh;
    if r.Settling? {
      WorkFinalStays(env, c, e, landed, db, d, r.first, r.last, r.work);
    } else if r.Ahead? {
      WorkAheadStays(env, c, e, r.final, r.work);
    }
  }

  lemma RoundsStay(env: Env, c: Chain, e: Chain, landed: set<Tx>, db: Rows, d: Rows, rounds: map<nat, Round>)
    requires ChainTrue(env, c, landed) && Follows(c, e) && KeysFresh(env, landed, db, d) && d.cursor == db.cursor
    requires RoundsTrue(env, c, db, rounds)
    ensures RoundsTrue(env, e, d, rounds)
  {
    hide RoundTrue, ChainTrue, KeysFresh;
    forall i | i in rounds ensures RoundTrue(env, e, d, rounds[i]) {
      RoundStays(env, c, e, landed, db, d, rounds[i]);
    }
  }

  /** Rows fade when they are only marked as gone. */
  ghost predicate Faded(rows: map<Ref, Observation>, after: map<Ref, Observation>) {
    && rows.Keys == after.Keys
    && forall ref :: ref in rows ==> after[ref] == rows[ref] || after[ref] == rows[ref].(reason := Vanished)
  }

  lemma RowsStay(env: Env, c: Chain, e: Chain, db: Rows, d: Rows)
    requires Follows(c, e) && CursorTrue(c, db.cursor) && d.cursor == db.cursor
    requires Faded(db.observations, d.observations)
    requires RowsTrue(env, c, db)
    ensures RowsTrue(env, e, d)
  {
    forall ref | ref in d.observations ensures RowTrue(env, e, d.cursor, ref, d.observations[ref]) {
      FollowsRow(env, c, e, db.cursor, ref, db.observations[ref]);
    }
  }

  lemma WholeStays(env: Env, c: Chain, e: Chain, landed: set<Tx>, db: Rows, d: Rows)
    requires ChainTrue(env, c, landed) && Follows(c, e) && KeysFresh(env, landed, db, d)
    requires CursorTrue(c, db.cursor) && d.cursor == db.cursor && Faded(db.observations, d.observations)
    requires RowsWhole(env, c, db)
    ensures RowsWhole(env, e, d)
  {
    forall h, x, t | ReadTo(d.cursor, h) && On(e, h, x) && Owed(env, x, t) && IssuedKey(d, t.key)
      ensures HasFinal(d, Ref(t.key, x))
    {
      FollowsOn(c, e, h, x);
      IssuedBefore(env, c, landed, db, d, h, x, t);
      assert HasFinal(db, Ref(t.key, x));
    }
  }
}
