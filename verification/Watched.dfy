/** Every row there ever is, whoever wrote it, is of a transfer of a watched asset. */
module Watched {
  import opened Basics
  import opened Evidence
  import opened Tables
  import opened Chains
  import opened Reading
  import opened RowFacts
  import opened Protocol
  import opened Consistency
  import opened Reachable
  import opened Index
  import opened Observing
  import opened Writing

  /** A transfer of a key a scan found, in a transaction it found, is one it found. */
  ghost predicate ScanWatched(env: Env, txs: set<Tx>, keys: set<Key>) {
    forall x, t :: x in txs && Carries(env.ledger, x, t) && t.key in keys ==> t.asset in env.watched
  }

  function TxsFound(consumed: seq<Consumed>): set<Tx> { set i | 0 <= i < |consumed| :: consumed[i].tx }

  function ToRead(todo: seq<Tx>): set<Tx> { set i | 0 <= i < |todo| :: todo[i] }

  ghost predicate WorkWatched(env: Env, work: Work) {
    match work
    case Scanning => true
    case Looking(consumed) => ScanWatched(env, TxsFound(consumed), SpentKeys(consumed))
    case Receiving(against, back, todo, seen, sent) =>
      && ScanWatched(env, ToRead(todo), against.Keys + back.Keys)
      && (forall s :: s in seen ==> s.transfer.asset in env.watched)
      && (forall s :: s in sent ==> s.transfer.asset in env.watched)
  }

  ghost predicate RoundsWatched(env: Env, rounds: map<nat, Round>) {
    forall i :: i in rounds && (rounds[i].Settling? || rounds[i].Ahead?) ==> WorkWatched(env, rounds[i].work)
  }

  ghost predicate AllWatched(env: Env, w: World) {
    ChainTrue(env, w.chain, w.landed) && RowsWatched(env, w.db.observations) && RoundsWatched(env, w.rounds)
  }

  /** One scan of one chain: two transactions that spent one key are one, and it spent the key once. */
  lemma ScanIsWatched(env: Env, c: Chain, first: nat, last: nat)
    requires ValidLedger(env.ledger) && ValidChain(c, env.ledger)
    ensures WorkWatched(env, Looking(KeysIn(c, first, last, env.ledger, env.watched)))
  {
    var consumed := KeysIn(c, first, last, env.ledger, env.watched);
    forall x, t | x in TxsFound(consumed) && Carries(env.ledger, x, t) && t.key in SpentKeys(consumed)
      ensures t.asset in env.watched
    {
      var i :| 0 <= i < |consumed| && consumed[i].tx == x;
      var j :| 0 <= j < |consumed| && consumed[j].key == t.key;
      assert consumed[i] in consumed && consumed[j] in consumed;
      KeysInExact(c, first, last, env.ledger, env.watched, consumed[i].key, x);
      KeysInExact(c, first, last, env.ledger, env.watched, t.key, consumed[j].tx);
      assert Within(c, first, last, x) && SpentWithin(env, c, first, last, t.key);
      ConsumedIsWatched(env, c, first, last, x, t);
    }
  }

  lemma LookWatched(env: Env, db: Rows, consumed: seq<Consumed>)
    requires WorkWatched(env, Looking(consumed))
    ensures WorkWatched(env, Looked(db, consumed))
  {
    var work := Looked(db, consumed);
    LookSound(consumed, work.against.Keys + work.back.Keys);
    forall x | x in ToRead(work.todo) ensures x in TxsFound(consumed) {
      var j :| 0 <= j < |work.todo| && work.todo[j] == x;
      assert x in work.todo;
      var one :| one in consumed && one.tx == x;
      var i :| 0 <= i < |consumed| && consumed[i] == one;
    }
    assert work.against.Keys + work.back.Keys <= SpentKeys(consumed);
  }

  lemma ReceiptWatched(env: Env, at: Place, work: Work)
    requires work.Receiving? && work.todo != [] && WorkWatched(env, work)
    ensures WorkWatched(env, Received(env, work.todo[0], at, work))
  {
    var x := work.todo[0];
    var ts := if x in env.ledger then env.ledger[x] else [];
    assert x in ToRead(work.todo);
    forall s | s in SeenIn(ts, x, at, work.against) ensures s.transfer.asset in env.watched {
      SeenInExact(ts, x, at, work.against, s);
      var t :| t in ts && SeenOf(t, x, at, work.against) == Some(s);
      assert Carries(env.ledger, x, t);
    }
    forall s | s in SentIn(ts, x, at, work.against, work.back) ensures s.transfer.asset in env.watched {
      SentInExact(ts, x, at, work.against, work.back, s);
      var t :| t in ts && SentOf(t, x, at, work.against, work.back) == Some(s);
      assert Carries(env.ledger, x, t);
    }
    forall y | y in ToRead(work.todo[1..]) ensures y in ToRead(work.todo) {
      var i :| 0 <= i < |work.todo[1..]| && work.todo[1..][i] == y;
      assert work.todo[i + 1] == y;
    }
  }

  lemma EntriesWatched(env: Env, work: Work)
    requires work.Receiving? && WorkWatched(env, work)
    ensures forall e :: e in Entries(work.seen, work.sent) ==> e.transfer.asset in env.watched
  {
    var es := Entries(work.seen, work.sent);
    forall e | e in es ensures e.transfer.asset in env.watched {
      var i :| 0 <= i < |es| && es[i] == e;
      if i < |work.seen| {
        assert work.seen[i] in work.seen;
      } else {
        assert work.sent[i - |work.seen|] in work.sent && e == SentEntry(work.sent[i - |work.seen|]);
      }
    }
  }

  lemma PutWatched(env: Env, rows: map<Ref, Observation>, es: seq<Entry>, final: bool, put: map<Ref, Observation>)
    requires RowsWatched(env, rows) && forall e :: e in es ==> e.transfer.asset in env.watched
    requires put == Put(rows, es, final)
    ensures RowsWatched(env, put)
  {
    hide Put;
    PutExact(rows, es, final);
    forall ref | ref in put ensures put[ref].transfer.asset in env.watched {
      assert PutFrom(rows, es, final, ref, put[ref]);
    }
  }

  lemma WrittenWatched(env: Env, db: Rows, first: nat, last: nat, final: bool, es: seq<Entry>)
    requires RowsWatched(env, db.observations) && forall e :: e in es ==> e.transfer.asset in env.watched
    ensures RowsWatched(env, Written(db, first, last, final, es).observations)
  {
    PutWatched(env, db.observations, es, final, Put(db.observations, es, final));
    if final {
      var put := db.(observations := Put(db.observations, es, final));
      LoseKeeps(put, LostIn(put.observations, first, last, TxsOf(es)));
    }
  }

  lemma WriteWatched(env: Env, w: World, i: nat)
    requires Reads(w, i) && w.rounds[i].work.Receiving? && WorkLinked(w.db, w.rounds[i].work)
    requires RowsWatched(env, w.db.observations) && WorkWatched(env, w.rounds[i].work)
    ensures RowsWatched(env, DoWrite(w, i).db.observations)
  {
    var r, work := w.rounds[i], w.rounds[i].work;
    EntriesWatched(env, work);
    var es := Entries(work.seen, work.sent);
    hide WorkLinked, WorkWatched, RowsWatched, DoWrite, PaymentsReceive, AttemptsSeen, Entries;
    var d := Wrote(w, i);
    WrittenWatched(env, w.db, r.first, r.last, true, es);
    WrittenWatched(env, w.db, r.first, r.last, false, es);
    AheadPuts(w.db, r.first, r.last, es);
  }

  lemma WorkOfWatched(env: Env, rounds: map<nat, Round>, i: nat)
    requires RoundsWatched(env, rounds) && i in rounds && (rounds[i].Settling? || rounds[i].Ahead?)
    ensures WorkWatched(env, rounds[i].work)
  {
  }

  lemma RoundMoved(env: Env, w: World, i: nat, work: Work)
    requires RoundsWatched(env, w.rounds) && Reads(w, i) && WorkWatched(env, work)
    ensures RoundsWatched(env, WithWork(w, i, work).rounds)
  {
    hide WorkWatched;
  }

  lemma ObserverRoundsWatched(env: Env, w: World, m: ObserverMove)
    requires ObserverMoves(w, m) && ValidLedger(env.ledger) && ValidChain(w.chain, env.ledger) && RoundsWatched(env, w.rounds)
    ensures RoundsWatched(env, AfterObserver(env, w, m).rounds)
  {
    hide ValidLedger, ValidChain, RoundsWatched;
    match m
    case Scan(i) =>
      ScanIsWatched(env, w.chain, w.rounds[i].first, w.rounds[i].last);
      RoundMoved(env, w, i, Looking(KeysIn(w.chain, w.rounds[i].first, w.rounds[i].last, env.ledger, env.watched)));
    case Look(i) =>
      WorkOfWatched(env, w.rounds, i);
      LookWatched(env, w.db, w.rounds[i].work.consumed);
      RoundMoved(env, w, i, Looked(w.db, w.rounds[i].work.consumed));
    case Receipt(i) =>
      ReceiptIs(env, w, i);
      WorkOfWatched(env, w.rounds, i);
      var work := w.rounds[i].work;
      if Find(w.chain, work.todo[0]).Some? {
        ReceiptWatched(env, Find(w.chain, work.todo[0]).value, work);
        RoundMoved(env, w, i, Received(env, work.todo[0], Find(w.chain, work.todo[0]).value, work));
      } else {
        FewerWatched(env, w.rounds, Dropped(w.rounds, i));
      }
    case Init(h) =>
    case _ => FewerWatched(env, w.rounds, AfterObserver(env, w, m).rounds);
  }

  /** Rounds that began, went on or ended without reading anything. */
  lemma FewerWatched(env: Env, before: map<nat, Round>, after: map<nat, Round>)
    requires RoundsWatched(env, before)
    requires forall j :: j in after ==>
               || (j in before && after[j] == before[j]) || after[j].Between? || after[j].Standing?
               || ((after[j].Settling? || after[j].Ahead?) && after[j].work.Scanning?)
    ensures RoundsWatched(env, after)
  {
  }

  lemma ObserverWatched(env: Env, w: World, m: ObserverMove)
    requires ObserverMoves(w, m) && Consistent(w) && AllWatched(env, w)
    ensures AllWatched(env, AfterObserver(env, w, m))
  {
    ObserverLeaves(env, w, m);
    LinkedRounds(w);
    hide Consistent, RoundsWatched, RowsWatched;
    ObserverRoundsWatched(env, w, m);
    if m.Write? {
      WorkOfWatched(env, w.rounds, m.observer);
      RoundWork(w, m.observer);
      WriteWatched(env, w, m.observer);
    }
  }

  lemma WorkerWatched(env: Env, w: World, m: WorkerMove)
    requires WorkerMoves(w, m) && AllWatched(env, w)
    ensures AllWatched(env, AfterWorker(w, m))
  {
    hide Grounds, RefundGrounds, ChainTrue, RoundsWatched;
    if m.GiveUpOn? {
      LoseKeeps(w.db, {m.ref});
      hide Lose;
    }
  }

  lemma WatchedStep(env: Env, w: World, s: Step, v: World)
    requires Next(env, w, s, v) && Consistent(w) && AllWatched(env, w)
    ensures AllWatched(env, v)
  {
    hide Consistent, ChainMoves, WorkerMoves, RequestMoves, ObserverMoves, AfterWorker, AfterRequest, AfterObserver,
         ChainTrue, RowsWatched, RoundsWatched;
    match s
    case ByChain(m) => ChainFollows(env, w, m);
    case ByWorker(m) => WorkerWatched(env, w, m);
    case ByRequest(m) => RequestLeaves(env, w, m);
    case ByObserver(m) => ObserverWatched(env, w, m);
  }

  lemma {:induction false} WatchedRun(env: Env, ws: seq<World>, ss: seq<Step>, i: nat)
    requires Run(env, ws, ss) && i < |ws|
    ensures AllWatched(env, ws[i])
  {
    hide Next, ValidChain, ValidLedger;
    if i > 0 {
      hide AllWatched;
      WatchedRun(env, ws, ss, i - 1);
      ConsistentRun(env, ws, ss, i - 1);
      WatchedStep(env, ws[i - 1], ss[i - 1], ws[i]);
    }
  }

  /** Over every run, with any number of observers and whatever is given up on, no row is of an asset nobody watches. */
  lemma WatchedTheorem(env: Env, ws: seq<World>, ss: seq<Step>, i: nat, ref: Ref)
    requires Run(env, ws, ss) && i < |ws| && ref in ws[i].db.observations
    ensures ws[i].db.observations[ref].transfer.asset in env.watched
  {
    hide Next;
    WatchedRun(env, ws, ss, i);
  }
}
