/** A round reads each transaction once, so what it says of a row it says once. */
module ReadOnce {
  import opened Basics
  import opened Evidence
  import opened Tables
  import opened Chains
  import opened Reading
  import opened Protocol
  import opened Reachable
  import opened Observing

  /** What is read of one row is read once. */
  ghost predicate EntriesAgree(es: seq<Entry>) {
    forall e, f :: e in es && f in es && e.ref == f.ref ==> e == f
  }

  ghost predicate WorkOnce(work: Work) {
    work.Receiving? ==>
      && (forall i, j :: 0 <= i < j < |work.todo| ==> work.todo[i] != work.todo[j])
      && (forall s :: s in work.seen ==> s.tx !in work.todo)
      && (forall s :: s in work.sent ==> s.tx !in work.todo)
      && (forall s, q :: s in work.seen && q in work.seen && SeenEntry(s).ref == SeenEntry(q).ref ==> s == q)
      && (forall s, q :: s in work.sent && q in work.sent && SentEntry(s).ref == SentEntry(q).ref ==> s == q)
      && (forall s, q :: s in work.seen && q in work.sent ==> SeenEntry(s).ref != SentEntry(q).ref)
  }

  ghost predicate RoundsOnce(rounds: map<nat, Round>) {
    forall i :: i in rounds && (rounds[i].Settling? || rounds[i].Ahead?) ==> WorkOnce(rounds[i].work)
  }

  lemma LookOnce(db: Rows, consumed: seq<Consumed>)
    ensures WorkOnce(Looked(db, consumed))
  {
    var work := Looked(db, consumed);
    var held := work.against.Keys + work.back.Keys;
    TransactionsSound(consumed, held, {}, {});
    assert work.todo == TransactionsAfter(consumed, held, {}, {});
  }

  /** One receipt says one thing of each key, and against one thing. */
  lemma ReceiptSays(env: Env, x: Tx, at: Place, against: map<Key, Hit>, back: map<Key, Back>)
    requires ValidLedger(env.ledger)
    ensures var ts := if x in env.ledger then env.ledger[x] else [];
            var seen, sent := SeenIn(ts, x, at, against), SentIn(ts, x, at, against, back);
            && (forall s :: s in seen ==> s.tx == x && s.transfer.key in against)
            && (forall s :: s in sent ==> s.tx == x && s.transfer.key !in against)
            && (forall s, q :: s in seen && q in seen && s.transfer.key == q.transfer.key ==> s == q)
            && (forall s, q :: s in sent && q in sent && s.transfer.key == q.transfer.key ==> s == q)
  {
    var ts := if x in env.ledger then env.ledger[x] else [];
    var seen, sent := SeenIn(ts, x, at, against), SentIn(ts, x, at, against, back);
    forall s | s in seen
      ensures s.tx == x && s.transfer.key in against && s.transfer in ts && SeenOf(s.transfer, x, at, against) == Some(s)
    {
      SeenInExact(ts, x, at, against, s);
    }
    forall s | s in sent
      ensures s.tx == x && s.transfer.key !in against && s.transfer in ts && SentOf(s.transfer, x, at, against, back) == Some(s)
    {
      SentInExact(ts, x, at, against, back, s);
    }
    forall t, u | t in ts && u in ts && t.key == u.key ensures t == u {
      SameTransfer(env, x, t, u);
    }
  }

  lemma ReceiptOnce(env: Env, at: Place, work: Work)
    requires ValidLedger(env.ledger) && work.Receiving? && work.todo != [] && WorkOnce(work)
    ensures WorkOnce(Received(env, work.todo[0], at, work))
  {
    ReceiptSays(env, work.todo[0], at, work.against, work.back);
    hide SeenIn, SentIn;
    assert work.todo == [work.todo[0]] + work.todo[1..];
    var after := Received(env, work.todo[0], at, work);
    assert forall i :: 0 <= i < |after.todo| ==> after.todo[i] == work.todo[i + 1];
    assert work.todo[0] in work.todo;
  }

  lemma WorkAgrees(work: Work)
    requires work.Receiving? && WorkOnce(work)
    ensures EntriesAgree(Entries(work.seen, work.sent))
  {
    var es := Entries(work.seen, work.sent);
    forall e, f | e in es && f in es && e.ref == f.ref ensures e == f {
      if s, q :| s in work.seen && q in work.seen && e == SeenEntry(s) && f == SeenEntry(q) {
      } else {
        EntryFrom(work.seen, work.sent, e);
        EntryFrom(work.seen, work.sent, f);
      }
    }
  }

  lemma EntryFrom(seen: seq<Seen>, sent: seq<Sent>, e: Entry)
    requires e in Entries(seen, sent)
    ensures (exists s :: s in seen && e == SeenEntry(s)) || (exists s :: s in sent && e == SentEntry(s))
  {
    var es := Entries(seen, sent);
    var i :| 0 <= i < |es| && es[i] == e;
    if i < |seen| {
      assert seen[i] in seen;
    } else {
      assert sent[i - |seen|] in sent && es[|seen| + (i - |seen|)] == SentEntry(sent[i - |seen|]);
    }
  }

  lemma OnceMoved(w: World, i: nat, work: Work)
    requires RoundsOnce(w.rounds) && Reads(w, i) && WorkOnce(work)
    ensures RoundsOnce(WithWork(w, i, work).rounds)
  {
    hide WorkOnce;
  }

  lemma FewerOnce(before: map<nat, Round>, after: map<nat, Round>)
    requires RoundsOnce(before)
    requires forall j :: j in after ==>
               || (j in before && after[j] == before[j]) || after[j].Between? || after[j].Standing?
               || ((after[j].Settling? || after[j].Ahead?) && !after[j].work.Receiving?)
    ensures RoundsOnce(after)
  {
  }

  lemma OnceAt(rounds: map<nat, Round>, i: nat)
    requires RoundsOnce(rounds) && i in rounds && (rounds[i].Settling? || rounds[i].Ahead?)
    ensures WorkOnce(rounds[i].work)
  {
  }

  lemma ObserverOnce(env: Env, w: World, m: ObserverMove)
    requires ObserverMoves(w, m) && ValidLedger(env.ledger) && RoundsOnce(w.rounds)
    ensures RoundsOnce(AfterObserver(env, w, m).rounds)
  {
    hide ValidLedger, RoundsOnce, WorkOnce;
    match m
    case Look(i) =>
      LookOnce(w.db, w.rounds[i].work.consumed);
      OnceMoved(w, i, Looked(w.db, w.rounds[i].work.consumed));
    case Receipt(i) =>
      ReceiptIs(env, w, i);
      OnceAt(w.rounds, i);
      var work := w.rounds[i].work;
      if Find(w.chain, work.todo[0]).Some? {
        ReceiptOnce(env, Find(w.chain, work.todo[0]).value, work);
        OnceMoved(w, i, Received(env, work.todo[0], Find(w.chain, work.todo[0]).value, work));
      } else {
        FewerOnce(w.rounds, Dropped(w.rounds, i));
      }
    case _ => FewerOnce(w.rounds, AfterObserver(env, w, m).rounds);
  }

  lemma {:induction false} OnceRun(env: Env, ws: seq<World>, ss: seq<Step>, i: nat)
    requires Run(env, ws, ss) && i < |ws|
    ensures ValidLedger(env.ledger) && RoundsOnce(ws[i].rounds)
  {
    hide ValidLedger, ValidChain;
    if i > 0 {
      hide RoundsOnce;
      OnceRun(env, ws, ss, i - 1);
      var w, s := ws[i - 1], ss[i - 1];
      assert Next(env, w, s, ws[i]);
      hide AfterObserver, DoProceed, Grounds, RefundGrounds;
      if s.ByObserver? {
        ObserverOnce(env, w, s.observer);
      } else if s.ByRequest? {
        RequestLeaves(env, w, s.request);
      }
    }
  }
}
