/**
 What the theorems about the chain ask of giving up, that nothing final is given
 up on, is what a worker with enough honest endpoints does.
 */
module TruthfulWorker {
  import opened Basics
  import opened Evidence
  import opened Tables
  import opened Chains
  import opened Protocol
  import opened Index
  import opened IndexAgrees
  import opened Finality
  import Paging
  import Reachable
  import opened Deciding
  import opened Rounds
  import opened GivingUp
  import opened Sparing

  // ---- a chain over a run

  lemma FollowsOnward(c: Chain, d: Chain, e: Chain)
    requires Follows(c, d) && Follows(d, e)
    ensures Follows(c, e)
  {
  }

  lemma {:induction false} FollowsRun(env: Env, ws: seq<World>, ss: seq<Step>, a: nat, i: nat)
    requires Run(env, ws, ss) && LoneRun(ws, ss) && a <= i < |ws|
    ensures Follows(ws[a].chain, ws[i].chain)
    decreases i
  {
    hide Indexed, Follows, Lone;
    if a == i {
      IndexedRun(env, ws, ss, i);
      FollowsItself(env, ws[i]);
    } else {
      FollowsRun(env, ws, ss, a, i - 1);
      IndexedRun(env, ws, ss, i - 1);
      assert Next(env, ws[i - 1], ss[i - 1], ws[i]);
      hide Next, Run;
      FollowsStep(env, ws[i - 1], ss[i - 1], ws[i]);
      FollowsOnward(ws[a].chain, ws[i - 1].chain, ws[i].chain);
    }
  }

  lemma FollowsItself(env: Env, w: World)
    requires Indexed(env, w)
    ensures Follows(w.chain, w.chain)
  {
  }

  lemma FollowsStep(env: Env, w: World, s: Step, v: World)
    requires Next(env, w, s, v) && Indexed(env, w)
    ensures Follows(w.chain, v.chain)
  {
    FollowsItself(env, w);
    assert ChainTrue(env, w.chain, w.landed);
    hide Follows, ChainTrue, Indexed, DoProceed, DoWrite, Grounds, RefundGrounds;
    match s
    case ByChain(m) => ChainFollows(env, w, m);
    case ByWorker(m) =>
    case ByRequest(m) => Reachable.RequestLeaves(env, w, m);
    case ByObserver(m) => Reachable.ObserverLeaves(env, w, m);
  }

  // ---- honest endpoints over a run

  /**
   What an honest endpoint shows of a transaction at one moment of the chain: a
   final block no later than the chain's, and the transaction where the chain has
   it, if that is up to there. What it shows above its final block is anything.
   */
  ghost predicate ShowsOf(c: Chain, v: View, x: Tx) {
    && v.final <= c.final
    && forall h: nat :: h <= v.final && On(c, h, x) ==>
         v.carried != [] && v.carried[0] == Recorded(h, c.blocks[h].hash)
  }

  /** It was asked at two moments of a run, of the receipt and then of the head. */
  ghost predicate VisitOf(ws: seq<World>, i: nat, v: Visit, x: Tx)
    requires i < |ws|
  {
    && (exists a :: 0 <= a <= i && ShowsOf(ws[a].chain, v.receipt, x))
    && (exists a :: 0 <= a <= i && ShowsOf(ws[a].chain, v.head, x))
    && v.receipt.final <= v.head.final
  }

  /** An endpoint that tells what it sees of the chain of a run, and only moves forward. */
  ghost predicate Faithful(ws: seq<World>, i: nat, replies: seq<Replying>, e: nat, ref: Ref, r: Recorded)
    requires i < |ws|
  {
    exists visits: seq<Option<Visit>> ::
      && |visits| == |replies|
      && (forall g :: 0 <= g < |visits| && visits[g].Some? ==> VisitOf(ws, i, visits[g].value, ref.tx))
      && (forall g, h :: 0 <= g < h < |visits| && visits[g].Some? && visits[h].Some? ==>
            visits[g].value.head.final <= visits[h].value.receipt.final)
      && forall g :: 0 <= g < |replies| ==> replies[g](e, Id(ref.key, ref.tx)) == Reply(visits[g], r)
  }

  /** What it shows of a transaction of the final chain is where the final chain has it. */
  lemma ShowsFinal(env: Env, ws: seq<World>, ss: seq<Step>, a: nat, i: nat, v: View, h: nat, x: Tx)
    requires Run(env, ws, ss) && LoneRun(ws, ss) && a <= i < |ws| && ShowsOf(ws[a].chain, v, x)
    requires h <= ws[i].chain.final < |ws[i].chain.blocks| && On(ws[i].chain, h, x)
    ensures HoldsFinal(v, Recorded(h, ws[i].chain.blocks[h].hash))
  {
    FollowsRun(env, ws, ss, a, i);
    hide Run, LoneRun;
    if v.final >= h {
      assert On(ws[a].chain, h, x);
    }
  }

  lemma FaithfulIsHonest(env: Env, ws: seq<World>, ss: seq<Step>, i: nat, replies: seq<Replying>, e: nat, ref: Ref, h: nat)
    requires Run(env, ws, ss) && LoneRun(ws, ss) && i < |ws|
    requires h <= ws[i].chain.final < |ws[i].chain.blocks| && On(ws[i].chain, h, ref.tx)
    requires Faithful(ws, i, replies, e, ref, Recorded(h, ws[i].chain.blocks[h].hash))
    ensures HonestOf(replies, e, Id(ref.key, ref.tx), Recorded(h, ws[i].chain.blocks[h].hash))
  {
    var r := Recorded(h, ws[i].chain.blocks[h].hash);
    hide Run, LoneRun, VisitOf, HonestVisit, Asked;
    var visits: seq<Option<Visit>> :|
      && |visits| == |replies|
      && (forall g :: 0 <= g < |visits| && visits[g].Some? ==> VisitOf(ws, i, visits[g].value, ref.tx))
      && (forall g, k :: 0 <= g < k < |visits| && visits[g].Some? && visits[k].Some? ==>
            visits[g].value.head.final <= visits[k].value.receipt.final)
      && forall g :: 0 <= g < |replies| ==> replies[g](e, Id(ref.key, ref.tx)) == Reply(visits[g], r);
    forall g | 0 <= g < |visits| && visits[g].Some? ensures HonestVisit(visits[g].value, r) {
      VisitIsHonest(env, ws, ss, i, visits[g].value, h, ref.tx);
    }
    assert Honest(visits, r);
  }

  lemma VisitIsHonest(env: Env, ws: seq<World>, ss: seq<Step>, i: nat, v: Visit, h: nat, x: Tx)
    requires Run(env, ws, ss) && LoneRun(ws, ss) && i < |ws| && VisitOf(ws, i, v, x)
    requires h <= ws[i].chain.final < |ws[i].chain.blocks| && On(ws[i].chain, h, x)
    ensures HonestVisit(v, Recorded(h, ws[i].chain.blocks[h].hash))
  {
    hide Run, LoneRun, ShowsOf, HoldsFinal;
    var a :| 0 <= a <= i && ShowsOf(ws[a].chain, v.receipt, x);
    ShowsFinal(env, ws, ss, a, i, v.receipt, h, x);
    var b :| 0 <= b <= i && ShowsOf(ws[b].chain, v.head, x);
    ShowsFinal(env, ws, ss, b, i, v.head, h, x);
  }

  // ---- a worker over a run

  /** A worker's rounds, the endpoints it asked in them, and which of those may lie. */
  datatype Workings = Workings(
    perRound: nat, n: nat, ms: seq<Memory>, ts: seq<Turn>, replies: seq<Replying>, askings: seq<seq<seq<nat>>>,
    need: nat, misses: nat, liars: set<nat>)

  /** Enough of what it asks is honest: misses outweigh the honest endpoints, and the liars are too few to agree. */
  ghost predicate Sound(b: Workings) {
    && Working(b.perRound, b.ms, b.ts) && Answered(b.ms, b.ts, b.replies, b.askings, b.need, b.n)
    && (forall k :: 0 <= k < |b.ts| ==> Apart(b.ts[k]))
    && |b.liars| <= b.need && (forall e :: e in b.liars ==> e < b.n)
    && b.misses * (b.need - |b.liars|) > b.n - |b.liars|
  }

  predicate GivesUpIn(b: Workings, k: nat, ref: Ref) {
    && k < |b.ts| && k < |b.ms| && |b.ts[k].verdicts| <= |b.ts[k].Items()|
    && Id(ref.key, ref.tx) in GoneOf(b.ms[k].answers, b.ts[k].Items()[..|b.ts[k].verdicts|], b.ts[k].verdicts, b.misses)
  }

  /** Whoever of its endpoints does not lie tells what it sees of the chain of the run, of a row where it was recorded. */
  ghost predicate Seeing(ws: seq<World>, i: nat, b: Workings, ref: Ref, at: Place)
    requires i < |ws|
  {
    forall e :: 0 <= e < b.n && e !in b.liars ==> Faithful(ws, i, b.replies, e, ref, Recorded(at.height, at.hash))
  }

  /** A row recorded as final is given up on in no round of such a worker. */
  lemma FinalRowsAreSpared(env: Env, ws: seq<World>, ss: seq<Step>, i: nat, ref: Ref, b: Workings, k: nat)
    requires Run(env, ws, ss) && LoneRun(ws, ss) && i < |ws|
    requires ref in ws[i].db.observations && ws[i].db.observations[ref].final
    requires Sound(b) && Seeing(ws, i, b, ref, ws[i].db.observations[ref].place)
    ensures !GivesUpIn(b, k, ref)
  {
    var o := ws[i].db.observations[ref];
    FinalIsThere(env, ws, ss, i, ref);
    hide Run, LoneRun, Faithful, HonestOf, Working, Answered, Apart, GoneOf;
    forall e | 0 <= e < b.n && e !in b.liars
      ensures HonestOf(b.replies, e, Id(ref.key, ref.tx), Recorded(o.place.height, o.place.hash))
    {
      FaithfulIsHonest(env, ws, ss, i, b.replies, e, ref, o.place.height);
    }
    if k < |b.ts| {
      SparedTheorem(b.perRound, b.n, b.ms, b.ts, b.replies, b.askings, b.need, b.misses, b.liars,
                    Id(ref.key, ref.tx), Recorded(o.place.height, o.place.hash), k);
    }
  }

  lemma FinalIsThere(env: Env, ws: seq<World>, ss: seq<Step>, i: nat, ref: Ref)
    requires Run(env, ws, ss) && LoneRun(ws, ss) && i < |ws|
    requires ref in ws[i].db.observations && ws[i].db.observations[ref].final
    ensures var c, at := ws[i].chain, ws[i].db.observations[ref].place;
            at.height <= c.final < |c.blocks| && On(c, at.height, ref.tx) && c.blocks[at.height].hash == at.hash
  {
    hide Run, LoneRun;
    IndexedRun(env, ws, ss, i);
    assert RowTrue(env, ws[i].chain, ws[i].db.cursor, ref, ws[i].db.observations[ref]);
  }

  /** Every row given up on is one recorded as final that a round of a worker gave up on. */
  ghost predicate ByWorkers(ws: seq<World>, ss: seq<Step>, workers: seq<Workings>) {
    && |ws| == |ss| + 1 && |workers| == |ss|
    && forall i :: 0 <= i < |ss| && ss[i].ByWorker? && ss[i].worker.GiveUpOn? ==>
         var ref := ss[i].worker.ref;
         && ref in ws[i].db.observations && ws[i].db.observations[ref].final
         && Sound(workers[i]) && Seeing(ws, i, workers[i], ref, ws[i].db.observations[ref].place)
         && exists k :: 0 <= k < |workers[i].ts| && GivesUpIn(workers[i], k, ref)
  }

  /**
   Over a run with one observer at a time in which whatever is given up on is given
   up on by a worker that reads final rows and asks enough honest endpoints, nothing
   on the final chain is: the theorems that ask for such a run have one.
   */
  lemma TruthfulTheorem(env: Env, ws: seq<World>, ss: seq<Step>, workers: seq<Workings>)
    requires Run(env, ws, ss) && LoneRun(ws, ss) && ByWorkers(ws, ss, workers)
    ensures TruthfulRun(ws, ss)
  {
    hide Run, LoneRun, Sound, Seeing, GivesUpIn, Truthful;
    forall i | 0 <= i < |ss| ensures Truthful(ws[i], ss[i]) {
      if ss[i].ByWorker? && ss[i].worker.GiveUpOn? {
        var ref := ss[i].worker.ref;
        var k :| 0 <= k < |workers[i].ts| && GivesUpIn(workers[i], k, ref);
        FinalRowsAreSpared(env, ws, ss, i, ref, workers[i], k);
        assert false;
      } else {
        TrulyOther(ws[i], ss[i]);
      }
    }
  }

  lemma TrulyOther(w: World, s: Step)
    requires !(s.ByWorker? && s.worker.GiveUpOn?)
    ensures Truthful(w, s)
  {
  }
}
