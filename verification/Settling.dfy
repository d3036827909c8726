/** What a worker settles on was seen where it was recorded, by an endpoint that does not lie. */
module Settling {
  import opened Basics
  import opened Tables
  import opened Chains
  import opened Protocol
  import opened Index
  import opened IndexAgrees
  import opened Finality
  import opened Deciding
  import opened GivingUp
  import opened Sparing
  import opened TruthfulWorker

  // ---- one endpoint

  predicate Shows(v: View, r: Recorded) { v.carried != [] && v.carried[0] == r }

  /**
   An endpoint says final of what its receipt shows where it was recorded, once its
   final block has reached that; gone of what no receipt shows, once it has; and while
   it has not, that it is waiting or that the transfer is elsewhere.
   */
  lemma ReplyMeans(v: Visit, r: Recorded)
    ensures Reply(Some(v), r) == Some(Final) <==> Shows(v.receipt, r) && v.head.final >= r.height
    ensures Reply(Some(v), r) == Some(Gone) <==> v.receipt.carried == [] && v.head.final >= r.height
    ensures Reply(Some(v), r) == Some(Elsewhere) <==> v.receipt.carried != [] && v.receipt.carried[0] != r
    ensures v.head.final < r.height ==> Reply(Some(v), r) in {Some(Waiting), Some(Elsewhere)}
  {
  }

  // ---- as many as agree

  /** What an endpoint that does not lie answers is what it makes of what it sees. */
  ghost predicate Truly(reply: Option<Said>, r: Recorded) { exists visit :: reply == Reply(visit, r) }

  /** An endpoint showed the transfer where it was recorded, at or below what it then said was final. */
  ghost predicate SawFinal(reply: Option<Said>, r: Recorded) {
    exists v :: reply == Reply(Some(v), r) && Shows(v.receipt, r) && r.height <= v.head.final
  }

  lemma TrulyFinal(reply: Option<Said>, r: Recorded)
    requires Truly(reply, r) && reply == Some(Final)
    ensures SawFinal(reply, r)
  {
    var visit :| reply == Reply(visit, r);
    ReplyMeans(visit.value, r);
  }

  /** With fewer liars than agreement takes, an agreed final was said by somebody who does not lie. */
  lemma FinalIsSaid(replies: seq<Option<Said>>, liars: set<nat>, need: nat)
    requires need > |liars| && VerdictOf(Heard(replies), need) == Agreed(Final)
    ensures exists e :: 0 <= e < |replies| && e !in liars && replies[e] == Some(Final)
  {
    AgreedMeans(replies, need, Final);
    hide VerdictOf, Heard;
    Minus(Saying(replies, Final), liars);
    var e :| e in Saying(replies, Final) - liars;
  }

  lemma SettledIsSaid(n: nat, m: Memory, t: Turn, askings: seq<seq<nat>>, reply: Replying, need: nat, liars: set<nat>, id: Id)
    requires need > |liars| && Told(m.answers, t.Items(), t.verdicts, askings, reply, need) && askings[0] == Everybody(n)
    requires PutAndSaid(m.answers, t.Items(), |t.verdicts|, askings, reply, need, id, Final)
    ensures exists e :: 0 <= e < n && e !in liars && reply(e, id) == Some(Final)
  {
    var i :| 0 <= i < |t.verdicts| && IdOf(t.Items()[i]) == id && !LeftUnasked(Get(m.answers, id))
             && EnoughSaid(askings[i], reply, id, need, Final);
    AskingClimbs(m.answers, t.Items(), t.verdicts, askings, reply, need, n, i);
    hide Told, Heard, VerdictOf, PutAndSaid, LeftUnasked, AllSay;
    var row := Heeding(n, askings[i], reply, id);
    RowIsHeard(n, askings[i], reply, id);
    AgreedMeans(Replies(askings[i], reply, id), need, Final);
    FinalIsSaid(row, liars, need);
  }

  /**
   What a round settles on, one of its endpoints that does not lie showed where it
   was recorded, at or below what it then said was final: whatever was left unasked,
   was silent or was left out before, where fewer may lie than agreement takes.
   */
  lemma SettledTheorem(n: nat, m: Memory, t: Turn, askings: seq<seq<nat>>, reply: Replying, need: nat, liars: set<nat>,
                       id: Id, r: Recorded)
    requires need > |liars| && Told(m.answers, t.Items(), t.verdicts, askings, reply, need) && askings[0] == Everybody(n)
    requires forall e :: 0 <= e < n && e !in liars ==> Truly(reply(e, id), r)
    requires PutAndSaid(m.answers, t.Items(), |t.verdicts|, askings, reply, need, id, Final)
    ensures exists e :: 0 <= e < n && e !in liars && SawFinal(reply(e, id), r)
  {
    SettledIsSaid(n, m, t, askings, reply, need, liars, id);
    hide Told, PutAndSaid, Truly, SawFinal;
    var e :| 0 <= e < n && e !in liars && reply(e, id) == Some(Final);
    TrulyFinal(reply(e, id), r);
  }

  // ---- over a run of the protocol

  /** What an endpoint that tells what it sees shows of a transaction at one moment of the chain, wherever that has it. */
  ghost predicate ShowsAll(c: Chain, v: View, x: Tx) {
    && ShowsOf(c, v, x)
    && (v.carried != [] ==>
          var h := v.carried[0].height; On(c, h, x) && c.blocks[h].hash == v.carried[0].hash)
  }

  /** It was asked for the receipt at one moment of a run, and for the head at one no earlier. */
  ghost predicate VisitedAt(ws: seq<World>, a: nat, b: nat, v: Visit, x: Tx) {
    a <= b < |ws| && ShowsAll(ws[a].chain, v.receipt, x) && ShowsAll(ws[b].chain, v.head, x)
  }

  /** What it answers is what it makes of what it saw of the chain up to a moment of the run. */
  ghost predicate Telling(ws: seq<World>, i: nat, reply: Option<Said>, x: Tx, r: Recorded) {
    exists visit :: reply == Reply(visit, r) && (visit.Some? ==> exists a: nat, b: nat :: b <= i && VisitedAt(ws, a, b, visit.value, x))
  }

  /**
   The transfer was where it was recorded at one moment, at or below the final block
   at another no earlier, and is on the final chain for good exactly if it was still
   there at the second.
   */
  ghost predicate WasThere(ws: seq<World>, i: nat, x: Tx, r: Recorded)
    requires i < |ws|
  {
    exists a, b ::
      && 0 <= a <= b <= i
      && On(ws[a].chain, r.height, x) && ws[a].chain.blocks[r.height].hash == r.hash
      && r.height <= ws[b].chain.final
      && (On(ws[i].chain, r.height, x) <==> On(ws[b].chain, r.height, x))
  }

  lemma ToldFinalWasThere(env: Env, ws: seq<World>, ss: seq<Step>, i: nat, reply: Option<Said>, x: Tx, r: Recorded)
    requires Run(env, ws, ss) && LoneRun(ws, ss) && i < |ws| && Telling(ws, i, reply, x, r) && reply == Some(Final)
    ensures WasThere(ws, i, x, r)
  {
    var visit :| reply == Reply(visit, r) && (visit.Some? ==> exists a: nat, b: nat :: b <= i && VisitedAt(ws, a, b, visit.value, x));
    ReplyMeans(visit.value, r);
    var a: nat, b: nat :| b <= i && VisitedAt(ws, a, b, visit.value, x);
    FollowsRun(env, ws, ss, b, i);
    hide Run, LoneRun, Asked;
    assert a <= b && On(ws[a].chain, r.height, x);
  }

  /**
   Over every run in which one observer reads at a time: what a round of a worker
   settles on was where it was recorded, at or below a final block, and is there for
   good exactly if it still was when the head was read.
   */
  lemma SettledWasThere(env: Env, ws: seq<World>, ss: seq<Step>, i: nat, n: nat, m: Memory, t: Turn, askings: seq<seq<nat>>,
                        reply: Replying, need: nat, liars: set<nat>, ref: Ref, r: Recorded)
    requires Run(env, ws, ss) && LoneRun(ws, ss) && i < |ws|
    requires need > |liars| && Told(m.answers, t.Items(), t.verdicts, askings, reply, need) && askings[0] == Everybody(n)
    requires forall e :: 0 <= e < n && e !in liars ==> Telling(ws, i, reply(e, Id(ref.key, ref.tx)), ref.tx, r)
    requires PutAndSaid(m.answers, t.Items(), |t.verdicts|, askings, reply, need, Id(ref.key, ref.tx), Final)
    ensures WasThere(ws, i, ref.tx, r)
  {
    var id := Id(ref.key, ref.tx);
    SettledIsSaid(n, m, t, askings, reply, need, liars, id);
    hide Run, LoneRun, Told, PutAndSaid, Telling, WasThere;
    var e :| 0 <= e < n && e !in liars && reply(e, id) == Some(Final);
    ToldFinalWasThere(env, ws, ss, i, reply(e, id), ref.tx, r);
  }

  /**
   And it may not have been: an endpoint that tells what it sees, read across a reorg
   that drops a block not yet final, says final of what the final chain does not carry.
   */
  lemma FinalCanBeRaced(x: Tx, r: Recorded)
    requires r.height > 0
    ensures exists c: Chain, d: Chain, v: Visit, b: Block ::
              && r.height <= |c.blocks| && d == Reorged(c, r.height, b).(final := r.height) && Follows(c, d)
              && ShowsAll(c, v.receipt, x) && ShowsAll(d, v.head, x) && v.receipt.final <= v.head.final
              && Reply(Some(v), r) == Some(Final) && !On(d, r.height, x)
  {
    var base: seq<Block> := seq(r.height, h => Block(0, 0, []));
    var c := Chain(base + [Block(r.hash, 0, [x])], r.height - 1);
    var b := Block(r.hash + 1, 0, []);
    var d := Chain(base + [b], r.height);
    var v := Visit(View(r.height - 1, [r]), View(r.height, []));
    assert c.blocks[r.height] == Block(r.hash, 0, [x]);
    assert forall h :: 0 <= h < r.height ==> c.blocks[h] == base[h] && d.blocks[h] == base[h];
    assert ShowsAll(c, v.receipt, x) && ShowsAll(d, v.head, x);
    ReplyMeans(v, r);
    assert Follows(c, d);
    assert c.blocks[..r.height] == base;
    assert d == Reorged(c, r.height, b).(final := r.height);
  }
}
