/** The chain in memory the repository's own tests run on, and that it is a chain as one is assumed to be. */
module Simulated {
  import opened Basics
  import opened Evidence
  import opened Chains

  /** A transfer sent, under the transaction it was given. */
  datatype Carried = Carried(tx: Tx, transfer: Transfer)

  /** A block, numbered by how many were ever made: its hash and its moment are the number's. */
  datatype Made = Made(number: nat, transfers: seq<Carried>)

  function TxsOf(transfers: seq<Carried>): (xs: seq<Tx>)
    ensures |xs| == |transfers| && forall i :: 0 <= i < |xs| ==> xs[i] == transfers[i].tx
  {
    seq(|transfers|, i requires 0 <= i < |transfers| => transfers[i].tx)
  }

  /** Every transfer of a run of blocks, in order. */
  function Flat(blocks: seq<Made>): seq<Carried> {
    if blocks == [] then [] else Flat(blocks[..|blocks| - 1]) + blocks[|blocks| - 1].transfers
  }

  /** Those of the transactions named, in the order they are in. */
  function Keeping(transfers: seq<Carried>, keep: set<Tx>): seq<Carried> {
    if transfers == [] then []
    else
      var last := transfers[|transfers| - 1];
      Keeping(transfers[..|transfers| - 1], keep) + if last.tx in keep then [last] else []
  }

  predicate NoTxTwice(transfers: seq<Carried>) {
    forall i, j :: 0 <= i < j < |transfers| ==> transfers[i].tx != transfers[j].tx
  }

  /** What was sent so far: a transaction carries one transfer, and its number is where it stands. */
  predicate WasSent(log: seq<Transfer>, c: Carried) { 0 < c.tx <= |log| && c.transfer == log[c.tx - 1] }

  function LedgerOf(log: seq<Transfer>): (ledger: Ledger)
    ensures forall x :: x in ledger <==> 0 < x <= |log|
    ensures forall x :: x in ledger ==> ledger[x] == [log[x - 1]]
  {
    if log == [] then map[] else LedgerOf(log[..|log| - 1])[|log| := [log[|log| - 1]]]
  }

  predicate AllSent(log: seq<Transfer>, transfers: seq<Carried>) {
    forall i :: 0 <= i < |transfers| ==> WasSent(log, transfers[i])
  }

  predicate Numbered(blocks: seq<Made>, made: nat) {
    && (forall h, g :: 0 <= h < g < |blocks| ==> blocks[h].number < blocks[g].number)
    && (forall h :: 0 <= h < |blocks| ==> blocks[h].number <= made)
  }

  function BlockOf(b: Made): Block { Block(b.number, b.number * SECOND, TxsOf(b.transfers)) }

  function ChainOf(blocks: seq<Made>, final: nat): (c: Chain)
    ensures |c.blocks| == |blocks| && c.final == final
    ensures forall h :: 0 <= h < |blocks| ==> c.blocks[h] == BlockOf(blocks[h])
  {
    Chain(seq(|blocks|, h requires 0 <= h < |blocks| => BlockOf(blocks[h])), final)
  }

  // ---- flattening

  lemma Reassociate(a: seq<Carried>, b: seq<Carried>, c: seq<Carried>)
    ensures a + (b + c) == (a + b) + c
  {
  }

  lemma FlatLast(blocks: seq<Made>, last: Made)
    ensures Flat(blocks + [last]) == Flat(blocks) + last.transfers
  {
    assert (blocks + [last])[..|blocks|] == blocks;
  }

  lemma {:induction false} FlatBoth(a: seq<Made>, b: seq<Made>)
    ensures Flat(a + b) == Flat(a) + Flat(b)
  {
    if b == [] {
      assert a + b == a;
    } else {
      hide Flat;
      var front, last := b[..|b| - 1], b[|b| - 1];
      FlatBoth(a, front);
      FlatLast(front, last);
      FlatLast(a + front, last);
      assert b == front + [last] && a + b == (a + front) + [last];
      Reassociate(Flat(a), Flat(front), last.transfers);
    }
  }

  lemma FlatOne(b: Made)
    ensures Flat([b]) == b.transfers
  {
    assert [b][..0] == [];
  }

  predicate TxApart(a: seq<Carried>, b: seq<Carried>) { forall c, d :: c in a && d in b ==> c.tx != d.tx }

  lemma TwoParts(a: seq<Carried>, b: seq<Carried>)
    ensures NoTxTwice(a + b) <==> NoTxTwice(a) && NoTxTwice(b) && TxApart(a, b)
  {
    var all := a + b;
    if NoTxTwice(all) {
      assert forall i :: 0 <= i < |a| ==> all[i] == a[i];
      assert forall i :: 0 <= i < |b| ==> all[|a| + i] == b[i];
      forall c, d | c in a && d in b ensures c.tx != d.tx {
        var i :| 0 <= i < |a| && a[i] == c;
        var j :| 0 <= j < |b| && b[j] == d;
        assert all[i].tx != all[|a| + j].tx;
      }
    }
    if NoTxTwice(a) && NoTxTwice(b) && TxApart(a, b) {
      forall i, j | 0 <= i < j < |all| ensures all[i].tx != all[j].tx {
        if i < |a| && j >= |a| {
          assert a[i] in a && b[j - |a|] in b;
        }
      }
    }
  }

  lemma {:induction false} KeepingIsPart(transfers: seq<Carried>, keep: set<Tx>)
    ensures forall c :: c in Keeping(transfers, keep) ==> c in transfers
    ensures NoTxTwice(transfers) ==> NoTxTwice(Keeping(transfers, keep))
  {
    if transfers != [] {
      var front, last := transfers[..|transfers| - 1], transfers[|transfers| - 1];
      KeepingIsPart(front, keep);
      assert transfers == front + [last];
      TwoParts(front, [last]);
      TwoParts(Keeping(front, keep), [last]);
    }
  }

  /** A reorg keeps some of what it drops, so nothing is anywhere twice. */
  lemma KeptOnce(below: seq<Carried>, dropped: seq<Carried>, staged: seq<Carried>, keep: set<Tx>)
    requires NoTxTwice(below + dropped + staged)
    ensures NoTxTwice(below + Keeping(dropped, keep) + staged)
  {
    var kept := Keeping(dropped, keep);
    KeepingIsPart(dropped, keep);
    TwoParts(below + dropped, staged);
    TwoParts(below, dropped);
    assert forall c :: c in below + dropped <==> c in below || c in dropped;
    TwoParts(below, kept);
    TwoParts(below + kept, staged);
  }

  /** A block that keeps some of what is dropped holds only what was sent, and nothing twice. */
  lemma StillSound(log: seq<Transfer>, blocks: seq<Made>, staged: seq<Carried>, from: nat, keep: set<Tx>, b: Made)
    requires from <= |blocks| && AllSent(log, Flat(blocks) + staged) && NoTxTwice(Flat(blocks) + staged)
    requires b.transfers == Keeping(Flat(blocks[from..]), keep)
    ensures AllSent(log, Flat(blocks[..from] + [b]) + staged) && NoTxTwice(Flat(blocks[..from] + [b]) + staged)
  {
    hide Keeping, Flat, AllSent, NoTxTwice;
    var below, above := blocks[..from], blocks[from..];
    assert blocks == below + above;
    FlatBoth(below, above);
    KeptOnce(Flat(below), Flat(above), staged, keep);
    KeptSent(log, Flat(below), Flat(above), staged, keep);
    FlatBoth(below, [b]);
    FlatOne(b);
  }

  // ---- the chain

  class Simulation {
    var blocks: seq<Made>
    var staged: seq<Carried>
    var final: nat
    var made: nat
    var log: seq<Transfer>

    predicate Valid()
      reads this
    {
      && final < |blocks| && Numbered(blocks, made)
      && AllSent(log, Flat(blocks) + staged) && NoTxTwice(Flat(blocks) + staged)
    }

    function View(): Chain
      reads this
    {
      ChainOf(blocks, final)
    }

    constructor ()
      ensures Valid() && |View().blocks| == 1 && View().final == 0 && log == []
    {
      blocks, staged, final, made, log := [Made(1, [])], [], 0, 1, [];
      new;
      FlatOne(Made(1, []));
    }

    /** A transfer is held for the next block, under a transaction of its own. */
    method Send(t: Transfer)
      requires Valid()
      modifies this`staged, this`log
      ensures Valid() && log == old(log) + [t] && staged == old(staged) + [Carried(|log|, t)]
    {
      log := log + [t];
      ghost var before := Flat(blocks) + staged;
      assert forall i :: 0 <= i < |before| ==> before[i].tx < |log| && WasSent(log, before[i]);
      staged := staged + [Carried(|log|, t)];
      assert Flat(blocks) + staged == before + [Carried(|log|, t)];
    }

    method Mine()
      requires Valid()
      modifies this
      ensures Valid() && log == old(log) && staged == []
      ensures View() == Mined(old(View()), BlockOf(Made(old(made) + 1, old(staged))))
    {
      made := made + 1;
      var b := Made(made, staged);
      FlatBoth(blocks, [b]);
      FlatOne(b);
      assert Flat(blocks + [b]) + [] == Flat(blocks) + staged;
      blocks, staged := blocks + [b], [];
      assert View().blocks == old(View()).blocks + [BlockOf(b)];
    }

    /** Finality only moves up, and only to a block there is: anything else is refused. */
    method Finalize(height: nat) returns (ok: bool)
      requires Valid()
      modifies this`final
      ensures Valid()
      ensures ok == (old(final) <= height < |blocks|)
      ensures View() == if ok then old(View()).(final := height) else old(View())
      ensures Follows(old(View()), View())
    {
      if height >= |blocks| || height < final {
        return false;
      }
      final := height;
      return true;
    }

    /** What the blocks from a height up hold of the transactions named. */
    method KeptAbove(from: nat, keep: seq<Tx>) returns (kept: seq<Carried>)
      requires from <= |blocks|
      ensures kept == Keeping(Flat(blocks[from..]), set x | x in keep)
    {
      kept := [];
      ghost var named := set x | x in keep;
      for h := from to |blocks|
        invariant kept == Keeping(Flat(blocks[from..h]), named)
      {
        assert blocks[from..h + 1][..h - from] == blocks[from..h];
        var more := KeptOf(blocks[h].transfers, keep);
        KeepingBoth(Flat(blocks[from..h]), blocks[h].transfers, named);
        kept := kept + more;
      }
      assert blocks[from..|blocks|] == blocks[from..];
    }

    /** The blocks above a height give way to one that keeps the transactions named; the final block is not dropped. */
    method Reorg(from: nat, keep: seq<Tx>) returns (ok: bool)
      requires Valid()
      modifies this
      ensures Valid() && log == old(log) && staged == old(staged)
      ensures ok <==>
              old(final) < from < |old(blocks)|
              && |Keeping(Flat(old(blocks)[from..]), set x | x in keep)| == |keep|
      ensures ok ==>
              View() == Reorged(old(View()), from, BlockOf(Made(old(made) + 1, Keeping(Flat(old(blocks)[from..]), set x | x in keep))))
      ensures !ok ==> View() == old(View())
      ensures Follows(old(View()), View())
    {
      hide Keeping, Flat, AllSent, NoTxTwice;
      if from >= |blocks| || from <= final {
        return false;
      }
      var kept := KeptAbove(from, keep);
      if |kept| != |keep| {
        return false;
      }
      var b := Made(made + 1, kept);
      StillSound(log, blocks, staged, from, (set x | x in keep), b);
      made, blocks := made + 1, blocks[..from] + [b];
      assert View().blocks == old(View()).blocks[..from] + [BlockOf(b)];
      return true;
    }

    method KeptOf(transfers: seq<Carried>, keep: seq<Tx>) returns (kept: seq<Carried>)
      ensures kept == Keeping(transfers, set x | x in keep)
    {
      kept := [];
      for i := 0 to |transfers|
        invariant kept == Keeping(transfers[..i], set x | x in keep)
      {
        assert transfers[..i + 1][..i] == transfers[..i];
        if transfers[i].tx in keep {
          kept := kept + [transfers[i]];
        }
      }
      assert transfers[..|transfers|] == transfers;
    }

    /** The keys the assets asked about consumed in a span of blocks, as a scan answers with them. */
    method Keys(first: nat, last: nat, assets: set<Asset>) returns (out: seq<Consumed>)
      requires Valid()
      ensures out == KeysIn(View(), first, last, LedgerOf(log), assets)
    {
      hide KeysIn, Flat, NoTxTwice, AllSent;
      out := [];
      var height := first;
      while height <= last && height < |blocks|
        invariant first <= height
        invariant KeysIn(View(), first, last, LedgerOf(log), assets) == out + KeysIn(View(), height, last, LedgerOf(log), assets)
        decreases |blocks| - height
      {
        var found := KeysOf(blocks[height].transfers, assets);
        BlockSent(log, blocks, staged, height);
        KeysOfBlock(blocks[height].transfers, log, assets);
        KeysInNext(View(), height, last, LedgerOf(log), assets, out);
        out := out + found;
        height := height + 1;
      }
      KeysInEnd(View(), height, last, LedgerOf(log), assets);
    }

    method KeysOf(transfers: seq<Carried>, assets: set<Asset>) returns (out: seq<Consumed>)
      ensures out == KeysCarried(transfers, assets)
    {
      out := [];
      var i := 0;
      while i < |transfers|
        invariant 0 <= i <= |transfers|
        invariant out + KeysCarried(transfers[i..], assets) == KeysCarried(transfers, assets)
      {
        var t := transfers[i];
        assert transfers[i..][0] == t && transfers[i..][1..] == transfers[i + 1..];
        if t.transfer.asset in assets {
          out := out + [Consumed(t.transfer.key, t.tx)];
        }
        i := i + 1;
      }
    }
  }

  lemma KeysInNext(c: Chain, h: nat, last: nat, ledger: Ledger, assets: set<Asset>, out: seq<Consumed>)
    requires h <= last && h < |c.blocks|
    ensures out + KeysIn(c, h, last, ledger, assets)
            == (out + KeysOfTxs(c.blocks[h].txs, ledger, assets)) + KeysIn(c, h + 1, last, ledger, assets)
  {
  }

  lemma KeysInEnd(c: Chain, h: nat, last: nat, ledger: Ledger, assets: set<Asset>)
    requires h > last || h >= |c.blocks|
    ensures KeysIn(c, h, last, ledger, assets) == []
  {
  }

  function KeysCarried(transfers: seq<Carried>, assets: set<Asset>): seq<Consumed> {
    if transfers == [] then []
    else
      (if transfers[0].transfer.asset in assets then [Consumed(transfers[0].transfer.key, transfers[0].tx)] else [])
      + KeysCarried(transfers[1..], assets)
  }

  lemma {:induction false} KeysOfBlock(transfers: seq<Carried>, log: seq<Transfer>, assets: set<Asset>)
    requires AllSent(log, transfers)
    ensures KeysCarried(transfers, assets) == KeysOfTxs(TxsOf(transfers), LedgerOf(log), assets)
  {
    if transfers != [] {
      var rest := transfers[1..];
      assert forall i :: 0 <= i < |rest| ==> rest[i] == transfers[i + 1];
      KeysOfBlock(rest, log, assets);
      assert TxsOf(transfers)[1..] == TxsOf(rest);
      var x := transfers[0].tx;
      assert WasSent(log, transfers[0]);
      assert LedgerOf(log)[x] == [transfers[0].transfer];
      assert [transfers[0].transfer][1..] == [];
      assert KeysOfTransfers([], x, assets) == [];
    }
  }

  lemma {:induction false} InFlat(blocks: seq<Made>, h: nat, c: Carried)
    requires h < |blocks| && c in blocks[h].transfers
    ensures c in Flat(blocks)
  {
    if h < |blocks| - 1 {
      InFlat(blocks[..|blocks| - 1], h, c);
    }
  }

  lemma SentOne(log: seq<Transfer>, all: seq<Carried>, c: Carried)
    requires AllSent(log, all) && c in all
    ensures WasSent(log, c)
  {
  }

  lemma BlockSent(log: seq<Transfer>, blocks: seq<Made>, staged: seq<Carried>, h: nat)
    requires AllSent(log, Flat(blocks) + staged) && h < |blocks|
    ensures AllSent(log, blocks[h].transfers)
  {
    hide Flat, WasSent;
    forall i | 0 <= i < |blocks[h].transfers| ensures WasSent(log, blocks[h].transfers[i]) {
      InFlat(blocks, h, blocks[h].transfers[i]);
      assert blocks[h].transfers[i] in Flat(blocks) + staged;
      SentOne(log, Flat(blocks) + staged, blocks[h].transfers[i]);
    }
  }

  lemma {:induction false} KeepingBoth(a: seq<Carried>, b: seq<Carried>, keep: set<Tx>)
    ensures Keeping(a + b, keep) == Keeping(a, keep) + Keeping(b, keep)
  {
    if b == [] {
      assert a + b == a;
    } else {
      KeepingBoth(a, b[..|b| - 1], keep);
      assert (a + b)[..|a + b| - 1] == a + b[..|b| - 1];
    }
  }

  lemma KeptSent(log: seq<Transfer>, below: seq<Carried>, dropped: seq<Carried>, staged: seq<Carried>, keep: set<Tx>)
    requires AllSent(log, below + dropped + staged)
    ensures AllSent(log, below + Keeping(dropped, keep) + staged)
  {
    var all, kept := below + dropped + staged, below + Keeping(dropped, keep) + staged;
    KeepingIsPart(dropped, keep);
    forall i | 0 <= i < |kept| ensures WasSent(log, kept[i]) {
      assert kept[i] in all;
      var k :| 0 <= k < |all| && all[k] == kept[i];
    }
  }

  // ---- what is assumed of a chain holds of this one

  /** A key is sent once. */
  predicate KeysOnce(log: seq<Transfer>) { forall i, j :: 0 <= i < j < |log| ==> log[i].key != log[j].key }

  lemma {:induction false} OneBlock(blocks: seq<Made>, h: nat, g: nat, x: Tx)
    requires NoTxTwice(Flat(blocks)) && h < |blocks| && g < |blocks|
    requires x in TxsOf(blocks[h].transfers) && x in TxsOf(blocks[g].transfers)
    ensures h == g
  {
    var n := |blocks| - 1;
    var front := blocks[..n];
    TwoParts(Flat(front), blocks[n].transfers);
    var i :| 0 <= i < |blocks[h].transfers| && blocks[h].transfers[i].tx == x;
    var j :| 0 <= j < |blocks[g].transfers| && blocks[g].transfers[j].tx == x;
    if h < n && g < n {
      OneBlock(front, h, g, x);
    } else {
      if h < n {
        InFlat(front, h, blocks[h].transfers[i]);
      }
      if g < n {
        InFlat(front, g, blocks[g].transfers[j]);
      }
    }
  }

  /** As long as no key is sent twice, the chain is what the protocol takes a chain to be. */
  lemma SimulationIsAChain(s: Simulation)
    requires s.Valid() && KeysOnce(s.log)
    ensures ValidLedger(LedgerOf(s.log)) && ValidChain(s.View(), LedgerOf(s.log))
  {
    var c, ledger := s.View(), LedgerOf(s.log);
    TwoParts(Flat(s.blocks), s.staged);
    forall h: nat, x | On(c, h, x) ensures x in ledger {
      BlockSent(s.log, s.blocks, s.staged, h);
      var i :| 0 <= i < |s.blocks[h].transfers| && s.blocks[h].transfers[i].tx == x;
      assert WasSent(s.log, s.blocks[h].transfers[i]);
    }
    forall h: nat, g: nat, x | On(c, h, x) && On(c, g, x) ensures h == g {
      OneBlock(s.blocks, h, g, x);
    }
    forall x, y, k | x in ledger && y in ledger && Spends(ledger, x, k) && Spends(ledger, y, k) ensures x == y {
      assert s.log[x - 1].key == k && s.log[y - 1].key == k;
    }
  }
}
