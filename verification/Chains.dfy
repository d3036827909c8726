/**
 The chain a network is read through: blocks, a final one nothing at or below
 which is replaced, and what its transactions carry.
 */
module Chains {
  import opened Basics
  import opened Evidence

  /** What every transaction carries, whichever block it lands in. */
  type Ledger = map<Tx, seq<Transfer>>

  datatype Block = Block(hash: Hash, time: Time, txs: seq<Tx>)

  /** The blocks by height, and the height nothing at or below which is replaced. */
  datatype Chain = Chain(blocks: seq<Block>, final: nat)

  predicate On(c: Chain, h: nat, x: Tx) { h < |c.blocks| && x in c.blocks[h].txs }

  predicate Carries(ledger: Ledger, x: Tx, t: Transfer) { x in ledger && t in ledger[x] }

  predicate Spends(ledger: Ledger, x: Tx, k: Key) {
    x in ledger && exists i :: 0 <= i < |ledger[x]| && ledger[x][i].key == k
  }

  predicate PlacedAt(c: Chain, p: Place) {
    p.height < |c.blocks| && c.blocks[p.height].hash == p.hash && c.blocks[p.height].time == p.time
  }

  function PlaceAt(c: Chain, h: nat): (p: Place)
    requires h < |c.blocks|
    ensures PlacedAt(c, p) && p.height == h
  {
    Place(h, c.blocks[h].hash, c.blocks[h].time)
  }

  /** A transaction spends a key in one of its transfers only. */
  ghost predicate ValidLedger(ledger: Ledger) {
    forall x, i, j :: x in ledger && 0 <= i < j < |ledger[x]| ==> ledger[x][i].key != ledger[x][j].key
  }

  /**
   What is assumed of the one true chain: the moments of its blocks never go
   back, a transaction is in one block, and a key is spent once.
   */
  ghost predicate ValidChain(c: Chain, ledger: Ledger) {
    && c.final < |c.blocks|
    && (forall h, g :: 0 <= h <= g < |c.blocks| ==> c.blocks[h].time <= c.blocks[g].time)
    && (forall h, x :: On(c, h, x) ==> x in ledger)
    && (forall h, g, x :: On(c, h, x) && On(c, g, x) ==> h == g)
    && (forall h, g, x, y, k :: On(c, h, x) && On(c, g, y) && Spends(ledger, x, k) && Spends(ledger, y, k) ==> x == y)
  }

  /** A block put on top. */
  function Mined(c: Chain, b: Block): Chain { c.(blocks := c.blocks + [b]) }

  /** The blocks from a height upwards dropped, and one put in their place. */
  function Reorged(c: Chain, from: nat, b: Block): Chain
    requires from <= |c.blocks|
  {
    c.(blocks := c.blocks[..from] + [b])
  }

  /** Two moments of one chain: what was final stays where it was. */
  ghost predicate Follows(c: Chain, d: Chain) {
    && c.final < |c.blocks|
    && c.final <= d.final < |d.blocks|
    && (forall h :: 0 <= h <= c.final ==> d.blocks[h] == c.blocks[h])
  }

  /** A key a watched asset consumed, and the transaction that consumed it. */
  datatype Consumed = Consumed(key: Key, tx: Tx)

  function KeysOfTransfers(ts: seq<Transfer>, x: Tx, watched: set<Asset>): seq<Consumed> {
    if ts == [] then []
    else
      (if ts[0].asset in watched then [Consumed(ts[0].key, x)] else []) + KeysOfTransfers(ts[1..], x, watched)
  }

  function KeysOfTxs(xs: seq<Tx>, ledger: Ledger, watched: set<Asset>): seq<Consumed> {
    if xs == [] then []
    else
      (if xs[0] in ledger then KeysOfTransfers(ledger[xs[0]], xs[0], watched) else [])
      + KeysOfTxs(xs[1..], ledger, watched)
  }

  /** The keys the watched assets consumed in a span of blocks, in the order the blocks carry them. */
  function KeysIn(c: Chain, first: nat, last: nat, ledger: Ledger, watched: set<Asset>): seq<Consumed>
    decreases last + 1 - first
  {
    if first > last || first >= |c.blocks| then []
    else KeysOfTxs(c.blocks[first].txs, ledger, watched) + KeysIn(c, first + 1, last, ledger, watched)
  }

  /** The height of the block a transaction is in, at or above one, and None where no block holds it. */
  function FindFrom(c: Chain, h: nat, x: Tx): (r: Option<nat>)
    ensures r.Some? ==> h <= r.value && On(c, r.value, x)
    ensures r.None? ==> forall g :: g >= h ==> !On(c, g, x)
    decreases |c.blocks| - h
  {
    if h >= |c.blocks| then None
    else if x in c.blocks[h].txs then Some(h)
    else FindFrom(c, h + 1, x)
  }

  /** Where a transaction is. */
  function Find(c: Chain, x: Tx): (r: Option<Place>)
    ensures r.Some? ==> PlacedAt(c, r.value) && On(c, r.value.height, x)
    ensures r.None? ==> forall g :: !On(c, g, x)
  {
    match FindFrom(c, 0, x)
    case None => None
    case Some(h) => Some(PlaceAt(c, h))
  }

  /** A scan finds exactly the watched transfers of its blocks. */
  predicate Consumes(ledger: Ledger, watched: set<Asset>, x: Tx, k: Key) {
    x in ledger && exists i :: 0 <= i < |ledger[x]| && ledger[x][i].key == k && ledger[x][i].asset in watched
  }

  lemma {:induction false} KeysOfTransfersExact(ts: seq<Transfer>, x: Tx, watched: set<Asset>, k: Key, y: Tx)
    ensures Consumed(k, y) in KeysOfTransfers(ts, x, watched)
            <==> y == x && exists i :: 0 <= i < |ts| && ts[i].key == k && ts[i].asset in watched
  {
    if ts != [] {
      KeysOfTransfersExact(ts[1..], x, watched, k, y);
      if i :| 0 <= i < |ts| && ts[i].key == k && ts[i].asset in watched {
        if i > 0 {
          assert ts[1..][i - 1] == ts[i];
        }
      }
    }
  }

  lemma {:induction false} KeysOfTxsExact(xs: seq<Tx>, ledger: Ledger, watched: set<Asset>, k: Key, x: Tx)
    ensures Consumed(k, x) in KeysOfTxs(xs, ledger, watched) <==> x in xs && Consumes(ledger, watched, x, k)
  {
    if xs != [] {
      KeysOfTxsExact(xs[1..], ledger, watched, k, x);
      if xs[0] in ledger {
        KeysOfTransfersExact(ledger[xs[0]], xs[0], watched, k, x);
      }
      assert xs == [xs[0]] + xs[1..];
    }
  }

  lemma {:induction false} KeysInExact(c: Chain, first: nat, last: nat, ledger: Ledger, watched: set<Asset>, k: Key, x: Tx)
    ensures Consumed(k, x) in KeysIn(c, first, last, ledger, watched)
            <==> Consumes(ledger, watched, x, k) && exists h :: first <= h <= last && On(c, h, x)
    decreases last + 1 - first
  {
    if first <= last && first < |c.blocks| {
      KeysOfTxsExact(c.blocks[first].txs, ledger, watched, k, x);
      KeysInExact(c, first + 1, last, ledger, watched, k, x);
      if Consumes(ledger, watched, x, k) && exists h :: first <= h <= last && On(c, h, x) {
        var h :| first <= h <= last && On(c, h, x);
        assert h == first || first + 1 <= h;
      }
      if Consumed(k, x) in KeysOfTxs(c.blocks[first].txs, ledger, watched) {
        assert On(c, first, x);
      }
    }
  }
}
