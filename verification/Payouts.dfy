/** A refund's money never goes out twice. */
module Payouts {
  import opened Basics
  import opened Lifecycle
  import opened Records
  import opened Evidence
  import opened Tables
  import opened Chains
  import opened Protocol
  import opened Consistency
  import opened Reachable
  import opened Ceiling
  import opened Index
  import opened IndexAgrees
  import opened Settlement
  import opened Outcomes

  /** One transfer of one transaction, by where the transaction carries it. */
  datatype Carried = Carried(tx: Tx, index: nat)

  /** The chain holds a transfer that settles a refund. */
  ghost predicate Settling(env: Env, c: Chain, db: Rows, r: RefundId, o: Carried) {
    && o.tx in env.ledger && o.index < |env.ledger[o.tx]|
    && exists h :: On(c, h, o.tx) && SettlesIn(env, c, db, r, h, o.tx, env.ledger[o.tx][o.index])
  }

  ghost predicate SentBack(env: Env, c: Chain, db: Rows, p: PaymentId, o: Carried) {
    exists r :: r in db.refunds && db.refunds[r].payment == p && Settling(env, c, db, r, o)
  }

  /** Every transfer on the chain that the rules match to a refund of a payment. */
  ghost function Outgoing(env: Env, c: Chain, db: Rows, p: PaymentId): set<Carried> {
    set x, i | x in env.ledger && 0 <= i < |env.ledger[x]| && SentBack(env, c, db, p, Carried(x, i)) :: Carried(x, i)
  }

  function ValueOf(ledger: Ledger, o: Carried): nat {
    if o.tx in ledger && o.index < |ledger[o.tx]| && ledger[o.tx][o.index].value.Some?
    then ledger[o.tx][o.index].value.value else 0
  }

  ghost function Total(ledger: Ledger, outs: set<Carried>): nat {
    if outs == {} then 0
    else
      var o :| o in outs;
      ValueOf(ledger, o) + Total(ledger, outs - {o})
  }

  /** A refund's key is spent once, so one transfer settles it. */
  lemma SettledOnce(env: Env, c: Chain, db: Rows, r: RefundId, o: Carried, q: Carried)
    requires ValidLedger(env.ledger) && ValidChain(c, env.ledger)
    requires Settling(env, c, db, r, o) && Settling(env, c, db, r, q)
    ensures o == q
  {
    var k := db.refunds[r].key;
    assert Spends(env.ledger, o.tx, k) && Spends(env.ledger, q.tx, k);
    assert o.tx == q.tx;
    assert !(o.index < q.index) && !(q.index < o.index);
  }

  lemma SettledInFull(env: Env, c: Chain, db: Rows, r: RefundId, o: Carried)
    requires Settling(env, c, db, r, o)
    ensures r in db.refunds && ValueOf(env.ledger, o) == db.refunds[r].amount
  {
  }

  /** Transfers that settle different refunds carry no more than those refunds amount to. */
  lemma {:induction false} TotalAtMost(env: Env, c: Chain, db: Rows, outs: set<Carried>, ids: set<RefundId>)
    requires ValidLedger(env.ledger) && ValidChain(c, env.ledger) && ids <= db.refunds.Keys
    requires forall o :: o in outs ==> exists r :: r in ids && Settling(env, c, db, r, o)
    ensures Total(env.ledger, outs) <= Sum(db.refunds, ids)
    decreases |outs|
  {
    hide Settling, ValidLedger, ValidChain;
    if outs != {} {
      var o :| o in outs && Total(env.ledger, outs) == ValueOf(env.ledger, o) + Total(env.ledger, outs - {o});
      var r :| r in ids && Settling(env, c, db, r, o);
      forall q | q in outs - {o} ensures exists s :: s in ids - {r} && Settling(env, c, db, s, q) {
        var s :| s in ids && Settling(env, c, db, s, q);
        if s == r {
          SettledOnce(env, c, db, r, o, q);
        }
      }
      TotalAtMost(env, c, db, outs - {o}, ids - {r});
      SettledInFull(env, c, db, r, o);
      SumTakes(db.refunds, ids, r);
    }
  }

  /** What settled a refund was sent, so the refund did not expire and still holds its amount. */
  lemma SentIsHeld(env: Env, w: World, p: PaymentId, o: Carried)
    requires ReturnsTrue(env, w) && SentBack(env, w.chain, w.db, p, o)
    ensures exists r :: r in Holding(w.db, p) && Settling(env, w.chain, w.db, r, o)
  {
    var r :| r in w.db.refunds && w.db.refunds[r].payment == p && Settling(env, w.chain, w.db, r, o);
    var h :| On(w.chain, h, o.tx) && SettlesIn(env, w.chain, w.db, r, h, o.tx, env.ledger[o.tx][o.index]);
    assert r in Holding(w.db, p);
  }

  /**
   Over every run in which one observer reads at a time and nothing on the final
   chain is given up on: everything the chain ever sent back for a payment, as
   the rules match it to the payment's refunds, sums to at most what it received.
   */
  lemma PayoutTheorem(env: Env, ws: seq<World>, ss: seq<Step>, i: nat, p: PaymentId)
    requires Run(env, ws, ss) && LoneRun(ws, ss) && TruthfulRun(ws, ss) && i < |ws|
    ensures Total(env.ledger, Outgoing(env, ws[i].chain, ws[i].db, p)) <= Arrived(ws[i].db, p)
  {
    hide Next, Lone, Truthful, NeverSent, NeverPaid, ReturnsTrue, Held, UnderCeiling;
    var w := ws[i];
    ExpiryRun(env, ws, ss, i);
    IndexedRun(env, ws, ss, i);
    CeilingTheorem(env, ws, ss, i, p);
    hide Run, LoneRun, TruthfulRun, SentBack, Settling, Holding, RowsTrue, RowsWhole, RoundsTrue;
    forall o | o in Outgoing(env, w.chain, w.db, p)
      ensures exists r :: r in Holding(w.db, p) && Settling(env, w.chain, w.db, r, o)
    {
      SentIsHeld(env, w, p, o);
    }
    HoldingIsOf(w.db, p);
    TotalAtMost(env, w.chain, w.db, Outgoing(env, w.chain, w.db, p), Holding(w.db, p));
  }

  lemma HoldingIsOf(db: Rows, p: PaymentId)
    ensures Holding(db, p) <= db.refunds.Keys && Held(db, p) == Sum(db.refunds, Holding(db, p))
  {
  }

  /** An expired refund was settled by no block there is. */
  lemma ExpiredRefundTheorem(env: Env, ws: seq<World>, ss: seq<Step>, i: nat, r: RefundId, h: nat, x: Tx, t: Transfer)
    requires Run(env, ws, ss) && LoneRun(ws, ss) && TruthfulRun(ws, ss) && i < |ws|
    requires r in ws[i].db.refunds && ws[i].db.refunds[r].status == RefundExpired
    ensures !SettlesIn(env, ws[i].chain, ws[i].db, r, h, x, t)
  {
    hide Next, Lone, Truthful;
    ExpiryRun(env, ws, ss, i);
    assert NeverSent(env, ws[i].chain, ws[i].db, r);
  }
}
