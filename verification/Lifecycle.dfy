/**
 The lifecycles of a payment, an attempt and a refund, and what a history along
 the payment's lifecycle graph looks like.
 */
module Lifecycle {

  datatype Status = Created | AwaitingPayment | AwaitingFinality | Succeeded | Failed | Expired

  /** Every move a payment may make. */
  function Moves(s: Status): set<Status> {
    match s
    case Created => {AwaitingPayment}
    case AwaitingPayment => {Succeeded, Failed, AwaitingFinality}
    case AwaitingFinality => {Succeeded, Expired}
    case _ => {}
  }

  predicate CanBecome(s: Status, want: Status) { want in Moves(s) }

  predicate Final(s: Status) { Moves(s) == {} }

  /** Whether money can still land on a payment. */
  predicate CanReceive(s: Status) { s == AwaitingPayment || s == AwaitingFinality }

  datatype AttemptStatus = Issued | Confirming | Superseded

  /** The statuses the index attempts_one_live_per_payment is over. */
  predicate Live(s: AttemptStatus) { s != Superseded }

  datatype RefundStatus = RefundCreated | RefundAwaitingFinality | RefundSucceeded | RefundExpired

  function RefundMoves(s: RefundStatus): set<RefundStatus> {
    match s
    case RefundCreated => {RefundSucceeded, RefundAwaitingFinality}
    case RefundAwaitingFinality => {RefundSucceeded, RefundExpired}
    case _ => {}
  }

  predicate RefundFinal(s: RefundStatus) { s == RefundSucceeded || s == RefundExpired }

  /** A history is a path when each status is a move from the one before it. */
  ghost predicate Path(history: seq<Status>) {
    forall i :: 0 < i < |history| ==> CanBecome(history[i - 1], history[i])
  }

  /** How far along the graph a status is: every move goes up. */
  function Rank(s: Status): nat {
    match s
    case Created => 0
    case AwaitingPayment => 1
    case AwaitingFinality => 2
    case _ => 3
  }

  /** Along a path the rank only goes up, so no status is met twice and nothing follows a final one. */
  lemma {:induction false} PathClimbs(history: seq<Status>, i: nat, j: nat)
    requires Path(history) && i < j < |history|
    ensures Rank(history[i]) < Rank(history[j])
    ensures !Final(history[i])
    decreases j
  {
    assert CanBecome(history[j - 1], history[j]);
    if i < j - 1 {
      PathClimbs(history, i, j - 1);
    }
  }
}
