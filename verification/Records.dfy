/**
 A payment, an attempt and a refund as a row holds one, and the moves each may
 make. A move that is refused is None.
 */
module Records {
  import opened Basics
  import opened Lifecycle

  datatype Payment = Payment(
    asset: Asset,
    amount: nat,
    destination: Address,
    expiresAt: Time,
    status: Status,
    received: Option<nat>,
    version: nat)
  {
    predicate Open() { CanReceive(status) }

    /** What arrived is at least what was asked for. */
    predicate Covered() { received.Some? && received.value >= amount }

    function MoveTo(want: Status): Option<Payment> {
      if CanBecome(status, want) then Some(this.(status := want)) else None
    }

    /** What arrived is recorded once, and only while money can land. */
    function Receive(m: nat): Option<Payment> {
      if Open() && received.None? then Some(this.(received := Some(m))) else None
    }

    function Unreceive(): Option<Payment> {
      if Open() && received.Some? then Some(this.(received := None)) else None
    }

    function Succeed(): Option<Payment> {
      if CanBecome(status, Succeeded) && Covered() then MoveTo(Succeeded) else None
    }

    function AwaitFinality(now: Time): Option<Payment> {
      if now < expiresAt then None else MoveTo(AwaitingFinality)
    }
  }

  /** What scheme a transfer is authorised by. One is defined. */
  datatype Scheme = Eip3009 | OtherScheme

  datatype Attempt = Attempt(
    payment: PaymentId,
    scheme: Scheme,
    key: Key,
    validBefore: Time,
    status: AttemptStatus,
    authorizer: Option<Address>,
    revision: nat)
  {
    function Confirm(signer: Option<Address>): Option<Attempt> {
      if status == Issued && signer.Some? then Some(this.(status := Confirming, authorizer := signer)) else None
    }

    function Unconfirm(): Option<Attempt> {
      if status == Confirming then Some(this.(status := Issued, authorizer := None)) else None
    }

    function Supersede(): Option<Attempt> {
      if status == Issued then Some(this.(status := Superseded)) else None
    }
  }

  /** The least a payment may have left before its deadline for an attempt to be issued. */
  const MIN_REMAINING: int := 2 * MINUTE

  /** An attempt at a payment that was read open for payment, under a key minted for it. */
  function NewAttempt(id: PaymentId, expiresAt: Time, now: Time, key: Key): Option<Attempt> {
    if expiresAt - now < MIN_REMAINING then None
    else Some(Attempt(id, Eip3009, key, ToSecond(expiresAt), Issued, None, 1))
  }

  datatype Refund = Refund(
    payment: PaymentId,
    amount: nat,
    destination: Address,
    scheme: Scheme,
    key: Key,
    expiresAt: Time,
    status: RefundStatus,
    version: nat)
  {
    /** Everything but an expired refund holds its amount against what can be refunded. */
    predicate Holds() { status != RefundExpired }

    function MoveTo(want: RefundStatus): Option<Refund> {
      if want in RefundMoves(status) then Some(this.(status := want)) else None
    }
  }

  const REFUND_LIFE: int := 30 * MINUTE

  /** A refund of a payment the chain settled, for an amount that is not zero. */
  function NewRefund(id: PaymentId, p: Payment, amount: nat, destination: Address, key: Key, now: Time)
    : Option<Refund>
  {
    if p.status != Succeeded || amount == 0 then None
    else Some(Refund(id, amount, destination, Eip3009, key, now + REFUND_LIFE, RefundCreated, 1))
  }
}
