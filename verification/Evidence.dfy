/** The rules a transfer a chain carried is judged by. */
module Evidence {
  import opened Basics
  import opened Lifecycle
  import opened Records

  /**
   A transfer as a transaction carries it. The value is what Money.ParseMoney
   reads of the digits the chain wrote, None where it reads nothing; authorizer
   is None where the account that signed is not one an attempt can hold; and
   storable says whether a row can hold every field of it.
   */
  datatype Transfer = Transfer(
    scheme: Scheme,
    asset: Asset,
    key: Key,
    authorizer: Option<Address>,
    from: Address,
    to: Address,
    value: Option<nat>,
    storable: bool)

  /** The block a transfer was seen in. */
  datatype Place = Place(height: nat, hash: Hash, time: Time)

  datatype Reason = Matched | WrongAsset | WrongTo | Short | Late | Vanished | WrongFrom | Over

  /** What a transfer is worth against one attempt at one payment, and None where the key is not the attempt's. */
  function Judge(t: Transfer, time: Time, a: Attempt, p: Payment): Option<Reason> {
    if t.key != a.key || t.scheme != a.scheme then None
    else if t.asset != p.asset then Some(WrongAsset)
    else if t.to != p.destination then Some(WrongTo)
    else if t.value.None? || t.value.value < p.amount then Some(Short)
    else if !(time < a.validBefore) then Some(Late)
    else if !p.Open() then Some(Late)
    else Some(Matched)
  }

  /** What a transfer is worth against one refund of one payment. */
  function JudgeRefund(t: Transfer, time: Time, r: Refund, p: Payment): Option<Reason> {
    if t.key != r.key || t.scheme != r.scheme then None
    else if t.asset != p.asset then Some(WrongAsset)
    else if t.to != r.destination then Some(WrongTo)
    else if t.from != p.destination then Some(WrongFrom)
    else if t.value.None? || t.value.value < r.amount then Some(Short)
    else if t.value.value > r.amount then Some(Over)
    else if !(time < r.expiresAt) then Some(Late)
    else Some(Matched)
  }

  /**
   What a transfer says about a payment whichever block it lands in and whatever
   the payment has become: the rules that read the transfer alone.
   */
  function Worth(t: Transfer, p: Payment): (r: Reason)
    ensures r != Late && r != Vanished
  {
    if t.asset != p.asset then WrongAsset
    else if t.to != p.destination then WrongTo
    else if t.value.None? || t.value.value < p.amount then Short
    else Matched
  }

  /** A transfer that would pay a payment through one of its attempts, were the payment open. */
  predicate Pays(t: Transfer, time: Time, a: Attempt, p: Payment) {
    t.key == a.key && t.scheme == a.scheme && Worth(t, p) == Matched && time < a.validBefore
  }

  /** A verdict that still fits the transfer, for a payment that may have moved on since it was given. */
  predicate Fits(reason: Reason, t: Transfer, time: Time, a: Attempt, p: Payment) {
    match reason
    case Matched => Worth(t, p) == Matched && time < a.validBefore
    case Late => Worth(t, p) == Matched && (time >= a.validBefore || !p.Open())
    case _ => reason == Worth(t, p)
  }

  /**
   Matched is given to exactly the transfers that would pay an open payment, and
   every verdict fits the transfer it was given for.
   */
  lemma JudgeMeaning(t: Transfer, time: Time, a: Attempt, p: Payment)
    ensures Judge(t, time, a, p) == Some(Matched) <==> Pays(t, time, a, p) && p.Open()
    ensures Pays(t, time, a, p) <==>
              && t.key == a.key && t.scheme == a.scheme && t.asset == p.asset && t.to == p.destination
              && t.value.Some? && t.value.value >= p.amount && time < a.validBefore
    ensures Judge(t, time, a, p) == Some(Short) <==>
              && t.key == a.key && t.scheme == a.scheme && t.asset == p.asset && t.to == p.destination
              && (t.value.Some? ==> t.value.value < p.amount)
    ensures Judge(t, time, a, p).Some? <==> t.key == a.key && t.scheme == a.scheme
    ensures Judge(t, time, a, p).Some? ==> Fits(Judge(t, time, a, p).value, t, time, a, p)
    ensures Judge(t, time, a, p) != Some(Vanished)
  {
  }

  /** A refund is settled by exactly its own amount, out of the payment's wallet, to where it goes, in time. */
  lemma JudgeRefundMeaning(t: Transfer, time: Time, r: Refund, p: Payment)
    ensures JudgeRefund(t, time, r, p) == Some(Matched) <==>
            && t.key == r.key && t.scheme == r.scheme && t.asset == p.asset
            && t.from == p.destination && t.to == r.destination
            && t.value == Some(r.amount) && time < r.expiresAt
    ensures JudgeRefund(t, time, r, p) != Some(Vanished)
  {
  }
}
