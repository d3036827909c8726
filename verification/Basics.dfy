/** The words every other module is written in. */
module Basics {

  datatype Option<+T> = None | Some(value: T)

  /** Identifiers, keys, accounts and hashes are opaque: they are compared and nothing else. */
  type PaymentId = nat
  type AttemptId = nat
  type RefundId = nat
  type Key = nat
  type Tx = nat
  type Hash = nat
  type Address = nat
  type Asset = nat

  /** A moment in microseconds, which is what a timestamptz column keeps. */
  type Time = int

  const SECOND: int := 1_000_000
  const MINUTE: int := 60 * SECOND

  /** A moment truncated to the second. */
  function ToSecond(t: Time): (s: Time)
    ensures s <= t < s + SECOND && s % SECOND == 0
  {
    t - t % SECOND
  }
}
