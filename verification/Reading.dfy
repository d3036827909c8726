/** What one round of an observer makes of what it reads. */
module Reading {
  import opened Basics
  import opened Lifecycle
  import opened Records
  import opened Evidence
  import opened Tables
  import opened Chains

  /** An attempt a key belongs to, with the payment it is against, as both were read. */
  datatype Hit = Hit(attempt: AttemptId, read: Attempt, payment: PaymentId, payer: Payment)

  /** A refund a key belongs to, with the payment it sends back, as both were read. */
  datatype Back = Back(refund: RefundId, read: Refund, payment: PaymentId, payer: Payment)

  ghost predicate HoldsAttempt(db: Rows, a: AttemptId, k: Key) {
    a in db.attempts && db.attempts[a].key == k && db.attempts[a].payment in db.payments
  }

  ghost predicate HoldsRefund(db: Rows, r: RefundId, k: Key) {
    r in db.refunds && db.refunds[r].key == k && db.refunds[r].payment in db.payments
  }

  ghost predicate AttemptKey(db: Rows, k: Key) { exists a :: HoldsAttempt(db, a, k) }

  ghost predicate RefundKey(db: Rows, k: Key) { exists r :: HoldsRefund(db, r, k) }

  /** A key some attempt or some refund was issued under. */
  ghost predicate IssuedKey(db: Rows, k: Key) { AttemptKey(db, k) || RefundKey(db, k) }

  ghost function HitFor(db: Rows, k: Key): (h: Hit)
    requires AttemptKey(db, k)
    ensures HoldsAttempt(db, h.attempt, k) && h.read == db.attempts[h.attempt]
    ensures h.payment == h.read.payment && h.payer == db.payments[h.payment]
  {
    var a :| HoldsAttempt(db, a, k);
    Hit(a, db.attempts[a], db.attempts[a].payment, db.payments[db.attempts[a].payment])
  }

  ghost function BackFor(db: Rows, k: Key): (b: Back)
    requires RefundKey(db, k)
    ensures HoldsRefund(db, b.refund, k) && b.read == db.refunds[b.refund]
    ensures b.payment == b.read.payment && b.payer == db.payments[b.payment]
  {
    var r :| HoldsRefund(db, r, k);
    Back(r, db.refunds[r], db.refunds[r].payment, db.payments[db.refunds[r].payment])
  }

  function SpentKeys(consumed: seq<Consumed>): set<Key> { set i | 0 <= i < |consumed| :: consumed[i].key }

  /** The attempts the keys belong to. A key an attempt and a refund both hold is nobody's. */
  ghost function Against(db: Rows, consumed: seq<Consumed>): map<Key, Hit> {
    map k | k in SpentKeys(consumed) && AttemptKey(db, k) && !RefundKey(db, k) :: HitFor(db, k)
  }

  ghost function Backs(db: Rows, consumed: seq<Consumed>): map<Key, Back> {
    map k | k in SpentKeys(consumed) && RefundKey(db, k) && !AttemptKey(db, k) :: BackFor(db, k)
  }

  /** The transactions worth a receipt: one to a key somebody here holds, each once, in the order the scan found them. */
  function TransactionsAfter(consumed: seq<Consumed>, held: set<Key>, spent: set<Key>, read: set<Tx>): seq<Tx> {
    if consumed == [] then []
    else
      var one, rest := consumed[0], consumed[1..];
      if one.key !in held || one.key in spent then TransactionsAfter(rest, held, spent, read)
      else if one.tx in read then TransactionsAfter(rest, held, spent + {one.key}, read)
      else [one.tx] + TransactionsAfter(rest, held, spent + {one.key}, read + {one.tx})
  }

  function Transactions(consumed: seq<Consumed>, held: set<Key>): seq<Tx> {
    TransactionsAfter(consumed, held, {}, {})
  }

  function SeenOf(t: Transfer, x: Tx, at: Place, against: map<Key, Hit>): Option<Seen> {
    if t.key !in against then None
    else
      var hit := against[t.key];
      match Judge(t, at.time, hit.read, hit.payer)
      case None => None
      case Some(reason) => Some(Seen(hit.attempt, hit.read, hit.payment, x, at, t, reason))
  }

  function SentOf(t: Transfer, x: Tx, at: Place, against: map<Key, Hit>, back: map<Key, Back>): Option<Sent> {
    if t.key in against || t.key !in back then None
    else
      var hit := back[t.key];
      match JudgeRefund(t, at.time, hit.read, hit.payer)
      case None => None
      case Some(reason) => Some(Sent(hit.refund, hit.payment, x, at, t, reason))
  }

  function Optional<T>(o: Option<T>): seq<T> { if o.Some? then [o.value] else [] }

  /** What a receipt holds against the attempts, in the order it carries it. */
  function SeenIn(ts: seq<Transfer>, x: Tx, at: Place, against: map<Key, Hit>): seq<Seen> {
    if ts == [] then []
    else SeenIn(ts[..|ts| - 1], x, at, against) + Optional(SeenOf(ts[|ts| - 1], x, at, against))
  }

  function SentIn(ts: seq<Transfer>, x: Tx, at: Place, against: map<Key, Hit>, back: map<Key, Back>): seq<Sent> {
    if ts == [] then []
    else SentIn(ts[..|ts| - 1], x, at, against, back) + Optional(SentOf(ts[|ts| - 1], x, at, against, back))
  }

  lemma {:induction false} SeenInExact(ts: seq<Transfer>, x: Tx, at: Place, against: map<Key, Hit>, s: Seen)
    ensures s in SeenIn(ts, x, at, against) <==> exists t :: t in ts && SeenOf(t, x, at, against) == Some(s)
  {
    if ts != [] {
      var front, last := ts[..|ts| - 1], ts[|ts| - 1];
      SeenInExact(front, x, at, against, s);
      assert ts == front + [last];
    }
  }

  lemma {:induction false} SentInExact(ts: seq<Transfer>, x: Tx, at: Place, against: map<Key, Hit>, back: map<Key, Back>, s: Sent)
    ensures s in SentIn(ts, x, at, against, back) <==> exists t :: t in ts && SentOf(t, x, at, against, back) == Some(s)
  {
    if ts != [] {
      var front, last := ts[..|ts| - 1], ts[|ts| - 1];
      SentInExact(front, x, at, against, back, s);
      assert ts == front + [last];
    }
  }

  /** A transaction is read only for a key somebody here holds, and never twice. */
  lemma {:induction false} TransactionsSound(consumed: seq<Consumed>, held: set<Key>, spent: set<Key>, read: set<Tx>)
    ensures var xs := TransactionsAfter(consumed, held, spent, read);
            && (forall x :: x in xs ==> x !in read && exists c :: c in consumed && c.tx == x && c.key in held)
            && (forall i, j :: 0 <= i < j < |xs| ==> xs[i] != xs[j])
  {
    if consumed != [] {
      var one, rest := consumed[0], consumed[1..];
      TransactionsSound(rest, held, spent, read);
      TransactionsSound(rest, held, spent + {one.key}, read);
      TransactionsSound(rest, held, spent + {one.key}, read + {one.tx});
      assert consumed == [one] + rest;
    }
  }

  /** Where the scan names one transaction to a key, every transaction that spent a key held here is read. */
  lemma {:induction false} TransactionsComplete(consumed: seq<Consumed>, held: set<Key>, spent: set<Key>, read: set<Tx>, c: Consumed)
    requires c in consumed && c.key in held && c.key !in spent
    requires forall d :: d in consumed && d.key == c.key ==> d.tx == c.tx
    ensures c.tx in TransactionsAfter(consumed, held, spent, read) || c.tx in read
  {
    var one, rest := consumed[0], consumed[1..];
    assert consumed == [one] + rest;
    if one.key in held && one.key !in spent {
      if one.key != c.key {
        if one.tx in read {
          TransactionsComplete(rest, held, spent + {one.key}, read, c);
        } else {
          TransactionsComplete(rest, held, spent + {one.key}, read + {one.tx}, c);
        }
      }
    } else {
      TransactionsComplete(rest, held, spent, read, c);
    }
  }

  /** A scan's first transaction of a key that is held, and of one not spent already. */
  ghost predicate FirstOfKey(consumed: seq<Consumed>, held: set<Key>, spent: set<Key>, i: nat, x: Tx) {
    && i < |consumed| && consumed[i].tx == x && consumed[i].key in held && consumed[i].key !in spent
    && forall j :: 0 <= j < i ==> consumed[j].key != consumed[i].key
  }

  lemma FirstOfRest(consumed: seq<Consumed>, held: set<Key>, spent: set<Key>, more: set<Key>, x: Tx)
    requires consumed != [] && more == (if consumed[0].key in held then spent + {consumed[0].key} else spent)
    ensures (exists i: nat :: FirstOfKey(consumed, held, spent, i, x)) <==>
              FirstOfKey(consumed, held, spent, 0, x) || exists i: nat :: FirstOfKey(consumed[1..], held, more, i, x)
  {
    var rest := consumed[1..];
    if i: nat :| FirstOfKey(consumed, held, spent, i, x) {
      if i > 0 {
        assert rest[i - 1] == consumed[i];
        assert forall j :: 0 <= j < i - 1 ==> rest[j] == consumed[j + 1];
        assert FirstOfKey(rest, held, more, i - 1, x);
      }
    }
    if i: nat :| FirstOfKey(rest, held, more, i, x) {
      assert rest[i] == consumed[i + 1];
      forall j | 0 <= j < i + 1 ensures consumed[j].key != consumed[i + 1].key {
        assert j > 0 ==> consumed[j] == rest[j - 1];
      }
      assert FirstOfKey(consumed, held, spent, i + 1, x);
    }
  }

  /**
   Exactly which transactions of a scan are read: those that come first in it with
   some key held here. A later one of the same key is passed over unless it comes
   first with another.
   */
  lemma {:induction false} ReadExactly(consumed: seq<Consumed>, held: set<Key>, spent: set<Key>, read: set<Tx>, x: Tx)
    ensures x in TransactionsAfter(consumed, held, spent, read) <==>
              x !in read && exists i: nat :: FirstOfKey(consumed, held, spent, i, x)
  {
    if consumed != [] {
      var one, rest := consumed[0], consumed[1..];
      var more := if one.key in held then spent + {one.key} else spent;
      FirstOfRest(consumed, held, spent, more, x);
      assert one.key in spent ==> spent + {one.key} == spent;
      ReadExactly(rest, held, more, read, x);
      ReadExactly(rest, held, more, read + {one.tx}, x);
    }
  }
}
