/** The loops of a round over what a scan found and what a receipt carries. */
module Reader {
  import opened Basics
  import opened Evidence
  import opened Records
  import opened Tables
  import opened Chains
  import opened Reading

  /** The transactions worth a receipt, one to a key and each once, in the order they were found. */
  method WorthReading(consumed: seq<Consumed>, held: set<Key>) returns (out: seq<Tx>)
    ensures out == Transactions(consumed, held)
  {
    var spent: set<Key> := {};
    var read: set<Tx> := {};
    out := [];
    for i := 0 to |consumed|
      invariant Transactions(consumed, held) == out + TransactionsAfter(consumed[i..], held, spent, read)
    {
      var one := consumed[i];
      assert consumed[i..][0] == one && consumed[i..][1..] == consumed[i + 1..];
      if one.key !in held || one.key in spent {
        continue;
      }
      spent := spent + {one.key};
      if one.tx in read {
        continue;
      }
      read := read + {one.tx};
      Onward(out, one.tx, TransactionsAfter(consumed[i + 1..], held, spent, read));
      out := out + [one.tx];
    }
  }

  lemma Onward(out: seq<Tx>, x: Tx, rest: seq<Tx>)
    ensures out + ([x] + rest) == (out + [x]) + rest
  {
  }

  /** What one receipt holds against the attempts and the refunds looked for. */
  method Receive(ts: seq<Transfer>, x: Tx, at: Place, against: map<Key, Hit>, back: map<Key, Back>)
    returns (seen: seq<Seen>, sent: seq<Sent>)
    ensures seen == SeenIn(ts, x, at, against) && sent == SentIn(ts, x, at, against, back)
  {
    seen, sent := [], [];
    for i := 0 to |ts|
      invariant seen == SeenIn(ts[..i], x, at, against) && sent == SentIn(ts[..i], x, at, against, back)
    {
      var t := ts[i];
      assert ts[..i + 1][..i] == ts[..i];
      if t.key in against {
        var hit := against[t.key];
        var reason := Judge(t, at.time, hit.read, hit.payer);
        if reason.Some? {
          seen := seen + [Seen(hit.attempt, hit.read, hit.payment, x, at, t, reason.value)];
        }
      } else if t.key in back {
        var hit := back[t.key];
        var reason := JudgeRefund(t, at.time, hit.read, hit.payer);
        if reason.Some? {
          sent := sent + [Sent(hit.refund, hit.payment, x, at, t, reason.value)];
        }
      }
    }
    assert ts[..|ts|] == ts;
  }
}
