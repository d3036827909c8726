/** Loaded payments, attempts and refunds as objects that move, and the requests that load, move and save them. */
module Service {
  import opened Basics
  import opened Lifecycle
  import opened Records
  import opened Tables
  import opened Store
  import opened Chains
  import opened Protocol

  /** A payment as it was loaded, and as its moves leave it. */
  class LoadedPayment {
    const asset: Asset
    const amount: nat
    const destination: Address
    const expiresAt: Time
    const version: nat
    var status: Status
    var received: Option<nat>

    function Value(): Payment
      reads this
    {
      Payment(asset, amount, destination, expiresAt, status, received, version)
    }

    constructor (p: Payment)
      ensures Value() == p
    {
      asset, amount, destination, expiresAt, version := p.asset, p.amount, p.destination, p.expiresAt, p.version;
      status, received := p.status, p.received;
    }

    /** A refused move leaves the payment as it was. */
    method MoveTo(want: Status) returns (ok: bool)
      modifies this`status
      ensures ok == old(Value()).MoveTo(want).Some?
      ensures Value() == if ok then old(Value()).MoveTo(want).value else old(Value())
    {
      if !CanBecome(status, want) {
        return false;
      }
      status := want;
      return true;
    }

    method Receive(m: nat) returns (ok: bool)
      modifies this`received
      ensures ok == old(Value()).Receive(m).Some?
      ensures Value() == if ok then old(Value()).Receive(m).value else old(Value())
    {
      if !CanReceive(status) || received.Some? {
        return false;
      }
      received := Some(m);
      return true;
    }

    method Unreceive() returns (ok: bool)
      modifies this`received
      ensures ok == old(Value()).Unreceive().Some?
      ensures Value() == if ok then old(Value()).Unreceive().value else old(Value())
    {
      if !CanReceive(status) || received.None? {
        return false;
      }
      received := None;
      return true;
    }

    /** The move is checked before the money. */
    method Succeed() returns (ok: bool)
      modifies this`status
      ensures ok == old(Value()).Succeed().Some?
      ensures Value() == if ok then old(Value()).Succeed().value else old(Value())
    {
      if !CanBecome(status, Succeeded) || received.None? || received.value < amount {
        return false;
      }
      ok := MoveTo(Succeeded);
    }

    method AwaitFinality(now: Time) returns (ok: bool)
      modifies this`status
      ensures ok == old(Value()).AwaitFinality(now).Some?
      ensures Value() == if ok then old(Value()).AwaitFinality(now).value else old(Value())
    {
      if now < expiresAt {
        return false;
      }
      ok := MoveTo(AwaitingFinality);
    }
  }

  /** An attempt as it was loaded. */
  class LoadedAttempt {
    const payment: PaymentId
    const scheme: Scheme
    const key: Key
    const validBefore: Time
    const revision: nat
    var status: AttemptStatus
    var authorizer: Option<Address>

    function Value(): Attempt
      reads this
    {
      Attempt(payment, scheme, key, validBefore, status, authorizer, revision)
    }

    constructor (a: Attempt)
      ensures Value() == a
    {
      payment, scheme, key, validBefore, revision := a.payment, a.scheme, a.key, a.validBefore, a.revision;
      status, authorizer := a.status, a.authorizer;
    }

    method Confirm(signer: Option<Address>) returns (ok: bool)
      modifies this`status, this`authorizer
      ensures ok == old(Value()).Confirm(signer).Some?
      ensures Value() == if ok then old(Value()).Confirm(signer).value else old(Value())
    {
      if status != Issued || signer.None? {
        return false;
      }
      status, authorizer := Confirming, signer;
      return true;
    }

    method Unconfirm() returns (ok: bool)
      modifies this`status, this`authorizer
      ensures ok == old(Value()).Unconfirm().Some?
      ensures Value() == if ok then old(Value()).Unconfirm().value else old(Value())
    {
      if status != Confirming {
        return false;
      }
      status, authorizer := Issued, None;
      return true;
    }

    method Supersede() returns (ok: bool)
      modifies this`status
      ensures ok == old(Value()).Supersede().Some?
      ensures Value() == if ok then old(Value()).Supersede().value else old(Value())
    {
      if status != Issued {
        return false;
      }
      status := Superseded;
      return true;
    }
  }

  /** A refund as it was loaded. */
  class LoadedRefund {
    const read: Refund
    var status: RefundStatus

    function Value(): Refund
      reads this
    {
      read.(status := status)
    }

    constructor (r: Refund)
      ensures Value() == r && read == r
    {
      read, status := r, r.status;
    }

    method MoveTo(want: RefundStatus) returns (ok: bool)
      modifies this`status
      ensures ok == old(Value()).MoveTo(want).Some?
      ensures Value() == if ok then old(Value()).MoveTo(want).value else old(Value())
    {
      if want !in RefundMoves(status) {
        return false;
      }
      status := want;
      return true;
    }
  }

  datatype Answer = Done | NotFound | NotAwaiting | AttemptLive | NoPosition | TooLate | Reissued | NotRetired | Stale | Refused

  /** An identifier or a key somebody already has. */
  predicate Taken(db: Rows, a: AttemptId, key: Key) {
    a in db.attempts || exists b :: b in db.attempts && db.attempts[b].key == key
  }

  // ---- the protocol's calls, each run to its end with nothing in between

  /** A world in which nothing is under way. */
  function Alone(db: Rows): World { World(Chain([], 0), {}, db, map[], {}, {}, map[], 0, []) }

  /** A call's next statements, up to a number of them or its end. */
  ghost function Onward(w: World, now: Time, id: AttemptId, key: Key, most: nat): World
    decreases most
  {
    if most == 0 || 0 !in w.calls then w else Onward(DoProceed(w, 0, now, id, key), now, id, key, most - 1)
  }

  ghost function RunIssue(w: World, p: PaymentId, now: Time, id: AttemptId, key: Key): World
    requires Payable(w.db, p)
  {
    Onward(Went(w, 0, IssueFound(p, w.db.payments[p].expiresAt)), now, id, key, 3)
  }

  ghost function RunSupersede(w: World, p: PaymentId, a: AttemptId): World
    requires Payable(w.db, p)
  {
    Onward(Went(w, 0, SupersedeFound(p, a)), 0, 0, 0, 3)
  }

  lemma IssueRuns(db: Rows, p: PaymentId, now: Time, id: AttemptId, key: Key)
    requires Payable(db, p)
    ensures var made := NewAttempt(p, db.payments[p].expiresAt, now, key);
            var v := RunIssue(Alone(db), p, now, id, key);
            && v.calls == map[]
            && v.db == if !HasLive(db, p) && db.cursor.Some? && made.Some? && IssueAttempt(db, id, made.value).Some?
                       then IssueAttempt(db, id, made.value).value else db
  {
    hide HasLive, IssueAttempt, NewAttempt;
    var e := db.payments[p].expiresAt;
    var found := Went(Alone(db), 0, IssueFound(p, e));
    var free := DoProceed(found, 0, now, id, key);
    assert RunIssue(Alone(db), p, now, id, key) == Onward(free, now, id, key, 2);
    if 0 in free.calls {
      var watched := DoProceed(free, 0, now, id, key);
      assert Onward(free, now, id, key, 2) == Onward(watched, now, id, key, 1);
      if 0 in watched.calls {
        var issued := DoProceed(watched, 0, now, id, key);
        assert Onward(watched, now, id, key, 1) == Onward(issued, now, id, key, 0);
        assert issued.calls == map[];
      } else {
        assert watched.calls == map[];
      }
    } else {
      assert free.calls == map[];
    }
  }

  lemma SupersedeRuns(db: Rows, p: PaymentId, a: AttemptId)
    requires Payable(db, p)
    ensures var v := RunSupersede(Alone(db), p, a);
            && v.calls == map[]
            && v.db ==
               if a in AttemptsOf(db, p) && db.attempts[a].status == Issued && |AttemptsOf(db, p)| < MAX_ATTEMPTS
               then db.(attempts := db.attempts[a := Bumped(db.attempts[a].(status := Superseded))]) else db
  {
    var found := Went(Alone(db), 0, SupersedeFound(p, a));
    var live := DoProceed(found, 0, 0, 0, 0);
    assert RunSupersede(Alone(db), p, a) == Onward(live, 0, 0, 0, 2);
    if 0 in live.calls {
      var counted := DoProceed(live, 0, 0, 0, 0);
      assert Onward(live, 0, 0, 0, 2) == Onward(counted, 0, 0, 0, 1);
      if 0 in counted.calls {
        var saved := DoProceed(counted, 0, 0, 0, 0);
        assert Onward(counted, 0, 0, 0, 1) == Onward(saved, 0, 0, 0, 0);
        assert saved.calls == map[];
      } else {
        assert counted.calls == map[];
      }
    } else {
      assert live.calls == map[];
    }
  }

  /** The requests, each a run of statements, here with nothing between them. */
  class Service {
    const store: Store

    constructor (store: Store)
      ensures this.store == store
    {
      this.store := store;
    }

    /** A payment is made payable, and the merchant told, or nothing happens. */
    method Await(id: PaymentId) returns (answer: Answer)
      modifies store
      ensures answer.NotFound? <==> id !in old(store.payments)
      ensures answer.Refused? <==> id in old(store.payments) && old(store.payments)[id].status != Created
      ensures answer.Done? || answer.NotFound? || answer.Refused?
      ensures answer.Done? ==>
                SavePayment(old(store.Value()), id, old(store.payments)[id].(status := AwaitingPayment), old(store.payments)[id].version)
                == Some(store.Value())
      ensures !answer.Done? ==> store.Value() == old(store.Value())
    {
      if id !in store.payments {
        return NotFound;
      }
      var p := new LoadedPayment(store.payments[id]);
      var ok := p.MoveTo(AwaitingPayment);
      if !ok {
        return Refused;
      }
      ok := store.Save(id, p.Value(), p.version);
      return Done;
    }

    /** What a payment is doing is answered before what its attempts are, and that before the chain. */
    method Issue(id: PaymentId, now: Time, a: AttemptId, key: Key) returns (answer: Answer)
      modifies store
      ensures answer.NotFound? <==> id !in old(store.payments)
      ensures answer.NotAwaiting? <==> id in old(store.payments) && old(store.payments)[id].status != AwaitingPayment
      ensures answer.AttemptLive? <==> Payable(old(store.Value()), id) && HasLive(old(store.Value()), id)
      ensures answer.NoPosition? <==>
                Payable(old(store.Value()), id) && !HasLive(old(store.Value()), id) && old(store.cursor).None?
      ensures answer.TooLate? <==>
                && Payable(old(store.Value()), id) && !HasLive(old(store.Value()), id) && old(store.cursor).Some?
                && old(store.payments)[id].expiresAt - now < MIN_REMAINING
      ensures answer.Done? || answer.Refused? <==>
                && Payable(old(store.Value()), id) && !HasLive(old(store.Value()), id) && old(store.cursor).Some?
                && old(store.payments)[id].expiresAt - now >= MIN_REMAINING
      ensures answer.Refused? ==> Taken(old(store.Value()), a, key)
      ensures answer.Done? ==> !Taken(old(store.Value()), a, key) && NewAttempt(id, old(store.payments)[id].expiresAt, now, key).Some?
      ensures answer.Done? ==>
                store.Value() == old(store.Value()).(attempts :=
                  old(store.attempts)[a := NewAttempt(id, old(store.payments)[id].expiresAt, now, key).value])
      ensures !answer.Done? ==> store.Value() == old(store.Value())
      ensures Payable(old(store.Value()), id) ==>
                store.Value() == RunIssue(Alone(old(store.Value())), id, now, a, key).db
    {
      if id !in store.payments {
        return NotFound;
      }
      var p := store.payments[id];
      if p.status == AwaitingPayment {
        IssueRuns(store.Value(), id, now, a, key);
      }
      hide RunIssue, Onward;
      if p.status != AwaitingPayment {
        return NotAwaiting;
      }
      if HasLive(store.Value(), id) {
        return AttemptLive;
      }
      if store.cursor.None? {
        return NoPosition;
      }
      var made := NewAttempt(id, p.expiresAt, now, key);
      if made.None? {
        return TooLate;
      }
      var ok := store.Issue(a, made.value);
      return if ok then Done else Refused;
    }

    /** The live attempt of a payment is retired, once, at the word of whoever names it. */
    method Supersede(id: PaymentId, a: AttemptId) returns (answer: Answer)
      modifies store
      ensures answer.Done? <==>
                && Payable(old(store.Value()), id)
                && a in AttemptsOf(old(store.Value()), id) && old(store.attempts)[a].status == Issued
                && |AttemptsOf(old(store.Value()), id)| < MAX_ATTEMPTS
      ensures answer.Done? ==>
                store.Value() == old(store.Value()).(attempts :=
                  old(store.attempts)[a := Bumped(old(store.attempts)[a].(status := Superseded))])
      ensures !answer.Done? ==> store.Value() == old(store.Value())
      ensures Payable(old(store.Value()), id) ==>
                store.Value() == RunSupersede(Alone(old(store.Value())), id, a).db
    {
      if id !in store.payments {
        return NotFound;
      }
      if store.payments[id].status != AwaitingPayment {
        return NotAwaiting;
      }
      SupersedeRuns(store.Value(), id, a);
      hide RunSupersede, Onward;
      if a !in AttemptsOf(store.Value(), id) || !Live(store.attempts[a].status) {
        return NotFound;
      }
      if |AttemptsOf(store.Value(), id)| >= MAX_ATTEMPTS {
        return Reissued;
      }
      var live := new LoadedAttempt(store.attempts[a]);
      var ok := live.Supersede();
      if !ok {
        return NotRetired;
      }
      ok := store.SaveOne(a, live.Value(), live.revision);
      return Done;
    }
  }
}
