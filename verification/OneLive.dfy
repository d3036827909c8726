/**
 A payment has at most one live attempt and at most two attempts ever, however
 issuing, superseding and reading the chain interleave.
 */
module OneLive {
  import opened Basics
  import opened Lifecycle
  import opened Records
  import opened Tables
  import opened RowFacts
  import opened Protocol
  import opened Consistency
  import opened Reachable

  ghost predicate AtMostOneEach(attempts: map<AttemptId, Attempt>) {
    forall a, b ::
      (&& a in attempts && b in attempts && attempts[a].payment == attempts[b].payment
       && Live(attempts[a].status) == Live(attempts[b].status))
      ==> a == b
  }

  /** Whoever counted one attempt after reading it live may retire it: unless it moved, it is the only one. */
  ghost predicate CountedAlone(attempts: map<AttemptId, Attempt>, c: Call) {
    c.SupersedeCounted? ==>
      && c.read.status == Issued
      && (c.attempt in attempts && attempts[c.attempt].revision == c.read.revision ==>
            forall b :: b in attempts && attempts[b].payment == c.read.payment ==> b == c.attempt)
  }

  ghost predicate AttemptsBounded(w: World) {
    && AtMostOneEach(w.db.attempts)
    && forall c :: c in w.calls ==> CountedAlone(w.db.attempts, w.calls[c])
  }

  ghost predicate CallsCurrent(db: Rows, calls: map<nat, Call>) {
    forall c :: c in calls && calls[c].SupersedeCounted? ==>
      calls[c].attempt in db.attempts && SameAttempt(calls[c].read, db.attempts[calls[c].attempt])
  }

  /** Reading the chain starts and stops no attempt being live. */
  lemma SeenBounded(w: World, d: Rows)
    requires AttemptsBounded(w) && CallsCurrent(w.db, w.calls) && AttemptsSeen(w.db.attempts, d.attempts)
    ensures AttemptsBounded(w.(db := d))
  {
    forall a, b | a in d.attempts && b in d.attempts && d.attempts[a].payment == d.attempts[b].payment
                  && Live(d.attempts[a].status) == Live(d.attempts[b].status)
      ensures a == b
    {
      assert OnlySeen(w.db.attempts[a], d.attempts[a]) && OnlySeen(w.db.attempts[b], d.attempts[b]);
    }
    forall c | c in w.calls ensures CountedAlone(d.attempts, w.calls[c]) {
      var call := w.calls[c];
      if call.SupersedeCounted? && d.attempts[call.attempt].revision == call.read.revision {
        assert CountedAlone(w.db.attempts, call);
        assert OnlySeen(w.db.attempts[call.attempt], d.attempts[call.attempt]);
        forall b | b in d.attempts && d.attempts[b].payment == call.read.payment ensures b == call.attempt {
          assert OnlySeen(w.db.attempts[b], d.attempts[b]);
        }
      }
    }
  }

  lemma NoneLive(db: Rows, p: PaymentId)
    requires !HasLive(db, p)
    ensures forall a :: a in db.attempts && db.attempts[a].payment == p ==> !Live(db.attempts[a].status)
  {
    assert forall a :: a in db.attempts && db.attempts[a].payment == p ==> a in AttemptsOf(db, p);
  }

  /** Nothing is issued while an attempt that was counted alone is as it was read: it is live. */
  lemma IssueBounded(w: World, id: AttemptId, a: Attempt)
    requires AttemptsBounded(w) && CallsCurrent(w.db, w.calls) && Live(a.status)
    requires IssueAttempt(w.db, id, a).Some?
    ensures AttemptsBounded(w.(db := IssueAttempt(w.db, id, a).value))
  {
    var d := IssueAttempt(w.db, id, a).value;
    NoneLive(w.db, a.payment);
    forall x, y | x in d.attempts && y in d.attempts && d.attempts[x].payment == d.attempts[y].payment
                  && Live(d.attempts[x].status) == Live(d.attempts[y].status)
      ensures x == y
    {
      if x != id && y != id {
        assert w.db.attempts[x] == d.attempts[x] && w.db.attempts[y] == d.attempts[y];
      }
    }
    forall c | c in w.calls ensures CountedAlone(d.attempts, w.calls[c]) {
      var call := w.calls[c];
      assert CountedAlone(w.db.attempts, call);
    }
  }

  lemma SupersedeBounded(w: World, c: nat)
    requires AttemptsBounded(w) && CallsCurrent(w.db, w.calls)
    requires c in w.calls && w.calls[c].SupersedeCounted?
    ensures AttemptsBounded(DoSupersede(w, c, w.calls[c].attempt, w.calls[c].read))
  {
    var call := w.calls[c];
    assert CountedAlone(w.db.attempts, call);
    var v := DoSupersede(w, c, call.attempt, call.read);
    if v.db != w.db {
      forall b | b in v.calls ensures CountedAlone(v.db.attempts, v.calls[b]) {
        assert CountedAlone(w.db.attempts, w.calls[b]);
      }
      forall x, y | x in v.db.attempts && y in v.db.attempts && v.db.attempts[x].payment == v.db.attempts[y].payment
                    && Live(v.db.attempts[x].status) == Live(v.db.attempts[y].status)
        ensures x == y
      {
        if v.db.attempts[x].payment == call.read.payment {
          assert x == call.attempt && y == call.attempt;
        } else {
          assert w.db.attempts[x] == v.db.attempts[x] && w.db.attempts[y] == v.db.attempts[y];
        }
      }
    }
  }

  lemma OnlyOne(s: set<AttemptId>, a: AttemptId)
    requires a in s && |s| < 2
    ensures s == {a}
  {
    forall b | b in s ensures b == a {
      if b != a {
        AtLeastTwo(s, a, b);
      }
    }
  }

  lemma AtLeastTwo(s: set<AttemptId>, a: AttemptId, b: AttemptId)
    requires a in s && b in s && a != b
    ensures |s| >= 2
  {
    assert s == {a, b} + (s - {a, b});
    assert |s| == |{a, b}| + |s - {a, b}|;
  }

  lemma CountBounded(w: World, c: nat)
    requires AttemptsBounded(w)
    requires c in w.calls && w.calls[c].SupersedeLive?
    requires w.calls[c].attempt in w.db.attempts && SameAttempt(w.calls[c].read, w.db.attempts[w.calls[c].attempt])
    requires |AttemptsOf(w.db, w.calls[c].read.payment)| < MAX_ATTEMPTS && w.calls[c].read.Supersede().Some?
    ensures AttemptsBounded(Went(w, c, SupersedeCounted(w.calls[c].attempt, w.calls[c].read)))
  {
    var call := w.calls[c];
    OnlyOne(AttemptsOf(w.db, call.read.payment), call.attempt);
    forall b | b in w.db.attempts && w.db.attempts[b].payment == call.read.payment ensures b == call.attempt {
      assert b in AttemptsOf(w.db, call.read.payment);
    }
  }

  /** Calls other than the counted ones say nothing about attempts. */
  lemma CallBounded(w: World, c: nat, next: Call)
    requires AttemptsBounded(w) && !next.SupersedeCounted?
    ensures AttemptsBounded(Went(w, c, next)) && AttemptsBounded(Ended(w, c))
  {
  }

  lemma EndedBounded(w: World, d: Rows, c: nat)
    requires AttemptsBounded(w.(db := d))
    ensures AttemptsBounded(Ended(w.(db := d), c))
  {
  }

  lemma ProceedBounded(env: Env, w: World, c: nat, now: Time, id: AttemptId, key: Key)
    requires c in w.calls && Runs(env, w, w.calls[c], id, key)
    requires AttemptsBounded(w) && CallsCurrent(w.db, w.calls) && CallLinked(w.db, w.calls[c])
    ensures AttemptsBounded(DoProceed(w, c, now, id, key))
  {
    hide Runs, AttemptsBounded;
    var v := DoProceed(w, c, now, id, key);
    match w.calls[c]
    case IssueFound(p, e) => CallBounded(w, c, IssueFree(p, e));
    case IssueFree(p, e) => CallBounded(w, c, IssueWatched(p, e));
    case IssueWatched(p, e) =>
      var a := NewAttempt(p, e, now, key);
      CallBounded(w, c, IssueFree(p, e));
      if a.Some? && IssueAttempt(w.db, id, a.value).Some? {
        IssueBounded(w, id, a.value);
        EndedBounded(w, v.db, c);
      }
    case SupersedeFound(p, a) =>
      CallBounded(w, c, if v.calls.Keys == w.calls.Keys then v.calls[c] else w.calls[c]);
    case SupersedeLive(a, read) =>
      CallBounded(w, c, w.calls[c]);
      if v.calls.Keys == w.calls.Keys {
        CountBounded(w, c);
      }
    case SupersedeCounted(a, read) => SupersedeBounded(w, c);
    case RefundAsked(r, refund) => CallBounded(w, c, if c in v.calls then v.calls[c] else w.calls[c]);
    case RefundLocked(r, refund, received) => CallBounded(w, c, RefundMeasured(r, refund));
    case RefundMeasured(r, refund) => CallBounded(w, c, RefundInserted(r, refund));
    case RefundInserted(r, refund) => RefundBounded(w, c, r, refund);
  }

  lemma RefundBounded(w: World, c: nat, r: RefundId, refund: Refund)
    requires AttemptsBounded(w)
    ensures AttemptsBounded(Ended(w.(db := w.db.(refunds := w.db.refunds[r := refund])), c))
  {
  }

  lemma RequestBounded(env: Env, w: World, m: RequestMove)
    requires RequestMoves(env, w, m) && AttemptsBounded(w)
    requires CallsCurrent(w.db, w.calls) && CallsLinked(w.db, w.calls)
    ensures AttemptsBounded(AfterRequest(env, w, m))
  {
    if m.Proceed? {
      assert CallLinked(w.db, w.calls[m.call]);
      ProceedBounded(env, w, m.call, m.now, m.id, m.key);
    }
  }

  lemma WorkerBounded(w: World, m: WorkerMove)
    requires WorkerMoves(w, m) && AttemptsBounded(w) && CallsCurrent(w.db, w.calls)
    ensures AttemptsBounded(AfterWorker(w, m))
  {
    hide Grounds, RefundGrounds;
    if m.GiveUpOn? {
      LoseKeeps(w.db, {m.ref});
      SeenBounded(w, AfterWorker(w, m).db);
    }
  }

  lemma WriteSeen(w: World, i: nat)
    requires Reads(w, i) && w.rounds[i].work.Receiving? && WorkLinked(w.db, w.rounds[i].work)
    ensures AttemptsSeen(w.db.attempts, DoWrite(w, i).db.attempts) && DoWrite(w, i).calls == w.calls
  {
    var r, work := w.rounds[i], w.rounds[i].work;
    LinkedIsCurrent(w.db, work.seen);
    if Record(w.db, r.first, r.last, r.Settling?, work.seen, work.sent).Some? {
      RecordKeeps(w.db, r.first, r.last, r.Settling?, work.seen, work.sent);
    }
  }

  lemma ObserverBounded(env: Env, w: World, m: ObserverMove)
    requires ObserverMoves(w, m) && AttemptsBounded(w)
    requires CallsCurrent(w.db, w.calls) && RoundsLinked(w.db, w.rounds)
    ensures AttemptsBounded(AfterObserver(env, w, m))
  {
    if m.Write? {
      assert RoundLinked(w.db, w.rounds[m.observer]);
      WriteSeen(w, m.observer);
      SeenBounded(w, AfterObserver(env, w, m).db);
    }
  }

  lemma LinkedCallsCurrent(db: Rows, calls: map<nat, Call>)
    requires CallsLinked(db, calls)
    ensures CallsCurrent(db, calls)
  {
    forall c | c in calls && calls[c].SupersedeCounted?
      ensures calls[c].attempt in db.attempts && SameAttempt(calls[c].read, db.attempts[calls[c].attempt])
    {
      assert CallLinked(db, calls[c]);
    }
  }

  lemma BoundedStep(env: Env, w: World, s: Step, v: World)
    requires Next(env, w, s, v) && Consistent(w) && AttemptsBounded(w)
    ensures AttemptsBounded(v)
  {
    LinkedCallsCurrent(w.db, w.calls);
    hide AfterWorker, AfterRequest, AfterObserver, CallsCurrent, RowsLinked;
    match s
    case ByChain(m) =>
    case ByWorker(m) => WorkerBounded(w, m);
    case ByRequest(m) => RequestBounded(env, w, m);
    case ByObserver(m) => ObserverBounded(env, w, m);
  }

  lemma {:induction false} BoundedRun(env: Env, ws: seq<World>, ss: seq<Step>, i: nat)
    requires Run(env, ws, ss) && i < |ws|
    ensures AttemptsBounded(ws[i])
  {
    if i > 0 {
      hide Next;
      BoundedRun(env, ws, ss, i - 1);
      ConsistentRun(env, ws, ss, i - 1);
      BoundedStep(env, ws[i - 1], ss[i - 1], ws[i]);
    }
  }

  function LiveOf(db: Rows, p: PaymentId): set<AttemptId> {
    set a | a in db.attempts && db.attempts[a].payment == p && Live(db.attempts[a].status)
  }

  lemma AtMostOne(s: set<AttemptId>)
    requires forall a, b :: a in s && b in s ==> a == b
    ensures |s| <= 1
  {
    if s != {} {
      var a :| a in s;
      assert s == {a};
    }
  }

  /** One live and one retired are two at most. */
  lemma CountsBounded(db: Rows, p: PaymentId)
    requires AtMostOneEach(db.attempts)
    ensures |LiveOf(db, p)| <= 1 && |AttemptsOf(db, p)| <= MAX_ATTEMPTS
  {
    var live := LiveOf(db, p);
    var retired := AttemptsOf(db, p) - live;
    AtMostOne(live);
    AtMostOne(retired);
    assert AttemptsOf(db, p) == live + retired;
  }

  /** Over any run: a payment has at most one live attempt, and no more attempts than the first and one reissue. */
  lemma AttemptTheorem(env: Env, ws: seq<World>, ss: seq<Step>, i: nat, p: PaymentId)
    requires Run(env, ws, ss) && i < |ws|
    ensures |LiveOf(ws[i].db, p)| <= 1
    ensures |AttemptsOf(ws[i].db, p)| <= MAX_ATTEMPTS
  {
    hide Next;
    BoundedRun(env, ws, ss, i);
    hide Run, AtMostOneEach, LiveOf, AttemptsOf;
    CountsBounded(ws[i].db, p);
  }
}
