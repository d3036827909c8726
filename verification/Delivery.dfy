/** When a delivery is tried, and which deliveries one reading of the queue takes. */
module Delivery {
  import opened Basics

  datatype State = Pending | Delivered | Failed

  /** A delivery to one endpoint, of an event about one payment or about none. */
  datatype Delivery = Delivery(
    endpoint: nat,
    payment: Option<nat>,
    event: nat,
    state: State,
    attempts: nat,
    nextAt: Option<Time>)

  // ---- the schedule

  const SCHEDULE: seq<int> := [
    0, 5 * SECOND, 5 * MINUTE, 30 * MINUTE, 120 * MINUTE, 300 * MINUTE, 600 * MINUTE, 840 * MINUTE, 1200 * MINUTE, 1440 * MINUTE]

  const MAX_ATTEMPTS: nat := 10

  /** When a delivery is tried again, with a share of the wait added that is drawn for it. */
  function NextAttempt(failed: nat, now: Time, jitter: int): Option<Time> {
    if failed < 1 || failed >= |SCHEDULE| then None else Some(now + SCHEDULE[failed] + jitter)
  }

  /** What one attempt leaves a delivery as. */
  function Attempted(d: Delivery, delivered: bool, now: Time, jitter: int): Delivery {
    var attempts := d.attempts + 1;
    if delivered then d.(state := Delivered, attempts := attempts, nextAt := None)
    else
      match NextAttempt(attempts, now, jitter)
      case Some(again) => d.(state := Pending, attempts := attempts, nextAt := Some(again))
      case None => d.(state := Failed, attempts := attempts, nextAt := None)
  }

  /** Put back on its way, delivered or failed, with its attempts going on from where they were. */
  function Resent(d: Delivery, now: Time): Option<Delivery> {
    if d.state == Pending then None else Some(d.(state := Pending, nextAt := Some(now)))
  }

  /** What a delivery is after being tried over and over without success. */
  function TriedInVain(d: Delivery, tries: seq<(Time, int)>): Delivery {
    if tries == [] then d
    else Attempted(TriedInVain(d, tries[..|tries| - 1]), false, tries[|tries| - 1].0, tries[|tries| - 1].1)
  }

  /** A delivery refused every time is pending through nine attempts and failed by the tenth. */
  lemma {:induction false} FailsAtLast(d: Delivery, tries: seq<(Time, int)>)
    requires d.state == Pending && d.attempts == 0 && 0 < |tries| <= MAX_ATTEMPTS
    ensures var after := TriedInVain(d, tries);
            && after.attempts == |tries|
            && after.state == (if |tries| < MAX_ATTEMPTS then Pending else Failed)
            && (after.nextAt.Some? <==> after.state == Pending)
            && (after.state == Pending ==>
                  after.nextAt.value == tries[|tries| - 1].0 + SCHEDULE[|tries|] + tries[|tries| - 1].1)
  {
    if |tries| > 1 {
      FailsAtLast(d, tries[..|tries| - 1]);
    }
  }

  predicate DueBy(d: Delivery, now: Time) { d.nextAt.Some? && d.nextAt.value <= now }

  /** A try comes no earlier than the one before left it due, and the share added to that wait is not negative. */
  predicate ComesAfter(d: Delivery, tries: seq<(Time, int)>, k: nat)
    requires 0 < k < |tries|
  {
    tries[k - 1].1 >= 0 && DueBy(TriedInVain(d, tries[..k]), tries[k].0)
  }

  /** The waits there are between the first attempt and a later one. */
  function WaitedBy(k: nat): int
    requires k < |SCHEDULE|
  {
    if k == 0 then 0 else WaitedBy(k - 1) + SCHEDULE[k]
  }

  lemma {:induction false} TriedSince(d: Delivery, tries: seq<(Time, int)>, k: nat)
    requires d.state == Pending && d.attempts == 0 && |tries| <= MAX_ATTEMPTS && k < |tries|
    requires forall j :: 0 < j < |tries| ==> ComesAfter(d, tries, j)
    ensures tries[k].0 - tries[0].0 >= WaitedBy(k)
  {
    if k > 0 {
      TriedSince(d, tries, k - 1);
      FailsAtLast(d, tries[..k]);
      assert ComesAfter(d, tries, k);
    }
  }

  /** A delivery refused every time is tried over more than three days: 75 hours, 35 minutes and 5 seconds at the least. */
  lemma TriedForDays(d: Delivery, tries: seq<(Time, int)>)
    requires d.state == Pending && d.attempts == 0 && |tries| == MAX_ATTEMPTS
    requires forall j :: 0 < j < |tries| ==> ComesAfter(d, tries, j)
    ensures tries[9].0 - tries[0].0 >= (75 * 60 + 35) * MINUTE + 5 * SECOND
  {
    TriedSince(d, tries, 9);
    assert WaitedBy(4) == 155 * MINUTE + 5 * SECOND;
    assert WaitedBy(8) == WaitedBy(4) + 2940 * MINUTE;
  }

  /** Resent after its last attempt, a delivery is tried once more, and a refusal fails it again. */
  lemma ResentOnce(d: Delivery, now: Time, at: Time, jitter: int)
    requires d.state == Failed && d.attempts >= MAX_ATTEMPTS
    ensures Resent(d, now).Some? && Resent(d, now).value.state == Pending
    ensures Attempted(Resent(d, now).value, false, at, jitter).state == Failed
    ensures Attempted(Resent(d, now).value, true, at, jitter).state == Delivered
  {
  }

  // ---- what one reading takes

  datatype Endpoint = Endpoint(account: Option<nat>, events: Option<set<nat>>, enabled: bool, deleted: bool)

  type Deliveries = map<nat, Delivery>

  predicate Reachable(endpoints: map<nat, Endpoint>, e: nat) {
    e in endpoints && endpoints[e].enabled && !endpoints[e].deleted
  }

  /** Two deliveries one of which waits for the other: to one endpoint, about the same payment or both about none. */
  predicate SameLine(a: Delivery, b: Delivery) { a.endpoint == b.endpoint && a.payment == b.payment }

  predicate Waits(deliveries: Deliveries, s: nat) {
    s in deliveries && exists p :: p in deliveries && p < s && deliveries[p].state == Pending && SameLine(deliveries[p], deliveries[s])
  }

  /** A delivery whose time has come: nothing earlier in its line is still pending. */
  predicate Eligible(deliveries: Deliveries, endpoints: map<nat, Endpoint>, now: Time, s: nat) {
    && s in deliveries && deliveries[s].state == Pending
    && deliveries[s].nextAt.Some? && deliveries[s].nextAt.value <= now
    && Reachable(endpoints, deliveries[s].endpoint)
    && !Waits(deliveries, s)
  }

  /** The order deliveries are read in. */
  predicate Sooner(deliveries: Deliveries, a: nat, b: nat)
    requires a in deliveries && b in deliveries && deliveries[a].nextAt.Some? && deliveries[b].nextAt.Some?
  {
    || deliveries[a].nextAt.value < deliveries[b].nextAt.value
    || (deliveries[a].nextAt.value == deliveries[b].nextAt.value && a < b)
  }

  function EligibleSet(deliveries: Deliveries, endpoints: map<nat, Endpoint>, now: Time): (all: set<nat>)
    ensures forall s :: s in all <==> Eligible(deliveries, endpoints, now, s)
  {
    set s | s in deliveries && Eligible(deliveries, endpoints, now, s)
  }

  /** The eligible deliveries to one's endpoint that are read before it. */
  function Ahead(deliveries: Deliveries, endpoints: map<nat, Endpoint>, now: Time, s: nat): set<nat>
    requires Eligible(deliveries, endpoints, now, s)
  {
    set p | p in EligibleSet(deliveries, endpoints, now)
            && deliveries[p].endpoint == deliveries[s].endpoint && Sooner(deliveries, p, s)
  }

  /** Within the first of its endpoint, as many as the bound on one endpoint. */
  predicate WithinCap(deliveries: Deliveries, endpoints: map<nat, Endpoint>, now: Time, cap: nat, s: nat) {
    Eligible(deliveries, endpoints, now, s) && |Ahead(deliveries, endpoints, now, s)| < cap
  }

  /** One reading: the deliveries within their endpoint's bound, soonest first, as many as the bound on the round. */
  ghost predicate IsDueRead(deliveries: Deliveries, endpoints: map<nat, Endpoint>, now: Time, limit: nat, cap: nat, due: seq<nat>) {
    && |due| <= limit
    && (forall i :: 0 <= i < |due| ==> WithinCap(deliveries, endpoints, now, cap, due[i]))
    && (forall i, j :: 0 <= i < j < |due| ==> Sooner(deliveries, due[i], due[j]))
    && (forall s :: WithinCap(deliveries, endpoints, now, cap, s) && s !in due ==>
          |due| == limit && forall i :: 0 <= i < |due| ==> Sooner(deliveries, due[i], s))
  }

  function To(deliveries: Deliveries, due: seq<nat>, e: nat): set<nat> {
    set s | s in due && s in deliveries && deliveries[s].endpoint == e
  }

  lemma {:induction false} Latest(deliveries: Deliveries, all: set<nat>) returns (last: nat)
    requires all != {} && forall s :: s in all ==> s in deliveries && deliveries[s].nextAt.Some?
    ensures last in all && forall s :: s in all && s != last ==> Sooner(deliveries, s, last)
    decreases |all|
  {
    var s :| s in all;
    if all == {s} {
      last := s;
    } else {
      var best := Latest(deliveries, all - {s});
      last := if Sooner(deliveries, best, s) then s else best;
      forall p | p in all && p != last ensures Sooner(deliveries, p, last) {
        assert p == s || p in all - {s};
      }
    }
  }

  lemma {:induction false} Soonest(deliveries: Deliveries, all: set<nat>) returns (first: nat)
    requires all != {} && forall s :: s in all ==> s in deliveries && deliveries[s].nextAt.Some?
    ensures first in all && forall s :: s in all && s != first ==> Sooner(deliveries, first, s)
    decreases |all|
  {
    var s :| s in all;
    if all == {s} {
      first := s;
    } else {
      var best := Soonest(deliveries, all - {s});
      first := if Sooner(deliveries, s, best) then s else best;
      forall p | p in all && p != first ensures Sooner(deliveries, first, p) {
        assert p == s || p in all - {s};
      }
    }
  }

  lemma Fewer(a: set<nat>, b: set<nat>)
    requires a <= b
    ensures |a| <= |b|
  {
    assert b == a + (b - a);
  }

  /** No endpoint gets more than its bound: the last of its own has all the others ahead of it. */
  lemma CapHolds(deliveries: Deliveries, endpoints: map<nat, Endpoint>, now: Time, limit: nat, cap: nat, due: seq<nat>, e: nat)
    requires IsDueRead(deliveries, endpoints, now, limit, cap, due)
    ensures |To(deliveries, due, e)| <= cap
  {
    var mine := To(deliveries, due, e);
    forall s | s in mine ensures WithinCap(deliveries, endpoints, now, cap, s) {
      var i :| 0 <= i < |due| && due[i] == s;
    }
    if mine != {} {
      var last := Latest(deliveries, mine);
      assert forall s :: s in mine - {last} ==> s in Ahead(deliveries, endpoints, now, last);
      Fewer(mine - {last}, Ahead(deliveries, endpoints, now, last));
    }
  }

  /** A reading shorter than its bound leaves out no endpoint with something due. */
  lemma NobodyIsLeftOut(deliveries: Deliveries, endpoints: map<nat, Endpoint>, now: Time, limit: nat, cap: nat, due: seq<nat>, s: nat)
    requires IsDueRead(deliveries, endpoints, now, limit, cap, due)
    requires |due| < limit && cap >= 1 && Eligible(deliveries, endpoints, now, s)
    ensures To(deliveries, due, deliveries[s].endpoint) != {}
  {
    var e := deliveries[s].endpoint;
    var mine := set p | p in EligibleSet(deliveries, endpoints, now) && deliveries[p].endpoint == e;
    assert s in mine;
    var first := Soonest(deliveries, mine);
    assert forall p :: p in mine && p != first ==> !Sooner(deliveries, p, first);
    assert Ahead(deliveries, endpoints, now, first) == {};
    assert WithinCap(deliveries, endpoints, now, cap, first);
    assert first in To(deliveries, due, e);
  }

  /** Of one line only the first that is pending is eligible. */
  lemma HeadOfLine(deliveries: Deliveries, endpoints: map<nat, Endpoint>, now: Time, a: nat, b: nat)
    requires Eligible(deliveries, endpoints, now, a) && Eligible(deliveries, endpoints, now, b)
    requires SameLine(deliveries[a], deliveries[b])
    ensures a == b
  {
    assert a < b ==> Waits(deliveries, b);
    assert b < a ==> Waits(deliveries, a);
  }

  /** No two deliveries of one line are read together. */
  lemma OneOfALine(deliveries: Deliveries, endpoints: map<nat, Endpoint>, now: Time, limit: nat, cap: nat, due: seq<nat>, i: nat, j: nat)
    requires IsDueRead(deliveries, endpoints, now, limit, cap, due)
    requires i < |due| && j < |due| && due[i] in deliveries && due[j] in deliveries
    requires SameLine(deliveries[due[i]], deliveries[due[j]])
    ensures i == j
  {
    assert WithinCap(deliveries, endpoints, now, cap, due[i]) && WithinCap(deliveries, endpoints, now, cap, due[j]);
    HeadOfLine(deliveries, endpoints, now, due[i], due[j]);
  }

  // ---- what is read, told without the bounds

  /** The pending deliveries to one endpoint that are past their time. */
  function PastTime(deliveries: Deliveries, now: Time, e: nat): set<nat> {
    set p | p in deliveries && deliveries[p].endpoint == e && deliveries[p].state == Pending
            && deliveries[p].nextAt.Some? && deliveries[p].nextAt.value <= now
  }

  /** Past its time, to an endpoint that is enabled and not deleted, with nothing made before it for that about the same still pending. */
  predicate IsTimely(deliveries: Deliveries, endpoints: map<nat, Endpoint>, now: Time, n: nat) {
    && n in deliveries && n in PastTime(deliveries, now, deliveries[n].endpoint) && deliveries[n].endpoint in endpoints
    && endpoints[deliveries[n].endpoint].enabled && !endpoints[deliveries[n].endpoint].deleted
    && forall p :: p in deliveries && p < n && deliveries[p].state == Pending ==>
         deliveries[p].endpoint != deliveries[n].endpoint || deliveries[p].payment != deliveries[n].payment
  }

  /** Timely, and its endpoint has no more past their time than one reading gives it. */
  predicate IsTimelyWithin(deliveries: Deliveries, endpoints: map<nat, Endpoint>, now: Time, cap: nat, n: nat) {
    IsTimely(deliveries, endpoints, now, n) && |PastTime(deliveries, now, deliveries[n].endpoint)| <= cap
  }

  lemma ReadIsTimely(deliveries: Deliveries, endpoints: map<nat, Endpoint>, now: Time, limit: nat, cap: nat, due: seq<nat>, n: nat)
    requires IsDueRead(deliveries, endpoints, now, limit, cap, due) && n in due
    ensures IsTimely(deliveries, endpoints, now, n)
  {
    assert WithinCap(deliveries, endpoints, now, cap, n);
    assert !Waits(deliveries, n);
  }

  lemma TimelyIsRead(deliveries: Deliveries, endpoints: map<nat, Endpoint>, now: Time, limit: nat, cap: nat, due: seq<nat>, n: nat)
    requires IsDueRead(deliveries, endpoints, now, limit, cap, due) && |due| < limit
    requires IsTimelyWithin(deliveries, endpoints, now, cap, n)
    ensures n in due
  {
    var all := PastTime(deliveries, now, deliveries[n].endpoint);
    assert Eligible(deliveries, endpoints, now, n);
    var ahead := Ahead(deliveries, endpoints, now, n);
    assert forall p :: p in ahead ==> p in all - {n};
    Fewer(ahead, all - {n});
    assert WithinCap(deliveries, endpoints, now, cap, n);
  }

  /**
   Everything read is timely; and where a reading is shorter than its bound, what is
   timely is read, if its endpoint has no more than fit.
   */
  lemma DueIsTimely(deliveries: Deliveries, endpoints: map<nat, Endpoint>, now: Time, limit: nat, cap: nat, due: seq<nat>)
    requires IsDueRead(deliveries, endpoints, now, limit, cap, due)
    ensures forall n :: n in due ==> IsTimely(deliveries, endpoints, now, n)
    ensures |due| < limit ==> forall n :: IsTimelyWithin(deliveries, endpoints, now, cap, n) ==> n in due
  {
    hide IsDueRead, IsTimely, IsTimelyWithin;
    forall n | n in due ensures IsTimely(deliveries, endpoints, now, n) {
      ReadIsTimely(deliveries, endpoints, now, limit, cap, due, n);
    }
    if |due| < limit {
      forall n | IsTimelyWithin(deliveries, endpoints, now, cap, n) ensures n in due {
        TimelyIsRead(deliveries, endpoints, now, limit, cap, due, n);
      }
    }
  }
}
