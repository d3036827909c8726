/** The delivery queue as tables a worker changes in place, a round at a time. */
module Webhook {
  import opened Basics
  import opened Delivery
  import opened Queue

  const PER_ROUND: nat := 32
  const PER_ENDPOINT: nat := 4
  const EXPAND_PER_ROUND: nat := 100

  /** The oldest of some rows. */
  predicate Oldest(rows: set<nat>, row: nat) { row in rows && forall other :: other in rows ==> row <= other }

  lemma OldestIsThere(rows: set<nat>, row: nat)
    requires Oldest(rows, row)
    ensures row in rows
  {
  }

  /** One row taken with nothing between its statements: locked, its endpoints listed, its deliveries inserted, committed. */
  ghost function Expanded(q: Queue, row: nat, to: seq<nat>, now: Time): Queue
    requires q.expanders == map[] && row in q.outbox && Oldest(q.outbox.Keys, row) && IsReceiving(q.endpoints, q.outbox[row], to)
  {
    var locked := AfterExpansion(q, 0, Lock(row), now);
    var listed := AfterExpansion(locked, 0, List(to), now);
    var inserted := AfterExpansion(listed, 0, Insert, now);
    AfterExpansion(inserted, 0, Commit, now)
  }

  /** What that leaves of each table. */
  lemma ExpandedIs(q: Queue, row: nat, to: seq<nat>, now: Time)
    requires q.expanders == map[] && row in q.outbox && Oldest(q.outbox.Keys, row) && IsReceiving(q.endpoints, q.outbox[row], to)
    ensures Expanded(q, row, to, now) == q.(
              outbox := q.outbox - {row},
              deliveries := q.deliveries + MadeOf(q.outbox[row], to, q.nextNumber, now),
              nextNumber := q.nextNumber + |to|,
              took := q.took[row := Among(to)],
              made := q.made + RecordOf(row, to, q.nextNumber))
  {
    assert Expanded(q, row, to, now).expanders == map[];
  }

  lemma ExpandedOutbox(q: Queue, row: nat, to: seq<nat>, now: Time)
    requires q.expanders == map[] && row in q.outbox && Oldest(q.outbox.Keys, row) && IsReceiving(q.endpoints, q.outbox[row], to)
    ensures Expanded(q, row, to, now).outbox == q.outbox - {row}
    ensures |q.outbox| == |q.outbox - {row}| + 1
  {
    ExpandedIs(q, row, to, now);
    assert q.outbox.Keys == (q.outbox - {row}).Keys + {row};
  }

  ghost predicate ExpandsOne(q: Queue, p: Queue, now: Time) {
    exists row, to ::
      && q.expanders == map[] && row in q.outbox && Oldest(q.outbox.Keys, row) && IsReceiving(q.endpoints, q.outbox[row], to)
      && p == Expanded(q, row, to, now)
  }

  /** Rows taken one after another. */
  ghost predicate Expansions(queues: seq<Queue>, now: Time) {
    forall i :: 0 < i < |queues| ==> ExpandsOne(queues[i - 1], queues[i], now)
  }

  /** Deliveries inserted one after another. */
  function InsertedInto(all: Deliveries, row: Row, to: seq<nat>, first: nat, now: Time): Deliveries {
    if to == [] then all
    else
      var n := |to| - 1;
      InsertedInto(all, row, to[..n], first, now)[first + n := Delivery(to[n], row.payment, row.event, Pending, 0, Some(now))]
  }

  lemma {:induction false} InsertedIs(all: Deliveries, row: Row, to: seq<nat>, first: nat, now: Time)
    ensures InsertedInto(all, row, to, first, now) == all + MadeOf(row, to, first, now)
  {
    if to != [] {
      var n := |to| - 1;
      InsertedIs(all, row, to[..n], first, now);
      var d := Delivery(to[n], row.payment, row.event, Pending, 0, Some(now));
      PutLast(all, MadeOf(row, to[..n], first, now), first + n, d);
    } else {
      assert all + map[] == all;
    }
  }

  lemma PutLast(all: Deliveries, more: Deliveries, n: nat, d: Delivery)
    ensures (all + more)[n := d] == all + more[n := d]
  {
  }

  datatype Resending = PutBack | NotFound | OnItsWay

  /** The share that was drawn for one delivery's wait. */
  function Share(jitter: map<nat, int>, n: nat): int { if n in jitter then jitter[n] else 0 }

  /** What a round leaves of the deliveries there were when it read what was due. */
  function Tried(ready: Deliveries, tried: set<nat>, accepted: set<nat>, now: Time, jitter: map<nat, int>): Deliveries {
    map n | n in ready :: if n in tried then Attempted(ready[n], n in accepted, now, Share(jitter, n)) else ready[n]
  }

  lemma TriedOne(ready: Deliveries, tried: set<nat>, accepted: set<nat>, now: Time, jitter: map<nat, int>, n: nat)
    requires n in ready && n !in tried
    ensures Tried(ready, tried + {n}, accepted, now, jitter)
            == Tried(ready, tried, accepted, now, jitter)[n := Attempted(ready[n], n in accepted, now, Share(jitter, n))]
    ensures n in Tried(ready, tried, accepted, now, jitter) && Tried(ready, tried, accepted, now, jitter)[n] == ready[n]
  {
  }

  /** The sends from one on are each of something that is not left to send, and each of something else. */
  ghost predicate EachSent(was: seq<Sent>, sends: seq<Sent>, due: set<nat>, left: set<nat>) {
    && |sends| == |was| + |due - left| && sends[..|was|] == was
    && (forall i :: |was| <= i < |sends| ==> sends[i].number in due - left)
    && (forall i, j :: |was| <= i < j < |sends| ==> sends[i].number != sends[j].number)
  }

  lemma SentMore(was: seq<Sent>, sends: seq<Sent>, due: set<nat>, left: set<nat>, s: Sent)
    requires EachSent(was, sends, due, left) && left <= due && s.number in left
    ensures EachSent(was, sends + [s], due, left - {s.number})
  {
    assert due - (left - {s.number}) == (due - left) + {s.number};
    assert (sends + [s])[..|was|] == sends[..|was|];
  }

  lemma NoneTried(ready: Deliveries, accepted: set<nat>, now: Time, jitter: map<nat, int>)
    ensures Tried(ready, {}, accepted, now, jitter) == ready
  {
  }

  /** Part of a round's sends have come back: those that are not left. */
  ghost predicate Underway(
    deliveries: Deliveries, sending: Option<seq<nat>>, sends: seq<Sent>, ready: Deliveries, was: seq<Sent>,
    all: set<nat>, left: set<nat>, accepted: set<nat>, now: Time, jitter: map<nat, int>)
  {
    && left <= all && all <= ready.Keys && sending.Some? && (forall n :: n in left ==> n in sending.value)
    && deliveries == Tried(ready, all - left, accepted, now, jitter)
    && EachSent(was, sends, all, left)
  }

  lemma OneBack(
    deliveries: Deliveries, due: seq<nat>, sends: seq<Sent>, ready: Deliveries, was: seq<Sent>,
    all: set<nat>, left: set<nat>, accepted: set<nat>, now: Time, jitter: map<nat, int>, n: nat, s: Sent)
    requires Underway(deliveries, Some(due), sends, ready, was, all, left, accepted, now, jitter) && n in left && s.number == n
    ensures n in deliveries && n in due
    ensures Underway(deliveries[n := Attempted(deliveries[n], n in accepted, now, Share(jitter, n))], Some(Drop(due, n)),
                     sends + [s], ready, was, all, left - {n}, accepted, now, jitter)
  {
    TriedOne(ready, all - left, accepted, now, jitter, n);
    assert all - (left - {n}) == (all - left) + {n};
    DropKeeps(due, n);
    hide EachSent, Tried;
    SentMore(was, sends, all, left, s);
  }

  class Webhooks {
    var outbox: map<nat, Row>
    var nextRow: nat
    var deliveries: Deliveries
    var nextNumber: nat
    var endpoints: map<nat, Endpoint>
    var sending: Option<seq<nat>>
    ghost var took: map<nat, set<nat>>
    ghost var made: map<nat, Made>
    ghost var sends: seq<Sent>

    ghost function Value(): Queue
      reads this
    {
      Queue(outbox, nextRow, deliveries, nextNumber, endpoints, map[], sending, took, made, sends)
    }

    constructor ()
      ensures Initial(Value())
    {
      outbox, nextRow, deliveries, nextNumber, endpoints, sending := map[], 0, map[], 0, map[], None;
      took, made, sends := map[], map[], [];
    }

    method OldestRow() returns (row: nat)
      requires outbox != map[]
      ensures Oldest(outbox.Keys, row)
    {
      var left := outbox.Keys;
      assert left != {} by {
        var one :| one in outbox;
      }
      row :| row in left;
      left := left - {row};
      while left != {}
        invariant left <= outbox.Keys && row in outbox
        invariant forall other :: other in outbox ==> other in left || row <= other
        decreases |left|
      {
        var other :| other in left;
        if other < row {
          row := other;
        }
        left := left - {other};
      }
    }

    /** The endpoints a row goes to, each once. */
    method Receiving(row: Row) returns (to: seq<nat>)
      ensures IsReceiving(endpoints, row, to)
      ensures forall e :: e in to <==>
                && e in endpoints && endpoints[e].enabled && !endpoints[e].deleted
                && endpoints[e].account in {None, Some(row.account)}
                && (endpoints[e].events.Some? ==> row.event in endpoints[e].events.value)
    {
      to := [];
      var left := endpoints.Keys;
      while left != {}
        invariant left <= endpoints.Keys
        invariant forall i, j :: 0 <= i < j < |to| ==> to[i] != to[j]
        invariant forall e :: e in to <==> e in endpoints && e !in left && Receives(endpoints, e, row)
        decreases |left|
      {
        var e :| e in left;
        if Receives(endpoints, e, row) {
          to := to + [e];
        }
        left := left - {e};
      }
    }

    /** The deliveries of one row, numbered one after another. */
    method InsertAll(row: Row, to: seq<nat>, now: Time)
      modifies this`deliveries, this`nextNumber
      ensures deliveries == old(deliveries) + MadeOf(row, to, old(nextNumber), now)
      ensures nextNumber == old(nextNumber) + |to|
    {
      ghost var first := nextNumber;
      for i := 0 to |to|
        invariant nextNumber == first + i
        invariant deliveries == InsertedInto(old(deliveries), row, to[..i], first, now)
      {
        assert to[..i + 1][..i] == to[..i];
        deliveries := deliveries[nextNumber := Delivery(to[i], row.payment, row.event, Pending, 0, Some(now))];
        nextNumber := nextNumber + 1;
      }
      assert to[..|to|] == to;
      InsertedIs(old(deliveries), row, to, first, now);
    }

    /** The deliveries of one row are inserted and the row is removed. */
    method TakeRow(id: nat, receiving: seq<nat>, now: Time)
      requires id in outbox
      modifies this`outbox, this`deliveries, this`nextNumber, this`took, this`made
      ensures outbox == old(outbox) - {id} && nextNumber == old(nextNumber) + |receiving|
      ensures deliveries == old(deliveries) + MadeOf(old(outbox)[id], receiving, old(nextNumber), now)
      ensures took == old(took)[id := Among(receiving)]
      ensures made == old(made) + RecordOf(id, receiving, old(nextNumber))
    {
      made := made + RecordOf(id, receiving, nextNumber);
      took := took[id := Among(receiving)];
      InsertAll(outbox[id], receiving, now);
      outbox := outbox - {id};
    }

    /** The oldest row of the outbox is turned into its deliveries and removed, or there is none. */
    method ExpandOne(now: Time) returns (more: bool, ghost row: nat, ghost to: seq<nat>)
      modifies this`outbox, this`deliveries, this`nextNumber, this`took, this`made
      ensures more <==> old(outbox) != map[]
      ensures !more ==> Value() == old(Value())
      ensures more ==>
                Oldest(old(outbox).Keys, row) && IsReceiving(endpoints, old(outbox)[row], to)
                && Value() == Expanded(old(Value()), row, to, now)
    {
      hide Expanded, MadeOf, RecordOf, IsReceiving, Oldest, Among;
      if outbox == map[] {
        return false, 0, [];
      }
      var id := OldestRow();
      OldestIsThere(outbox.Keys, id);
      var receiving := Receiving(outbox[id]);
      ExpandedIs(Value(), id, receiving, now);
      TakeRow(id, receiving, now);
      return true, id, receiving;
    }

    /** Rows are taken oldest first, as many as there are or as the limit, each in a transaction of its own. */
    method Expand(now: Time, limit: nat) returns (taken: nat, ghost queues: seq<Queue>)
      modifies this`outbox, this`deliveries, this`nextNumber, this`took, this`made
      ensures taken <= limit && (taken < limit ==> outbox == map[])
      ensures |queues| == taken + 1 && queues[0] == old(Value()) && queues[taken] == Value() && Expansions(queues, now)
      ensures outbox.Keys <= old(outbox).Keys && |old(outbox)| == |outbox| + taken
      ensures forall id :: id in outbox ==> outbox[id] == old(outbox)[id]
      ensures forall id, later :: id in old(outbox) && id !in outbox && later in outbox ==> id < later
      ensures endpoints == old(endpoints)
    {
      hide Expanded, IsReceiving;
      taken := 0;
      queues := [Value()];
      while taken < limit
        invariant taken <= limit && |queues| == taken + 1
        invariant queues[0] == old(Value()) && queues[taken] == Value() && Expansions(queues, now)
        invariant outbox.Keys <= old(outbox).Keys && |old(outbox)| == |outbox| + taken
        invariant forall id :: id in outbox ==> outbox[id] == old(outbox)[id]
        invariant forall id, later :: id in old(outbox) && id !in outbox && later in outbox ==> id < later
        decreases limit - taken
      {
        ghost var before := Value();
        var more, row, to := ExpandOne(now);
        if !more {
          return;
        }
        OldestIsThere(before.outbox.Keys, row);
        ExpandedOutbox(before, row, to, now);
        assert ExpandsOne(before, Value(), now);
        queues := queues + [Value()];
        taken := taken + 1;
      }
    }

    /** The soonest of some deliveries. */
    method SoonestOf(all: set<nat>) returns (first: nat)
      requires all != {} && forall s :: s in all ==> s in deliveries && deliveries[s].nextAt.Some?
      ensures first in all && forall s :: s in all && s != first ==> Sooner(deliveries, first, s)
    {
      first :| first in all;
      var left := all - {first};
      while left != {}
        invariant left <= all && first in all && first !in left
        invariant forall s :: s in all && s !in left && s != first ==> Sooner(deliveries, first, s)
        decreases |left|
      {
        var s :| s in left;
        left := left - {s};
        if Sooner(deliveries, s, first) {
          first := s;
        }
      }
    }

    /** The soonest of some deliveries, in their order, as many as a limit. */
    method FirstOf(all: set<nat>, limit: nat) returns (due: seq<nat>)
      requires forall s :: s in all ==> s in deliveries && deliveries[s].nextAt.Some?
      ensures |due| <= limit && forall i :: 0 <= i < |due| ==> due[i] in all
      ensures forall i, j :: 0 <= i < j < |due| ==> Sooner(deliveries, due[i], due[j])
      ensures forall s :: s in all && s !in due ==> |due| == limit && forall i :: 0 <= i < |due| ==> Sooner(deliveries, due[i], s)
    {
      var left := all;
      due := [];
      while left != {} && |due| < limit
        invariant |due| <= limit && left <= all
        invariant forall s :: s in all ==> s in left || s in due
        invariant forall i :: 0 <= i < |due| ==> due[i] in all
        invariant forall i, j :: 0 <= i < j < |due| ==> Sooner(deliveries, due[i], due[j])
        invariant forall i, s :: 0 <= i < |due| && s in left ==> Sooner(deliveries, due[i], s)
        decreases |left|
      {
        var first := SoonestOf(left);
        due := due + [first];
        left := left - {first};
      }
    }

    /** What is due, soonest first: within each endpoint's bound and then within the round's. */
    method Due(now: Time, limit: nat, cap: nat) returns (due: seq<nat>)
      ensures IsDueRead(deliveries, endpoints, now, limit, cap, due)
      ensures forall n :: n in due ==> IsTimely(deliveries, endpoints, now, n)
      ensures |due| < limit ==> forall n :: IsTimelyWithin(deliveries, endpoints, now, cap, n) ==> n in due
    {
      var all := set s | s in deliveries && WithinCap(deliveries, endpoints, now, cap, s);
      assert forall s :: WithinCap(deliveries, endpoints, now, cap, s) <==> s in all;
      assert forall s :: s in all ==> s in deliveries && deliveries[s].nextAt.Some?;
      hide WithinCap;
      due := FirstOf(all, limit);
      DueIsTimely(deliveries, endpoints, now, limit, cap, due);
    }

    /** One attempt made and written down, or made and lost with the write. */
    method SendOne(n: nat, delivered: bool, at: Time, jitter: int, written: bool)
      requires sending.Some? && n in sending.value && n in deliveries
      modifies this`deliveries, this`sending, this`sends
      ensures Changes(old(Value()), Send(n, delivered, at, jitter, written))
      ensures Value() == AfterChange(old(Value()), Send(n, delivered, at, jitter, written))
      ensures sending == Some(Drop(old(sending).value, n))
      ensures sends == old(sends) + [Sent(n, old(deliveries)[n].endpoint, old(deliveries)[n].payment)]
      ensures deliveries == if written then old(deliveries)[n := Attempted(old(deliveries)[n], delivered, at, jitter)] else old(deliveries)
    {
      sends := sends + [Sent(n, deliveries[n].endpoint, deliveries[n].payment)];
      sending := Some(Drop(sending.value, n));
      if written {
        var d := deliveries[n];
        var attempts := d.attempts + 1;
        var again := NextAttempt(attempts, at, jitter);
        if delivered {
          deliveries := deliveries[n := d.(state := Delivered, attempts := attempts, nextAt := None)];
        } else if again.Some? {
          deliveries := deliveries[n := d.(state := Pending, attempts := attempts, nextAt := again)];
        } else {
          deliveries := deliveries[n := d.(state := Failed, attempts := attempts, nextAt := None)];
        }
      }
    }

    /** A delivery that is done with goes back on its way, whatever a round is doing; one that is on its way is refused. */
    method ResendOne(n: nat, at: Time) returns (answer: Resending)
      modifies this`deliveries
      ensures answer.NotFound? <==>
                n !in old(deliveries) || old(deliveries)[n].endpoint !in endpoints || endpoints[old(deliveries)[n].endpoint].deleted
      ensures answer.OnItsWay? <==> !answer.NotFound? && old(deliveries)[n].state == Pending
      ensures answer.NotFound? ==> Value() == old(Value())
      ensures !answer.NotFound? ==> Changes(old(Value()), Resend(n, at)) && Value() == AfterChange(old(Value()), Resend(n, at))
      ensures deliveries ==
                if answer.PutBack? then old(deliveries)[n := old(deliveries)[n].(state := Pending, nextAt := Some(at))]
                else old(deliveries)
    {
      if n !in deliveries || deliveries[n].endpoint !in endpoints || endpoints[deliveries[n].endpoint].deleted {
        return NotFound;
      }
      if deliveries[n].state == Pending {
        return OnItsWay;
      }
      deliveries := deliveries[n := deliveries[n].(state := Pending, nextAt := Some(at))];
      return PutBack;
    }

    /** A deleted endpoint's pending deliveries fail with it. */
    method DeleteEndpoint(e: nat)
      requires e in endpoints
      modifies this`endpoints, this`deliveries
      ensures Value() == AfterChange(old(Value()), Change.Delete(e))
      ensures endpoints == old(endpoints)[e := old(endpoints)[e].(enabled := false, deleted := true)]
      ensures deliveries.Keys == old(deliveries).Keys && forall n :: n in deliveries ==>
                deliveries[n] ==
                  if old(deliveries)[n].endpoint == e && old(deliveries)[n].state == Pending
                  then old(deliveries)[n].(state := Failed, nextAt := None) else old(deliveries)[n]
    {
      endpoints := endpoints[e := endpoints[e].(enabled := false, deleted := true)];
      deliveries := map n | n in deliveries ::
        if deliveries[n].endpoint == e && deliveries[n].state == Pending
        then deliveries[n].(state := Failed, nextAt := None) else deliveries[n];
    }

    /** What is done with and past its retention is removed; what is pending stays whatever its age. */
    method Sweep(past: set<nat>)
      modifies this`deliveries
      ensures deliveries == old(deliveries) - (set n | n in past && n in old(deliveries) && old(deliveries)[n].state != Pending)
      ensures var gone := set n | n in past && n in old(deliveries) && old(deliveries)[n].state != Pending;
              Changes(old(Value()), Change.Sweep(gone)) && Value() == AfterChange(old(Value()), Change.Sweep(gone))
    {
      deliveries := deliveries - (set n | n in past && n in deliveries && deliveries[n].state != Pending);
    }

    /**
     A round: rows are expanded, what is past its retention is removed, what is due is
     read once, and each of it is tried once. The sends go out together, so they come
     back in any order. What the receivers answer is the caller's to say.
     */
    method Round(now: Time, past: set<nat>, accepted: set<nat>, jitter: map<nat, int>)
      returns (due: seq<nat>, ghost queues: seq<Queue>, ghost ready: Deliveries)
      requires sending.None?
      modifies this
      ensures sending.None? && endpoints == old(endpoints)
      ensures |queues| > 0 && queues[0] == old(Value()) && Expansions(queues, now)
      ensures var made := queues[|queues| - 1].deliveries;
              ready == made - (set n | n in past && n in made && made[n].state != Pending)
      ensures IsDueRead(ready, endpoints, now, PER_ROUND, PER_ENDPOINT, due)
      ensures forall n :: n in due ==> IsTimely(ready, endpoints, now, n)
      ensures deliveries == Tried(ready, Among(due), accepted, now, jitter)
      ensures |Among(due)| == |due| && EachSent(old(sends), sends, Among(due), {})
    {
      hide IsTimely, IsTimelyWithin, PastTime, IsDueRead;
      var taken;
      taken, queues := Expand(now, EXPAND_PER_ROUND);
      Sweep(past);
      ready := deliveries;
      due := Due(now, PER_ROUND, PER_ENDPOINT);
      DueDistinct(deliveries, endpoints, now, PER_ROUND, PER_ENDPOINT, due);
      sending := Some(due);
      SendAll(due, now, accepted, jitter);
      sending := None;
    }

    /** What was read goes out together and comes back in any order. */
    method SendAll(due: seq<nat>, now: Time, accepted: set<nat>, jitter: map<nat, int>)
      requires sending == Some(due) && forall i :: 0 <= i < |due| ==> due[i] in deliveries
      requires forall i, j :: 0 <= i < j < |due| ==> due[i] != due[j]
      modifies this`deliveries, this`sending, this`sends
      ensures deliveries == Tried(old(deliveries), Among(due), accepted, now, jitter)
      ensures |Among(due)| == |due| && EachSent(old(sends), sends, Among(due), {})
    {
      var all := Among(due);
      var left := all;
      ghost var ready, was := deliveries, sends;
      NoneTried(ready, accepted, now, jitter);
      AmongDistinct(due);
      assert all - left == {} && forall n :: n in all ==> n in due;
      assert Underway(deliveries, sending, sends, ready, was, all, left, accepted, now, jitter);
      hide Underway, Among, EachSent, Tried;
      while left != {}
        invariant Underway(deliveries, sending, sends, ready, was, all, left, accepted, now, jitter)
        decreases |left|
      {
        var n :| n in left;
        SendNext(n, now, accepted, jitter, ready, was, all, left);
        left := left - {n};
      }
      AllBack(deliveries, sending, sends, ready, was, all, accepted, now, jitter);
    }

    method SendNext(
      n: nat, now: Time, accepted: set<nat>, jitter: map<nat, int>, ghost ready: Deliveries, ghost was: seq<Sent>,
      ghost all: set<nat>, ghost left: set<nat>)
      requires n in left && Underway(deliveries, sending, sends, ready, was, all, left, accepted, now, jitter)
      modifies this`deliveries, this`sending, this`sends
      ensures Underway(deliveries, sending, sends, ready, was, all, left - {n}, accepted, now, jitter)
    {
      assert sending.Some?;
      ghost var due := sending.value;
      OneBack(deliveries, due, sends, ready, was, all, left, accepted, now, jitter, n, Sent(n, 0, None));
      ghost var s := Sent(n, deliveries[n].endpoint, deliveries[n].payment);
      OneBack(deliveries, due, sends, ready, was, all, left, accepted, now, jitter, n, s);
      hide Underway, Attempted, Drop, AfterChange, Changes;
      SendOne(n, n in accepted, now, Share(jitter, n), true);
    }
  }

  lemma AllBack(
    deliveries: Deliveries, sending: Option<seq<nat>>, sends: seq<Sent>, ready: Deliveries, was: seq<Sent>,
    all: set<nat>, accepted: set<nat>, now: Time, jitter: map<nat, int>)
    requires Underway(deliveries, sending, sends, ready, was, all, {}, accepted, now, jitter)
    ensures deliveries == Tried(ready, all, accepted, now, jitter) && EachSent(was, sends, all, {})
  {
    assert all - {} == all;
  }

  lemma {:induction false} DropKeeps(due: seq<nat>, n: nat)
    ensures forall m :: m in due && m != n ==> m in Drop(due, n)
  {
    if due != [] {
      DropKeeps(due[1..], n);
    }
  }

  lemma {:induction false} AmongDistinct(due: seq<nat>)
    requires forall i, j :: 0 <= i < j < |due| ==> due[i] != due[j]
    ensures |Among(due)| == |due|
  {
    if due != [] {
      var front, last := due[..|due| - 1], due[|due| - 1];
      AmongDistinct(front);
      assert due == front + [last];
      assert Among(due) == Among(front) + {last};
      assert last !in front;
    }
  }

  lemma DueDistinct(deliveries: Deliveries, endpoints: map<nat, Endpoint>, now: Time, limit: nat, cap: nat, due: seq<nat>)
    requires IsDueRead(deliveries, endpoints, now, limit, cap, due)
    ensures forall i :: 0 <= i < |due| ==> due[i] in deliveries
    ensures forall i, j :: 0 <= i < j < |due| ==> due[i] != due[j]
  {
    forall i | 0 <= i < |due| ensures due[i] in deliveries {
      assert WithinCap(deliveries, endpoints, now, cap, due[i]);
    }
    forall i, j | 0 <= i < j < |due| ensures due[i] != due[j] {
      assert Sooner(deliveries, due[i], due[j]);
    }
  }
}
