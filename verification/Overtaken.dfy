/** A run in which a delivery that was resent is sent after what followed it. */
module Overtaken {
  import opened Basics
  import opened Delivery
  import opened Queue
  import opened Order
  import opened Webhook

  /** A run to a queue, all of it in turn but for one resend where there was one. */
  ghost predicate Ends(qs: seq<Queue>, ms: seq<Move>, q: Queue, resend: Option<nat>) {
    && Run(qs, ms) && qs[|qs| - 1] == q
    && (resend.Some? ==> resend.value < |ms| && ms[resend.value].Other? && ms[resend.value].change.Resend?)
    && forall k :: 0 <= k < |ms| && Some(k) != resend ==> LoneMove(qs[k], ms[k])
  }

  ghost predicate Reached(q: Queue, resent: bool) {
    exists qs: seq<Queue>, ms: seq<Move>, resend: Option<nat> :: Ends(qs, ms, q, resend) && (resent <==> resend.Some?)
  }

  lemma Extends(qs: seq<Queue>, ms: seq<Move>, m: Move)
    requires Run(qs, ms) && Enabled(qs[|qs| - 1], m)
    ensures Run(qs + [Apply(qs[|qs| - 1], m)], ms + [m])
  {
    var ps, ns := qs + [Apply(qs[|qs| - 1], m)], ms + [m];
    hide Enabled, Initial;
    forall i | 0 <= i < |ns| ensures Next(ps[i], ns[i], ps[i + 1]) {
      if i < |ms| {
        assert ps[i] == qs[i] && ps[i + 1] == qs[i + 1] && ns[i] == ms[i];
      }
    }
  }

  lemma Goes(q: Queue, m: Move, resent: bool)
    requires Reached(q, resent) && Enabled(q, m)
    requires LoneMove(q, m) || (!resent && m.Other? && m.change.Resend?)
    ensures Reached(Apply(q, m), resent || !LoneMove(q, m))
  {
    var qs: seq<Queue>, ms: seq<Move>, resend: Option<nat> :| Ends(qs, ms, q, resend) && (resent <==> resend.Some?);
    Extends(qs, ms, m);
    hide Run, Enabled, LoneMove;
    var ps, ns := qs + [Apply(q, m)], ms + [m];
    var next := if LoneMove(q, m) then resend else Some(|ms|);
    assert |qs| == |ms| + 1 by { Lengths(qs, ms); }
    forall k | 0 <= k < |ns| && Some(k) != next ensures LoneMove(ps[k], ns[k]) {
      if k < |ms| {
        assert ps[k] == qs[k] && ns[k] == ms[k];
      }
    }
    assert Ends(ps, ns, Apply(q, m), next);
  }

  lemma Lengths(qs: seq<Queue>, ms: seq<Move>)
    requires Run(qs, ms)
    ensures |qs| == |ms| + 1
  {
  }

  /** One row taken, with nothing between its statements. */
  lemma Takes(q: Queue, row: nat, to: seq<nat>, now: Time)
    requires Reached(q, false) && q.expanders == map[] && row in q.outbox && Oldest(q.outbox.Keys, row)
    requires IsReceiving(q.endpoints, q.outbox[row], to)
    ensures Reached(Expanded(q, row, to, now), false)
  {
    hide Reached, IsReceiving;
    Goes(q, Expand(0, Lock(row), now), false);
    var locked := AfterExpansion(q, 0, Lock(row), now);
    Goes(locked, Expand(0, List(to), now), false);
    var listed := AfterExpansion(locked, 0, List(to), now);
    Goes(listed, Expand(0, Insert, now), false);
    var inserted := AfterExpansion(listed, 0, Insert, now);
    Goes(inserted, Expand(0, Commit, now), false);
  }

  // ---- two events of one payment, and one endpoint

  function Told(event: nat): Row { Row(0, Some(9), event) }

  function Here(): map<nat, Endpoint> { map[1 := Endpoint(None, None, true, false)] }

  function Nothing(): Queue { Queue(map[], 0, map[], 0, Here(), map[], None, map[], map[], []) }

  function Emitted(): Queue { Nothing().(outbox := map[0 := Told(0), 1 := Told(1)], nextRow := 2) }

  function Delivery0(event: nat, state: State, attempts: nat, nextAt: Option<Time>): Delivery {
    Delivery(1, Some(9), event, state, attempts, nextAt)
  }

  /** Both deliveries, as they stand, and what was sent of them. */
  function Sending(zero: Delivery, one: Delivery, sends: seq<Sent>, sending: Option<seq<nat>>): Queue {
    Queue(map[], 2, map[0 := zero, 1 := one], 2, Here(), map[], sending,
          map[0 := {1}, 1 := {1}], map[0 := Made(0, 1), 1 := Made(1, 1)], sends)
  }

  function Waiting(event: nat): Delivery { Delivery0(event, Pending, 0, Some(0)) }

  function Done(event: nat): Delivery { Delivery0(event, Delivered, 1, None) }

  function SentTo(n: nat): Sent { Sent(n, 1, Some(9)) }

  lemma GetsEmitted()
    ensures Reached(Emitted(), false)
  {
    assert Ends([Nothing()], [], Nothing(), None);
    hide Reached;
    Goes(Nothing(), Emit(Told(0)), false);
    var one := Nothing().(outbox := map[0 := Told(0)], nextRow := 1);
    assert Nothing().outbox[0 := Told(0)] == map[0 := Told(0)];
    assert Apply(Nothing(), Emit(Told(0))) == one;
    Goes(one, Emit(Told(1)), false);
    assert one.outbox[1 := Told(1)] == map[0 := Told(0), 1 := Told(1)];
  }

  lemma GetsMade()
    ensures Reached(Sending(Waiting(0), Waiting(1), [], None), false)
  {
    var q := Emitted();
    GetsEmitted();
    hide Reached;
    Takes(q, 0, [1], 0);
    ExpandedIs(q, 0, [1], 0);
    var one := q.(outbox := map[1 := Told(1)], deliveries := map[0 := Waiting(0)], nextNumber := 1,
                  took := map[0 := {1}], made := map[0 := Made(0, 1)]);
    FirstMade(q, one);
    Takes(one, 1, [1], 0);
    ExpandedIs(one, 1, [1], 0);
    SecondMade(one);
  }

  lemma FirstMade(q: Queue, one: Queue)
    requires q == Emitted()
    requires one == q.(outbox := map[1 := Told(1)], deliveries := map[0 := Waiting(0)], nextNumber := 1,
                       took := map[0 := {1}], made := map[0 := Made(0, 1)])
    ensures q.(outbox := q.outbox - {0},
               deliveries := q.deliveries + MadeOf(q.outbox[0], [1], 0, 0),
               nextNumber := 0 + |[1]|,
               took := q.took[0 := Among([1])],
               made := q.made + RecordOf(0, [1], 0)) == one
  {
    assert Among([1]) == {1};
    assert q.outbox - {0} == map[1 := Told(1)];
    assert MadeOf(q.outbox[0], [1], 0, 0) == map[0 := Waiting(0)];
    assert RecordOf(0, [1], 0) == map[0 := Made(0, 1)];
    assert q.took[0 := Among([1])] == map[0 := {1}];
  }

  lemma SecondMade(one: Queue)
    requires one == Emitted().(outbox := map[1 := Told(1)], deliveries := map[0 := Waiting(0)], nextNumber := 1,
                               took := map[0 := {1}], made := map[0 := Made(0, 1)])
    ensures one.(outbox := one.outbox - {1},
                 deliveries := one.deliveries + MadeOf(one.outbox[1], [1], 1, 0),
                 nextNumber := 1 + |[1]|,
                 took := one.took[1 := Among([1])],
                 made := one.made + RecordOf(1, [1], 1)) == Sending(Waiting(0), Waiting(1), [], None)
  {
    assert Among([1]) == {1};
    assert one.outbox - {1} == map[];
    assert MadeOf(one.outbox[1], [1], 1, 0) == map[1 := Waiting(1)];
    assert RecordOf(1, [1], 1) == map[1 := Made(1, 1)];
    assert one.took[1 := Among([1])] == map[0 := {1}, 1 := {1}];
    assert one.deliveries + map[1 := Waiting(1)] == map[0 := Waiting(0), 1 := Waiting(1)];
    assert one.made + map[1 := Made(1, 1)] == map[0 := Made(0, 1), 1 := Made(1, 1)];
  }

  /** One delivery is due and nothing else is. */
  lemma OnlyDue(deliveries: Deliveries, n: nat)
    requires forall s :: Eligible(deliveries, Here(), 0, s) <==> s == n
    ensures IsDueRead(deliveries, Here(), 0, PER_ROUND, PER_ENDPOINT, [n])
  {
    assert Eligible(deliveries, Here(), 0, n);
    assert Ahead(deliveries, Here(), 0, n) == {};
  }

  lemma ReadsDue(zero: Delivery, one: Delivery, sends: seq<Sent>, n: nat, resent: bool)
    requires var q := Sending(zero, one, sends, None);
             Reached(q, resent) && forall s :: Eligible(q.deliveries, Here(), 0, s) <==> s == n
    ensures Reached(Sending(zero, one, sends, Some([n])), resent)
  {
    var q := Sending(zero, one, sends, None);
    OnlyDue(q.deliveries, n);
    hide Reached, IsDueRead, Eligible;
    Goes(q, Other(ReadDue(0, PER_ROUND, PER_ENDPOINT, [n])), resent);
  }

  /** A round that reads one delivery, sends it, has it accepted, and ends. */
  lemma Sends(zero: Delivery, one: Delivery, sends: seq<Sent>, n: nat, resent: bool)
    requires n <= 1 && zero.endpoint == 1 && one.endpoint == 1 && zero.payment == Some(9) && one.payment == Some(9)
    requires var q := Sending(zero, one, sends, None);
             Reached(q, resent) && forall s :: Eligible(q.deliveries, Here(), 0, s) <==> s == n
    ensures var d := Attempted(if n == 0 then zero else one, true, 0, 0);
            Reached(Sending(if n == 0 then d else zero, if n == 0 then one else d, sends + [SentTo(n)], None), resent)
  {
    ReadsDue(zero, one, sends, n, resent);
    hide Reached, Eligible;
    var read := Sending(zero, one, sends, Some([n]));
    Goes(read, Other(Send(n, true, 0, 0, true)), resent);
    var d := Attempted(if n == 0 then zero else one, true, 0, 0);
    var sent := Sending(if n == 0 then d else zero, if n == 0 then one else d, sends + [SentTo(n)], Some([]));
    assert Drop([n], n) == [];
    assert read.deliveries[n := d] == sent.deliveries;
    assert AfterChange(read, Send(n, true, 0, 0, true)) == sent;
    Goes(sent, Other(EndRound), resent);
  }

  lemma FirstWaits()
    ensures var ds: Deliveries := map[0 := Waiting(0), 1 := Waiting(1)]; forall s :: Eligible(ds, Here(), 0, s) <==> s == 0
    ensures var ds: Deliveries := map[0 := Done(0), 1 := Waiting(1)]; forall s :: Eligible(ds, Here(), 0, s) <==> s == 1
    ensures var ds: Deliveries := map[0 := Delivery0(0, Pending, 1, Some(0)), 1 := Done(1)];
            forall s :: Eligible(ds, Here(), 0, s) <==> s == 0
  {
    var ds: Deliveries := map[0 := Waiting(0), 1 := Waiting(1)];
    assert 0 in ds && SameLine(ds[0], ds[1]) && Waits(ds, 1);
  }

  lemma GetsBothSent()
    ensures Reached(Sending(Done(0), Done(1), [SentTo(0), SentTo(1)], None), false)
  {
    GetsMade();
    FirstWaits();
    hide Reached, Eligible;
    Sends(Waiting(0), Waiting(1), [], 0, false);
    assert [] + [SentTo(0)] == [SentTo(0)];
    Sends(Done(0), Waiting(1), [SentTo(0)], 1, false);
    assert [SentTo(0)] + [SentTo(1)] == [SentTo(0), SentTo(1)];
  }

  lemma GetsResent()
    ensures Reached(Sending(Delivery0(0, Pending, 1, Some(0)), Done(1), [SentTo(0), SentTo(1)], None), true)
  {
    var q := Sending(Done(0), Done(1), [SentTo(0), SentTo(1)], None);
    GetsBothSent();
    hide Reached;
    assert q.sends[1] == SentTo(1) && LaterSent(q, 0);
    Goes(q, Other(Resend(0, 0)), false);
    assert q.deliveries[0 := Delivery0(0, Pending, 1, Some(0))]
           == Sending(Delivery0(0, Pending, 1, Some(0)), Done(1), q.sends, None).deliveries;
  }

  /**
   A run in turn but for one resend, at the end of which the order is lost: the
   first of two deliveries is resent when the second has gone.
   */
  lemma ResentOvertaken()
    ensures exists q :: Reached(q, true) && !InOrder(q.sends)
  {
    GetsResent();
    FirstWaits();
    hide Reached, Eligible;
    var again := Delivery0(0, Pending, 1, Some(0));
    Sends(again, Done(1), [SentTo(0), SentTo(1)], 0, true);
    var sends := [SentTo(0), SentTo(1)] + [SentTo(0)];
    assert sends[1].number > sends[2].number;
    var q := Sending(Attempted(again, true, 0, 0), Done(1), sends, None);
    assert Reached(q, true) && !InOrder(q.sends);
  }
}
