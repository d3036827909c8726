/** The events about one payment are sent to one endpoint in the order they were emitted. */
module RowOrder {
  import opened Basics
  import opened Delivery
  import opened Queue
  import opened Order

  /** What was made of a row is numbered after what was made of those before it. */
  ghost predicate MadeInOrder(made: map<nat, Made>) {
    forall m, n :: m in made && n in made && made[m].row < made[n].row ==> m < n
  }

  ghost predicate TakenFirst(q: Queue) { forall id, o :: id in q.took && o in q.outbox ==> id < o }

  /** One row is held at a time, and it is the oldest. */
  ghost predicate OldestHeld(q: Queue) {
    && (forall x, y :: x in q.expanders && y in q.expanders ==> x == y)
    && (forall x, o :: x in q.expanders && o in q.outbox ==> q.expanders[x].row <= o)
  }

  ghost predicate NumberedLast(q: Queue) {
    forall x, n :: x in q.expanders && q.expanders[x].Inserted? && n in q.made ==> n < q.expanders[x].first
  }

  ghost predicate RowsClimb(q: Queue) { MadeInOrder(q.made) && TakenFirst(q) && OldestHeld(q) && NumberedLast(q) }

  lemma CommitClimbs(q: Queue, x: nat, now: Time)
    requires Expands(q, x, Commit) && Conserved(q) && RowsClimb(q)
    ensures RowsClimb(AfterExpansion(q, x, Commit, now))
  {
    var p, ph := AfterExpansion(q, x, Commit, now), q.expanders[x];
    assert PhaseSound(q, ph);
    assert p.expanders == map[];
    assert TakenFirst(p);
    assert p.made == q.made + RecordOf(ph.row, ph.to, ph.first);
    forall m | m in q.made ensures m < ph.first && q.made[m].row < ph.row {
      assert q.made[m].row in q.took;
    }
    hide AfterExpansion, Expands, Conserved, RowsClimb, TakenFirst, OldestHeld, NumberedLast;
    MadeOnInOrder(q.made, ph.row, ph.to, ph.first);
    NobodyHolds(p);
  }

  lemma MadeOnInOrder(made: map<nat, Made>, row: nat, to: seq<nat>, first: nat)
    requires MadeInOrder(made) && forall m :: m in made ==> m < first && made[m].row < row
    ensures MadeInOrder(made + RecordOf(row, to, first))
  {
  }

  lemma NobodyHolds(q: Queue)
    requires q.expanders == map[] && MadeInOrder(q.made) && TakenFirst(q)
    ensures RowsClimb(q)
  {
  }

  lemma ExpansionClimbs(q: Queue, x: nat, m: Expansion, now: Time)
    requires Expands(q, x, m) && Conserved(q) && RowsClimb(q) && (m.Lock? ==> q.expanders == map[])
    ensures RowsClimb(AfterExpansion(q, x, m, now))
  {
    hide MadeConserved, RowsConserved, DeliveriesMade, IsReceiving;
    match m
    case Commit => CommitClimbs(q, x, now);
    case Lock(row) =>
      forall o | o in q.outbox ensures row <= o {
        assert !Held(q, o);
      }
    case _ =>
  }

  lemma ClimbsStep(q: Queue, m: Move, p: Queue)
    requires Next(q, m, p) && Conserved(q) && RowsClimb(q) && LoneMove(q, m)
    ensures RowsClimb(p)
  {
    match m
    case Emit(event) =>
      forall x | x in q.expanders ensures q.expanders[x].row < q.nextRow {
        assert PhaseSound(q, q.expanders[x]);
      }
    case Expand(x, expansion, now) =>
      hide Conserved, RowsClimb, AfterExpansion, Expands;
      ExpansionClimbs(q, x, expansion, now);
    case Other(change) => ChangeLeaves(q, change);
  }

  lemma {:induction false} ClimbsRun(qs: seq<Queue>, ms: seq<Move>, i: nat)
    requires Run(qs, ms) && i < |qs|
    requires forall k :: 0 <= k < i ==> LoneMove(qs[k], ms[k])
    ensures RowsClimb(qs[i])
  {
    hide Next, LoneMove;
    if i > 0 {
      hide RowsClimb, Conserved;
      ClimbsRun(qs, ms, i - 1);
      ConservedRun(qs, ms, i - 1);
      ClimbsStep(qs[i - 1], ms[i - 1], qs[i]);
    }
  }

  // ---- what was sent was made

  ghost predicate SendsMade(q: Queue) { forall i :: 0 <= i < |q.sends| ==> q.sends[i].number in q.made }

  lemma ExpansionAdds(q: Queue, x: nat, m: Expansion, now: Time)
    requires Expands(q, x, m)
    ensures AfterExpansion(q, x, m, now).sends == q.sends
    ensures forall n :: n in q.made ==> n in AfterExpansion(q, x, m, now).made
  {
  }

  lemma ChangeSends(q: Queue, m: Change)
    requires Changes(q, m)
    ensures var p := AfterChange(q, m);
            p.made == q.made && (p.sends == q.sends || exists s: Sent :: p.sends == q.sends + [s] && s.number in q.deliveries)
  {
    if m.Send? {
      var s := Sent(m.number, q.deliveries[m.number].endpoint, q.deliveries[m.number].payment);
      assert AfterChange(q, m).sends == q.sends + [s];
    }
  }

  lemma SendsMadeStep(q: Queue, m: Move, p: Queue)
    requires Next(q, m, p) && DeliveriesMade(q) && SendsMade(q)
    ensures SendsMade(p)
  {
    hide Expands, Changes, AfterExpansion, AfterChange;
    match m
    case Emit(_) =>
    case Expand(x, expansion, now) => ExpansionAdds(q, x, expansion, now);
    case Other(change) => ChangeSends(q, change);
  }

  lemma {:induction false} SendsMadeRun(qs: seq<Queue>, ms: seq<Move>, i: nat)
    requires Run(qs, ms) && i < |qs|
    ensures SendsMade(qs[i])
  {
    hide Next;
    if i > 0 {
      hide SendsMade, HoldsApart, RowsConserved, MadeConserved, DeliveriesMade;
      SendsMadeRun(qs, ms, i - 1);
      ConservedRun(qs, ms, i - 1);
      SendsMadeStep(qs[i - 1], ms[i - 1], qs[i]);
    }
  }

  /**
   Over every run with one worker at a time, and nothing put back on its way that what
   follows it has overtaken: of all the sends ever made, those to one endpoint about one
   payment are of events in the order they were emitted.
   */
  lemma EmittedOrderTheorem(qs: seq<Queue>, ms: seq<Move>, i: nat, a: nat, b: nat)
    requires Run(qs, ms) && i < |qs|
    requires forall k :: 0 <= k < i ==> LoneMove(qs[k], ms[k])
    requires a < b < |qs[i].sends|
    requires qs[i].sends[a].endpoint == qs[i].sends[b].endpoint && qs[i].sends[a].payment == qs[i].sends[b].payment
    ensures qs[i].sends[a].number in qs[i].made && qs[i].sends[b].number in qs[i].made
    ensures qs[i].made[qs[i].sends[a].number].row <= qs[i].made[qs[i].sends[b].number].row
  {
    hide Run, LoneMove;
    OrderTheorem(qs, ms, i);
    ClimbsRun(qs, ms, i);
    SendsMadeRun(qs, ms, i);
  }
}
