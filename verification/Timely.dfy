/** Over every run, a delivery that was refused is not read again before its wait is over. */
module Timely {
  import opened Basics
  import opened Delivery
  import opened Queue
  import opened Order

  /** A reading that takes a delivery. */
  predicate Takes(m: Move, n: nat) { m.Other? && m.change.ReadDue? && n in m.change.due }

  /** It was put back on its way by hand. */
  predicate PutsItBack(q: Queue, m: Move, n: nat) { m.Other? && m.change.Resend? && m.change.number == n && PutsBack(q, n) }

  ghost predicate SendingApart(q: Queue) { q.sending.Some? ==> Distinct(q.sending.value) }

  lemma NextAt(qs: seq<Queue>, ms: seq<Move>, k: nat)
    requires Run(qs, ms) && k < |ms|
    ensures |qs| == |ms| + 1 && Next(qs[k], ms[k], qs[k + 1])
  {
  }

  lemma {:induction false} SendingApartRun(qs: seq<Queue>, ms: seq<Move>, i: nat)
    requires Run(qs, ms) && i < |qs| == |ms| + 1
    ensures SendingApart(qs[i])
  {
    if i > 0 {
      hide Run, Next;
      SendingApartRun(qs, ms, i - 1);
      NextAt(qs, ms, i - 1);
      SendingApartStep(qs[i - 1], ms[i - 1], qs[i]);
    }
  }

  lemma SendingApartStep(q: Queue, m: Move, p: Queue)
    requires Next(q, m, p) && SendingApart(q)
    ensures SendingApart(p)
  {
    hide Changes, Expands, AfterChange, AfterExpansion, Distinct;
    match m
    case Emit(_) =>
    case Expand(x, expansion, now) => ExpansionSends(q, x, expansion, now);
    case Other(change) => ChangeApart(q, change);
  }

  lemma ExpansionSends(q: Queue, x: nat, m: Expansion, now: Time)
    requires Expands(q, x, m)
    ensures AfterExpansion(q, x, m, now).sending == q.sending
  {
  }

  lemma ChangeApart(q: Queue, m: Change)
    requires Changes(q, m) && SendingApart(q)
    ensures SendingApart(AfterChange(q, m))
  {
    hide Distinct, IsDueRead, Drop;
    if m.Send? {
      DropLeaves(q.sending.value, m.number);
    } else if m.ReadDue? {
      DueApart(q, m.now, m.limit, m.cap, m.due);
      ApartIsDistinct(q, m.due);
    }
  }

  lemma ApartIsDistinct(q: Queue, due: seq<nat>)
    requires LinesApart(q, due)
    ensures Distinct(due)
  {
  }

  /** Made already, not on its way, and not due before a moment. */
  predicate Rests(q: Queue, n: nat, until: Time) {
    && n in q.made
    && (q.sending.Some? ==> n !in q.sending.value)
    && (n in q.deliveries && q.deliveries[n].state == Pending ==> q.deliveries[n].nextAt == Some(until))
  }

  lemma RefusedRests(q: Queue, m: Change, p: Queue)
    requires Changes(q, m) && p == AfterChange(q, m) && m.Send? && m.written && !m.delivered
    requires SendingApart(q) && DeliveriesMade(q) && 0 <= q.deliveries[m.number].attempts
    ensures var tried := q.deliveries[m.number].attempts + 1;
            && m.number in p.made && (p.sending.Some? ==> m.number !in p.sending.value)
            && (if tried < |SCHEDULE| then Rests(p, m.number, m.at + SCHEDULE[tried] + m.jitter)
                else forall until :: Rests(p, m.number, until))
  {
    DropLeaves(q.sending.value, m.number);
  }

  /** An expansion sends nothing and writes over nothing that was made. */
  lemma ExpansionRests(q: Queue, x: nat, m: Expansion, now: Time, n: nat, until: Time)
    requires Expands(q, x, m) && HoldsApart(q) && Rests(q, n, until)
    ensures Rests(AfterExpansion(q, x, m, now), n, until)
  {
    if m.Commit? {
      assert PhaseSound(q, q.expanders[x]);
    }
  }

  lemma ChangeRests(q: Queue, m: Change, n: nat, until: Time)
    requires Changes(q, m) && Rests(q, n, until)
    requires !(m.ReadDue? && n in m.due) && !(m.Resend? && m.number == n && PutsBack(q, n))
    ensures Rests(AfterChange(q, m), n, until)
  {
    hide IsDueRead;
    if m.Send? {
      DropLeaves(q.sending.value, m.number);
    }
  }

  lemma RestsOn(q: Queue, m: Move, p: Queue, n: nat, until: Time)
    requires Next(q, m, p) && HoldsApart(q) && Rests(q, n, until) && !Takes(m, n) && !PutsItBack(q, m, n)
    ensures Rests(p, n, until)
  {
    hide Expands, Changes, AfterExpansion, AfterChange, HoldsApart;
    match m
    case Emit(_) =>
    case Expand(x, expansion, now) => ExpansionRests(q, x, expansion, now, n, until);
    case Other(change) => ChangeRests(q, change, n, until);
  }

  /** Nothing takes a delivery or puts it back from one step up to another. */
  ghost predicate LeftAlone(qs: seq<Queue>, ms: seq<Move>, i: nat, j: nat, n: nat) {
    forall k :: i <= k < j && k < |ms| && k < |qs| ==> !Takes(ms[k], n) && !PutsItBack(qs[k], ms[k], n)
  }

  lemma AloneBefore(qs: seq<Queue>, ms: seq<Move>, i: nat, j: nat, n: nat)
    requires i < j && LeftAlone(qs, ms, i, j, n)
    ensures LeftAlone(qs, ms, i, j - 1, n)
  {
  }

  lemma RestsAt(qs: seq<Queue>, ms: seq<Move>, i: nat, j: nat, n: nat, until: Time)
    requires Run(qs, ms) && i < j < |qs| == |ms| + 1 && LeftAlone(qs, ms, i, j, n) && Rests(qs[j - 1], n, until)
    ensures Rests(qs[j], n, until)
  {
    NextAt(qs, ms, j - 1);
    ConservedRun(qs, ms, j - 1);
    assert !Takes(ms[j - 1], n) && !PutsItBack(qs[j - 1], ms[j - 1], n);
    hide Run, Next, LeftAlone, Rests, Takes, PutsItBack, HoldsApart, RowsConserved, MadeConserved, DeliveriesMade;
    RestsOn(qs[j - 1], ms[j - 1], qs[j], n, until);
  }

  lemma {:induction false} RestsUntil(qs: seq<Queue>, ms: seq<Move>, i: nat, j: nat, n: nat, until: Time)
    requires Run(qs, ms) && i <= j < |qs| == |ms| + 1 && LeftAlone(qs, ms, i, j, n) && Rests(qs[i], n, until)
    ensures Rests(qs[j], n, until)
    decreases j
  {
    hide Run, LeftAlone, Rests;
    if i < j {
      AloneBefore(qs, ms, i, j, n);
      RestsUntil(qs, ms, i, j - 1, n, until);
      RestsAt(qs, ms, i, j, n, until);
    }
  }

  lemma TakenIsDue(q: Queue, m: Move, n: nat, until: Time)
    requires Enabled(q, m) && Takes(m, n) && Rests(q, n, until)
    ensures until <= m.change.now
  {
    var c := m.change;
    ReadIsTimely(q.deliveries, q.endpoints, c.now, c.limit, c.cap, c.due, n);
  }

  /**
   Over every run: after a refusal that was written down, the next reading that takes
   the delivery, unless it was put back by hand, is no earlier than the refusal and its
   wait, with the share drawn for it. After the last refusal there is none.
   */
  lemma NotBefore(qs: seq<Queue>, ms: seq<Move>, i: nat, j: nat, n: nat, at: Time, jitter: int)
    requires Run(qs, ms) && i < j < |ms| && ms[i] == Other(Send(n, false, at, jitter, true)) && Takes(ms[j], n)
    requires forall k :: i < k < j ==> !Takes(ms[k], n) && !PutsItBack(qs[k], ms[k], n)
    ensures n in qs[i].deliveries
    ensures var tried := qs[i].deliveries[n].attempts + 1;
            tried < MAX_ATTEMPTS && at + SCHEDULE[tried] + jitter <= ms[j].change.now
  {
    NextAt(qs, ms, i);
    NextAt(qs, ms, j);
    hide Run, HoldsApart, RowsConserved, MadeConserved, Rests, DeliveriesMade, AfterChange;
    SendingApartRun(qs, ms, i);
    ConservedRun(qs, ms, i);
    RefusedRests(qs[i], ms[i].change, qs[i + 1]);
    hide Next;
    var tried := qs[i].deliveries[n].attempts + 1;
    var until := if tried < MAX_ATTEMPTS then at + SCHEDULE[tried] + jitter else ms[j].change.now + 1;
    RestsUntil(qs, ms, i + 1, j, n, until);
    TakenIsDue(qs[j], ms[j], n, until);
  }
}
