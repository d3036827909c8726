/**
 The finalised ranges any number of observers commit lie end to end, with no
 lease and nothing but the condition the cursor is advanced under.
 */
module Linear {
  import opened Basics
  import opened Records
  import opened Tables
  import opened Chains
  import opened Reading
  import opened RowFacts
  import opened Protocol
  import opened Consistency
  import opened Reachable

  function EndOf(start: nat, ranges: seq<Range>): nat {
    if ranges == [] then start else ranges[|ranges| - 1].last
  }

  /** Each range begins on the block after the one before it ended on, the first on the block after the start. */
  predicate EndToEnd(start: nat, ranges: seq<Range>) {
    forall i :: 0 <= i < |ranges| ==> EndOf(start, ranges[..i]) + 1 == ranges[i].first <= ranges[i].last
  }

  /** A round over the finalised blocks reads on from where it read the cursor. */
  predicate ReadsOn(r: Round) {
    r.Settling? ==> r.first == r.from.height + 1 && r.first <= r.last == r.to.height
  }

  ghost predicate CursorLinear(w: World) {
    && EndToEnd(w.start, w.ranges)
    && (w.db.cursor.None? ==> w.ranges == [])
    && (w.db.cursor.Some? ==> w.db.cursor.value.height == EndOf(w.start, w.ranges))
    && (forall i :: i in w.rounds ==> ReadsOn(w.rounds[i]))
  }

  /** What a step does to the cursor and to the ranges committed so far. */
  ghost predicate CursorForward(w: World, v: World) {
    && w.ranges <= v.ranges
    && (w.db.cursor.Some? ==>
          && v.db.cursor.Some? && v.start == w.start
          && w.db.cursor.value.height <= v.db.cursor.value.height)
  }

  lemma WriteCursor(w: World, i: nat)
    requires Reads(w, i) && w.rounds[i].work.Receiving? && WorkLinked(w.db, w.rounds[i].work)
    ensures var r, v := w.rounds[i], DoWrite(w, i);
            if r.Settling? && v.ranges != w.ranges
            then v.db.cursor == Some(r.to) && AdvancesFrom(w.db, r.from) && v.ranges == w.ranges + [Range(r.first, r.last)]
            else v.db.cursor == w.db.cursor && v.ranges == w.ranges
  {
    var r, work := w.rounds[i], w.rounds[i].work;
    LinkedIsCurrent(w.db, work.seen);
    if Record(w.db, r.first, r.last, r.Settling?, work.seen, work.sent).Some? {
      RecordKeeps(w.db, r.first, r.last, r.Settling?, work.seen, work.sent);
    }
  }

  lemma RangeAdded(start: nat, ranges: seq<Range>, r: Range)
    requires EndToEnd(start, ranges) && EndOf(start, ranges) + 1 == r.first <= r.last
    ensures EndToEnd(start, ranges + [r])
  {
    var more := ranges + [r];
    forall i | 0 <= i < |more|
      ensures EndOf(start, more[..i]) + 1 == more[i].first <= more[i].last
    {
      if i < |ranges| {
        assert more[..i] == ranges[..i];
      } else {
        assert more[..i] == ranges;
      }
    }
  }

  lemma LinearWrite(w: World, i: nat)
    requires Reads(w, i) && w.rounds[i].work.Receiving? && WorkLinked(w.db, w.rounds[i].work)
    requires CursorLinear(w)
    ensures CursorLinear(DoWrite(w, i)) && CursorForward(w, DoWrite(w, i))
  {
    WriteCursor(w, i);
    var r := w.rounds[i];
    if DoWrite(w, i).ranges != w.ranges {
      assert ReadsOn(r);
      RangeAdded(w.start, w.ranges, Range(r.first, r.last));
    }
  }

  lemma BeginReadsOn(w: World, f: nat, l: nat, width: nat)
    requires w.db.cursor.Some? && w.db.cursor.value.height <= f < |w.chain.blocks| && width >= 1
    ensures ReadsOn(BeginRound(w, f, l, width))
  {
  }

  /** Of the rounds under way, only what begins has a range, and nothing else is touched. */
  lemma RoundsReadOn(env: Env, w: World, m: ObserverMove)
    requires ObserverMoves(w, m) && !m.Write? && !m.Begin?
    requires forall i :: i in w.rounds ==> ReadsOn(w.rounds[i])
    ensures forall i :: i in AfterObserver(env, w, m).rounds ==> ReadsOn(AfterObserver(env, w, m).rounds[i])
  {
    hide DoWrite, KeysIn, Against, Backs, Transactions, Find, SeenIn, SentIn;
  }

  /** Nothing but a write moves a cursor that is there, and nothing but a write commits a range. */
  lemma CursorStays(env: Env, w: World, m: ObserverMove)
    requires ObserverMoves(w, m) && !m.Write?
    ensures var v := AfterObserver(env, w, m);
            && v.ranges == w.ranges
            && (w.db.cursor.Some? ==>
                  && v.db.cursor.Some? && v.start == w.start
                  && v.db.cursor.value.height == w.db.cursor.value.height)
            && (w.db.cursor.None? && v.db.cursor.Some? ==> v.db.cursor.value.height == v.start)
            && (w.db.cursor.None? && v.db.cursor.None? ==> v.start == w.start)
  {
    hide DoWrite, BeginRound, KeysIn, Against, Backs, Transactions, Find, SeenIn, SentIn;
  }

  lemma LinearRounds(env: Env, w: World, m: ObserverMove)
    requires ObserverMoves(w, m) && !m.Write? && CursorLinear(w)
    ensures CursorLinear(AfterObserver(env, w, m)) && CursorForward(w, AfterObserver(env, w, m))
  {
    var v := AfterObserver(env, w, m);
    CursorStays(env, w, m);
    assert EndToEnd(v.start, []);
    if m.Begin? {
      BeginReadsOn(w, m.final, m.latest, m.width);
      hide ReadsOn, BeginRound;
    } else {
      RoundsReadOn(env, w, m);
      hide AfterObserver, ReadsOn;
    }
    hide EndToEnd;
  }

  lemma LinearObserver(env: Env, w: World, m: ObserverMove)
    requires ObserverMoves(w, m) && RoundsLinked(w.db, w.rounds) && CursorLinear(w)
    ensures CursorLinear(AfterObserver(env, w, m)) && CursorForward(w, AfterObserver(env, w, m))
  {
    if m.Write? {
      assert RoundLinked(w.db, w.rounds[m.observer]);
      LinearWrite(w, m.observer);
    } else {
      LinearRounds(env, w, m);
    }
  }

  lemma LinearWorker(w: World, m: WorkerMove)
    requires WorkerMoves(w, m) && CursorLinear(w)
    ensures CursorLinear(AfterWorker(w, m)) && CursorForward(w, AfterWorker(w, m))
  {
    hide Grounds, RefundGrounds, EndToEnd;
    if m.GiveUpOn? {
      LoseKeeps(w.db, {m.ref});
    }
  }

  lemma LinearStep(env: Env, w: World, s: Step, v: World)
    requires Next(env, w, s, v) && RoundsLinked(w.db, w.rounds) && CursorLinear(w)
    ensures CursorLinear(v) && CursorForward(w, v)
  {
    hide AfterWorker, AfterObserver, EndToEnd, RoundsLinked, ReadsOn;
    match s
    case ByChain(m) =>
    case ByWorker(m) => LinearWorker(w, m);
    case ByRequest(m) => RequestLeaves(env, w, m);
    case ByObserver(m) => LinearObserver(env, w, m);
  }

  lemma {:induction false} LinearRun(env: Env, ws: seq<World>, ss: seq<Step>, i: nat)
    requires Run(env, ws, ss) && i < |ws|
    ensures CursorLinear(ws[i])
  {
    if i > 0 {
      LinearRun(env, ws, ss, i - 1);
      ConsistentRun(env, ws, ss, i - 1);
      LinearStep(env, ws[i - 1], ss[i - 1], ws[i]);
    }
  }

  /**
   Over any run, with any number of observers and no lease: the ranges committed
   lie end to end from the first position to the cursor, no block is in two of
   them, and the cursor and what was committed only ever go forward.
   */
  lemma {:induction false} CursorTheorem(env: Env, ws: seq<World>, ss: seq<Step>, i: nat, j: nat)
    requires Run(env, ws, ss) && i <= j < |ws|
    ensures EndToEnd(ws[j].start, ws[j].ranges)
    ensures ws[j].db.cursor.Some? ==> ws[j].db.cursor.value.height == EndOf(ws[j].start, ws[j].ranges)
    ensures CursorForward(ws[i], ws[j])
    decreases j
  {
    hide Next;
    LinearRun(env, ws, ss, j);
    if i < j {
      CursorTheorem(env, ws, ss, i, j - 1);
      LinearRun(env, ws, ss, j - 1);
      ConsistentRun(env, ws, ss, j - 1);
      LinearStep(env, ws[j - 1], ss[j - 1], ws[j]);
    }
  }

  /** Ranges lying end to end climb: each ends before any later one begins. */
  lemma {:induction false} RangesClimb(start: nat, ranges: seq<Range>, i: nat, j: nat)
    requires EndToEnd(start, ranges) && i < j < |ranges|
    ensures start < ranges[i].first <= ranges[i].last < ranges[j].first
    decreases j
  {
    assert ranges[..j][j - 1] == ranges[j - 1];
    if i < j - 1 {
      RangesClimb(start, ranges, i, j - 1);
    } else if i > 0 {
      RangesClimb(start, ranges, i - 1, i);
    }
  }

  /** So every height from the start to the end is in one of them, and, by [RangesClimb], in no other. */
  lemma {:induction false} EachHeightOnce(start: nat, ranges: seq<Range>, h: nat)
    requires EndToEnd(start, ranges) && start < h <= EndOf(start, ranges)
    ensures exists i :: 0 <= i < |ranges| && ranges[i].first <= h <= ranges[i].last
  {
    var n := |ranges| - 1;
    var front := ranges[..n];
    if h < ranges[n].first {
      assert forall i :: 0 <= i < n ==> front[..i] == ranges[..i] && front[i] == ranges[i];
      EachHeightOnce(start, front, h);
    }
  }
}
