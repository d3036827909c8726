/** Over any run of a worker's rounds no transfer that is on the final chain is given up on. */
module Sparing {
  import opened Basics
  import opened Finality
  import opened Paging
  import opened Deciding
  import opened Rounds
  import opened GivingUp

  type Replying = (nat, Id) -> Option<Said>

  function Everybody(n: nat): seq<nat> { seq(n, i => i) }

  /** What the endpoints answered in each round, and who was left to ask as each went on. */
  ghost predicate Answered(ms: seq<Memory>, ts: seq<Turn>, replies: seq<Replying>, askings: seq<seq<seq<nat>>>, need: nat, n: nat) {
    && need >= 1 && |replies| == |ts| && |askings| == |ts| && |ms| == |ts| + 1
    && forall i :: 0 <= i < |ts| ==>
         && Told(ms[i].answers, ts[i].Items(), ts[i].verdicts, askings[i], replies[i], need)
         && askings[i][0] == Everybody(n)
  }

  /** A round's rows are each of one transfer: a row is named by its key and transaction. */
  predicate Apart(t: Turn) {
    forall p, q :: 0 <= p < q < |t.Items()| ==> IdOf(t.Items()[p]) != IdOf(t.Items()[q])
  }

  // ---- what a round hears of one transfer, endpoint by endpoint

  predicate PutToThem(m: Memory, t: Turn, id: Id, q: nat) {
    q < |t.verdicts| <= |t.Items()| && IdOf(t.Items()[q]) == id && !LeftUnasked(Get(m.answers, id))
  }

  function Heeding(n: nat, asking: seq<nat>, reply: Replying, id: Id): (row: seq<Option<Said>>)
    ensures |row| == n
  {
    seq(n, e => if e in asking then reply(e, id) else None)
  }

  ghost function RowOf(n: nat, m: Memory, t: Turn, askings: seq<seq<nat>>, reply: Replying, id: Id): (row: seq<Option<Said>>)
    requires |askings| == |t.verdicts| + 1
    ensures |row| == n
  {
    if exists q: nat :: PutToThem(m, t, id, q) then
      var q: nat :| PutToThem(m, t, id, q);
      Heeding(n, askings[q], reply, id)
    else Heeding(n, [], reply, id)
  }

  // ---- who is left to ask stays in order

  lemma {:induction false} WithoutClimbs(list: seq<nat>, places: seq<nat>, bound: nat)
    requires Climb(places, |list|) && Climb(list, bound)
    ensures Climb(Without(list, places), bound)
    decreases |places|
  {
    if places != [] {
      ClimbFront(places, |list|);
      var k := places[|places| - 1];
      BelowBound(list, bound);
      ClimbTake(list, k, bound);
      WithoutClimbs(list[..k], places[..|places| - 1], list[k]);
      ClimbDrop(list, k + 1, bound);
      ClimbJoin(Without(list[..k], places[..|places| - 1]), list[k], list[k + 1..], bound);
    }
  }

  lemma ClimbTake(list: seq<nat>, k: nat, bound: nat)
    requires Climb(list, bound) && k < |list|
    ensures Climb(list[..k], list[k])
  {
    forall i | 0 <= i < k ensures list[..k][i] < NextOf(list[..k], i, list[k]) {
      assert list[i] < NextOf(list, i, bound);
    }
  }

  lemma ClimbDrop(list: seq<nat>, k: nat, bound: nat)
    requires Climb(list, bound) && k <= |list|
    ensures Climb(list[k..], bound)
    ensures 0 < k < |list| ==> list[k - 1] < list[k]
  {
    forall i | 0 <= i < |list| - k ensures list[k..][i] < NextOf(list[k..], i, bound) {
      assert list[i + k] < NextOf(list, i + k, bound);
    }
    if 0 < k < |list| {
      assert list[k - 1] < NextOf(list, k - 1, bound);
    }
  }

  /** What is below a number, and then what is above it. */
  lemma ClimbJoin(a: seq<nat>, between: nat, b: seq<nat>, bound: nat)
    requires Climb(a, between) && Climb(b, bound) && between < bound && (b != [] ==> between < b[0])
    ensures Climb(a + b, bound)
  {
    var all := a + b;
    forall i | 0 <= i < |all| ensures all[i] < NextOf(all, i, bound) {
      if i < |a| {
        assert a[i] < NextOf(a, i, between);
        BelowLast(a, between);
      } else {
        assert b[i - |a|] < NextOf(b, i - |a|, bound);
      }
    }
  }

  lemma BelowLast(a: seq<nat>, bound: nat)
    requires Climb(a, bound) && a != []
    ensures a[|a| - 1] < bound
  {
    assert a[|a| - 1] < NextOf(a, |a| - 1, bound);
  }

  /** The endpoints a round has left are always some of those it began with, in their order. */
  lemma {:induction false} AskingClimbs(
    answers: map<Id, Answer>, items: seq<Listed>, verdicts: seq<Verdict>, askings: seq<seq<nat>>, reply: Replying,
    need: nat, n: nat, q: nat)
    requires need >= 1 && Told(answers, items, verdicts, askings, reply, need) && askings[0] == Everybody(n) && q <= |verdicts|
    ensures Climb(askings[q], n)
  {
    if q > 0 {
      AskingClimbs(answers, items, verdicts, askings, reply, need, n, q - 1);
      var asking, next := askings[q - 1], askings[q];
      assert PutOrLeft(answers, IdOf(items[q - 1]), verdicts[q - 1], asking, next, reply, need);
      if next != asking {
        var replies := Replies(asking, reply, IdOf(items[q - 1]));
        var k :| && AskedUpTo(replies, need, k) && Climb(SilentIn(replies, k), |asking|)
                 && next == Without(asking, SilentIn(replies, k));
        WithoutClimbs(asking, SilentIn(replies, k), n);
      }
    }
  }

  lemma AnsweredLengths(ms: seq<Memory>, ts: seq<Turn>, replies: seq<Replying>, askings: seq<seq<seq<nat>>>, need: nat, n: nat)
    requires Answered(ms, ts, replies, askings, need, n)
    ensures need >= 1 && |replies| == |ts| && |askings| == |ts| && |ms| == |ts| + 1
    ensures forall i :: 0 <= i < |ts| ==> |ts[i].verdicts| <= |ts[i].Items()| && |askings[i]| == |ts[i].verdicts| + 1
  {
  }

  lemma RowSays(n: nat, m: Memory, t: Turn, askings: seq<seq<nat>>, reply: Replying, id: Id, e: nat)
    requires |askings| == |t.verdicts| + 1 && e < n
    ensures RowOf(n, m, t, askings, reply, id)[e] == None || RowOf(n, m, t, askings, reply, id)[e] == reply(e, id)
  {
  }

  // ---- what those that were asked said is what all of them said, the rest being silent

  lemma {:induction false} SilentRow(n: nat, reply: Replying, id: Id)
    ensures Heard(Heeding(n, [], reply, id)) == []
  {
    if n > 0 {
      SilentRow(n - 1, reply, id);
      assert Heeding(n, [], reply, id)[..n - 1] == Heeding(n - 1, [], reply, id);
    }
  }

  lemma LastHeard(replies: seq<Option<Said>>)
    requires replies != []
    ensures var n := |replies| - 1;
            Heard(replies) == Heard(replies[..n]) + if replies[n].Some? then [replies[n].value] else []
  {
    HeardNext(replies, |replies| - 1);
    assert replies[..|replies|] == replies;
  }

  /** A row and one endpoint more, which is the last asked or is not asked. */
  lemma RowFront(n: nat, asking: seq<nat>, reply: Replying, id: Id)
    requires n > 0 && Climb(asking, n) && asking != []
    ensures var k, row := |asking| - 1, Heeding(n, asking, reply, id);
            if asking[k] == n - 1 then
              && Climb(asking[..k], n - 1)
              && row[..n - 1] == Heeding(n - 1, asking[..k], reply, id) && row[n - 1] == reply(n - 1, id)
              && Replies(asking, reply, id)[..k] == Replies(asking[..k], reply, id)
              && Replies(asking, reply, id)[k] == reply(n - 1, id)
            else
              && Climb(asking, n - 1) && row[..n - 1] == Heeding(n - 1, asking, reply, id) && row[n - 1] == None
  {
    var k := |asking| - 1;
    var front, last := asking[..k], asking[k];
    ClimbFront(asking, n);
    BelowBound(asking, n);
    BelowBound(front, last);
    assert asking == front + [last];
    hide Climb;
    if last < n - 1 {
      ClimbAppend(front, last, n - 1);
      BelowBound(asking, n - 1);
    }
  }

  lemma {:induction false} RowIsHeard(n: nat, asking: seq<nat>, reply: Replying, id: Id)
    requires Climb(asking, n)
    ensures Heard(Heeding(n, asking, reply, id)) == Heard(Replies(asking, reply, id))
  {
    hide Heard, Climb, Heeding, Replies;
    if asking == [] {
      SilentRow(n, reply, id);
      NoneHeard();
      assert Replies(asking, reply, id) == [];
    } else {
      BelowBound(asking, n);
      assert asking[0] < n;
      RowFront(n, asking, reply, id);
      LastHeard(Heeding(n, asking, reply, id));
      LastHeard(Replies(asking, reply, id));
      if asking[|asking| - 1] == n - 1 {
        RowIsHeard(n - 1, asking[..|asking| - 1], reply, id);
      } else {
        RowIsHeard(n - 1, asking, reply, id);
      }
    }
  }

  /** The verdict on a transfer that was put to the endpoints is the verdict of its row. */
  lemma RowVerdict(n: nat, m: Memory, t: Turn, askings: seq<seq<nat>>, reply: Replying, need: nat, id: Id, q: nat)
    requires need >= 1 && Told(m.answers, t.Items(), t.verdicts, askings, reply, need) && askings[0] == Everybody(n)
    requires Apart(t) && PutToThem(m, t, id, q)
    ensures VerdictOf(Heard(RowOf(n, m, t, askings, reply, id)), need) == t.verdicts[q]
  {
    forall p: nat | PutToThem(m, t, id, p) ensures p == q {
      assert p < q || q < p || p == q;
    }
    AskingClimbs(m.answers, t.Items(), t.verdicts, askings, reply, need, n, q);
    assert PutOrLeft(m.answers, IdOf(t.Items()[q]), t.verdicts[q], askings[q], askings[q + 1], reply, need);
    RowIsHeard(n, askings[q], reply, id);
    assert RowOf(n, m, t, askings, reply, id) == Heeding(n, askings[q], reply, id);
  }

  // ---- over all the rounds

  /** What each endpoint said of one transfer in each of the first rounds. */
  ghost function Asks(n: nat, ms: seq<Memory>, ts: seq<Turn>, replies: seq<Replying>, askings: seq<seq<seq<nat>>>,
                      need: nat, id: Id, k: nat): (rows: GivingUp.Passes)
    requires Answered(ms, ts, replies, askings, need, n) && k <= |ts|
    ensures |rows| == k && Of(rows, n)
    ensures forall i :: 0 <= i < k ==> rows[i] == RowOf(n, ms[i], ts[i], askings[i], replies[i], id)
  {
    seq(k, i requires 0 <= i < k => RowOf(n, ms[i], ts[i], askings[i], replies[i], id))
  }

  /** How many of the first rounds called a transfer gone. */
  ghost function GoneSoFar(n: nat, ms: seq<Memory>, ts: seq<Turn>, replies: seq<Replying>, askings: seq<seq<seq<nat>>>,
                           need: nat, id: Id, k: nat): nat
    requires Answered(ms, ts, replies, askings, need, n) && k <= |ts|
  {
    Gones(Verdicts(Asks(n, ms, ts, replies, askings, need, id, k), need))
  }

  lemma GoneNext(n: nat, ms: seq<Memory>, ts: seq<Turn>, replies: seq<Replying>, askings: seq<seq<seq<nat>>>,
                 need: nat, id: Id, k: nat)
    requires Answered(ms, ts, replies, askings, need, n) && k < |ts|
    ensures GoneSoFar(n, ms, ts, replies, askings, need, id, k + 1)
            == GoneSoFar(n, ms, ts, replies, askings, need, id, k)
               + if VerdictOf(Heard(RowOf(n, ms[k], ts[k], askings[k], replies[k], id)), need) == Agreed(Gone) then 1 else 0
  {
    hide VerdictOf, Heard, RowOf;
    var more := Verdicts(Asks(n, ms, ts, replies, askings, need, id, k + 1), need);
    assert more[..k] == Verdicts(Asks(n, ms, ts, replies, askings, need, id, k), need);
  }

  lemma {:induction false} GoneClimbs(n: nat, ms: seq<Memory>, ts: seq<Turn>, replies: seq<Replying>, askings: seq<seq<seq<nat>>>,
                                      need: nat, id: Id, i: nat, k: nat)
    requires Answered(ms, ts, replies, askings, need, n) && i <= k <= |ts|
    ensures GoneSoFar(n, ms, ts, replies, askings, need, id, i) <= GoneSoFar(n, ms, ts, replies, askings, need, id, k)
    decreases k
  {
    hide Answered, GoneSoFar;
    if i < k {
      GoneClimbs(n, ms, ts, replies, askings, need, id, i, k - 1);
      assert k - 1 < |ts|;
      GoneNext(n, ms, ts, replies, askings, need, id, k - 1);
    }
  }

  // ---- what is remembered counts no more than was said

  /** Where the pass a round is in began. */
  function PassStart(perRound: nat, ts: seq<Turn>, k: nat): (a: nat)
    requires k <= |ts|
    ensures a <= k
  {
    if k == 0 then 0 else if ts[k - 1].Swaps(perRound) then k else PassStart(perRound, ts, k - 1)
  }

  predicate CountsAtMost(m: map<Id, Answer>, id: Id, most: nat) {
    id in m && m[id].verdict == Agreed(Gone) ==> m[id].rounds <= most
  }

  /** One round counts a transfer gone at most once more, and only where it heard so. */
  lemma {:induction false} TurnCounts(answers: map<Id, Answer>, pass: map<Id, Answer>, items: seq<Listed>, verdicts: seq<Verdict>, id: Id,
                                      most: nat, gone: bool)
    requires |verdicts| == |items| && CountsAtMost(answers, id, most)
    requires CountsAtMost(pass, id, most + if gone then 1 else 0)
    requires forall q :: 0 <= q < |items| && IdOf(items[q]) == id && !LeftUnasked(Get(answers, id)) && verdicts[q] == Agreed(Gone) ==> gone
    ensures CountsAtMost(PassAfter(answers, pass, items, verdicts), id, most + if gone then 1 else 0)
  {
    if items != [] {
      var n := |items| - 1;
      TurnCounts(answers, pass, items[..n], verdicts[..n], id, most, gone);
    }
  }

  /** What a round heard of a transfer it put to the endpoints. */
  lemma HeardGone(n: nat, ms: seq<Memory>, ts: seq<Turn>, replies: seq<Replying>, askings: seq<seq<seq<nat>>>,
                  need: nat, id: Id, k: nat, q: nat)
    requires Answered(ms, ts, replies, askings, need, n) && k < |ts| && Apart(ts[k])
    requires PutToThem(ms[k], ts[k], id, q) && ts[k].verdicts[q] == Agreed(Gone)
    ensures GoneSoFar(n, ms, ts, replies, askings, need, id, k + 1) == GoneSoFar(n, ms, ts, replies, askings, need, id, k) + 1
  {
    GoneNext(n, ms, ts, replies, askings, need, id, k);
    RowVerdict(n, ms[k], ts[k], askings[k], replies[k], need, id, q);
  }

  lemma {:induction false} CountsBounded(perRound: nat, n: nat, ms: seq<Memory>, ts: seq<Turn>, replies: seq<Replying>,
                                         askings: seq<seq<seq<nat>>>, need: nat, id: Id, k: nat)
    requires Working(perRound, ms, ts) && Answered(ms, ts, replies, askings, need, n) && k <= |ts|
    requires forall i :: 0 <= i < |ts| ==> Apart(ts[i])
    ensures CountsAtMost(ms[k].answers, id, GoneSoFar(n, ms, ts, replies, askings, need, id, PassStart(perRound, ts, k)))
    ensures CountsAtMost(ms[k].pass, id, GoneSoFar(n, ms, ts, replies, askings, need, id, k))
  {
    if k == 0 {
      StartsAt(perRound, ms, ts);
    } else {
      CountsBounded(perRound, n, ms, ts, replies, askings, need, id, k - 1);
      TakesAt(perRound, ms, ts, k - 1);
      CountsTurn(perRound, n, ms, ts, replies, askings, need, id, k - 1);
    }
  }

  lemma CountsTurn(perRound: nat, n: nat, ms: seq<Memory>, ts: seq<Turn>, replies: seq<Replying>,
                   askings: seq<seq<seq<nat>>>, need: nat, id: Id, k: nat)
    requires Answered(ms, ts, replies, askings, need, n) && k < |ts| && Apart(ts[k])
    requires |ts[k].verdicts| <= |ts[k].Items()| && ms[k + 1] == AfterTurn(perRound, ms[k], ts[k])
    requires CountsAtMost(ms[k].answers, id, GoneSoFar(n, ms, ts, replies, askings, need, id, PassStart(perRound, ts, k)))
    requires CountsAtMost(ms[k].pass, id, GoneSoFar(n, ms, ts, replies, askings, need, id, k))
    ensures CountsAtMost(ms[k + 1].answers, id, GoneSoFar(n, ms, ts, replies, askings, need, id, PassStart(perRound, ts, k + 1)))
    ensures CountsAtMost(ms[k + 1].pass, id, GoneSoFar(n, ms, ts, replies, askings, need, id, k + 1))
  {
    AnsweredLengths(ms, ts, replies, askings, need, n);
    hide Answered, GoneSoFar, Apart, AfterTurn, HearsGone, CountsAtMost;
    GoneClimbs(n, ms, ts, replies, askings, need, id, PassStart(perRound, ts, k), k);
    GoneCounted(n, ms, ts, replies, askings, need, id, k);
    TurnRemembers(perRound, ms[k], ts[k], id, GoneSoFar(n, ms, ts, replies, askings, need, id, PassStart(perRound, ts, k)),
                  GoneSoFar(n, ms, ts, replies, askings, need, id, k), GoneSoFar(n, ms, ts, replies, askings, need, id, k + 1));
  }

  lemma TurnRemembers(perRound: nat, m: Memory, t: Turn, id: Id, start: nat, before: nat, after: nat)
    requires |t.verdicts| <= |t.Items()|
    requires CountsAtMost(m.answers, id, start) && CountsAtMost(m.pass, id, before) && start <= before
    requires after >= before + if HearsGone(m, t, id) then 1 else 0
    ensures CountsAtMost(AfterTurn(perRound, m, t).pass, id, after)
    ensures CountsAtMost(AfterTurn(perRound, m, t).answers, id, if t.Swaps(perRound) then after else start)
  {
    var items := t.Items()[..|t.verdicts|];
    forall q | 0 <= q < |items| && IdOf(items[q]) == id && !LeftUnasked(Get(m.answers, id)) && t.verdicts[q] == Agreed(Gone)
      ensures HearsGone(m, t, id)
    {
      assert PutToThem(m, t, id, q);
    }
    TurnCounts(m.answers, m.pass, items, t.verdicts, id, before, HearsGone(m, t, id));
  }

  ghost predicate HearsGone(m: Memory, t: Turn, id: Id) {
    exists q: nat :: PutToThem(m, t, id, q) && t.verdicts[q] == Agreed(Gone)
  }

  lemma GoneCounted(n: nat, ms: seq<Memory>, ts: seq<Turn>, replies: seq<Replying>, askings: seq<seq<seq<nat>>>,
                    need: nat, id: Id, k: nat)
    requires Answered(ms, ts, replies, askings, need, n) && k < |ts| && Apart(ts[k])
    ensures GoneSoFar(n, ms, ts, replies, askings, need, id, k + 1)
            >= GoneSoFar(n, ms, ts, replies, askings, need, id, k) + if HearsGone(ms[k], ts[k], id) then 1 else 0
  {
    AnsweredLengths(ms, ts, replies, askings, need, n);
    hide Answered, Apart, LeftUnasked, GoneSoFar;
    var m, t := ms[k], ts[k];
    GoneClimbs(n, ms, ts, replies, askings, need, id, k, k + 1);
    if HearsGone(m, t, id) {
      var q: nat :| PutToThem(m, t, id, q) && t.verdicts[q] == Agreed(Gone);
      HeardGone(n, ms, ts, replies, askings, need, id, k, q);
    }
  }

  /** What is given up on was put to the endpoints in that round, and called gone as often in a row as the setting says. */
  lemma {:induction false} GoneIsHeard(answers: map<Id, Answer>, items: seq<Listed>, verdicts: seq<Verdict>, misses: nat, id: Id)
    returns (q: nat)
    requires |verdicts| == |items| && id in GoneOf(answers, items, verdicts, misses)
    ensures q < |items| && IdOf(items[q]) == id && GivesUp(answers, items[q], verdicts[q], misses)
  {
    var n := |items| - 1;
    if id in GoneOf(answers, items[..n], verdicts[..n], misses) {
      q := GoneIsHeard(answers, items[..n], verdicts[..n], misses, id);
    } else {
      q := n;
    }
  }

  /** What is given up on was called gone in at least as many rounds as the setting says. */
  lemma GivenUpWasGone(perRound: nat, n: nat, ms: seq<Memory>, ts: seq<Turn>, replies: seq<Replying>,
                       askings: seq<seq<seq<nat>>>, need: nat, misses: nat, id: Id, k: nat)
    requires Working(perRound, ms, ts) && Answered(ms, ts, replies, askings, need, n) && k < |ts|
    requires forall i :: 0 <= i < |ts| ==> Apart(ts[i])
    requires |ts[k].verdicts| <= |ts[k].Items()|
    requires id in GoneOf(ms[k].answers, ts[k].Items()[..|ts[k].verdicts|], ts[k].verdicts, misses)
    ensures GoneSoFar(n, ms, ts, replies, askings, need, id, |ts|) >= misses
  {
    var m, t := ms[k], ts[k];
    var q := GoneIsHeard(m.answers, t.Items()[..|t.verdicts|], t.verdicts, misses, id);
    CountsBounded(perRound, n, ms, ts, replies, askings, need, id, k);
    GoneClimbs(n, ms, ts, replies, askings, need, id, PassStart(perRound, ts, k), k);
    GoneClimbs(n, ms, ts, replies, askings, need, id, k + 1, |ts|);
    assert PutToThem(m, t, id, q);
    HeardGone(n, ms, ts, replies, askings, need, id, k, q);
  }

  // ---- honest endpoints

  /** What an endpoint says of one transfer, round by round, is what an honest one that only moves forward would. */
  ghost predicate HonestOf(replies: seq<Replying>, e: nat, id: Id, r: Recorded) {
    exists visits: seq<Option<Visit>> ::
      && |visits| == |replies| && Honest(visits, r)
      && forall i :: 0 <= i < |replies| ==> replies[i](e, id) == Reply(visits[i], r)
  }

  /** And so is what it is heard to say in the rounds it is asked in. */
  lemma HonestRows(n: nat, ms: seq<Memory>, ts: seq<Turn>, replies: seq<Replying>, askings: seq<seq<seq<nat>>>,
                   need: nat, id: Id, e: nat, r: Recorded)
    requires Answered(ms, ts, replies, askings, need, n) && e < n && HonestOf(replies, e, id, r)
    ensures HonestAt(Asks(n, ms, ts, replies, askings, need, id, |ts|), e, r)
  {
    AnsweredLengths(ms, ts, replies, askings, need, n);
    hide Answered, HonestOf, HonestAt;
    var rows := Asks(n, ms, ts, replies, askings, need, id, |ts|);
    forall i | 0 <= i < |ts| ensures rows[i][e] == None || rows[i][e] == replies[i](e, id) {
      RowSays(n, ms[i], ts[i], askings[i], replies[i], id, e);
    }
    hide RowOf;
    HonestWhereAsked(rows, n, replies, id, e, r);
  }

  lemma HonestWhereAsked(rows: GivingUp.Passes, n: nat, replies: seq<Replying>, id: Id, e: nat, r: Recorded)
    requires Of(rows, n) && e < n && |rows| == |replies| && HonestOf(replies, e, id, r)
    requires forall i :: 0 <= i < |rows| ==> rows[i][e] == None || rows[i][e] == replies[i](e, id)
    ensures HonestAt(rows, e, r)
  {
    hide Honest, Asked;
    var visits: seq<Option<Visit>> :|
      && |visits| == |replies| && Honest(visits, r)
      && forall i :: 0 <= i < |replies| ==> replies[i](e, id) == Reply(visits[i], r);
    var heard: seq<Option<Visit>> := seq(|rows|, i requires 0 <= i < |rows| => if rows[i][e] == None then None else visits[i]);
    HonestPart(visits, heard, r);
  }

  lemma HonestPart(visits: seq<Option<Visit>>, heard: seq<Option<Visit>>, r: Recorded)
    requires Honest(visits, r) && |heard| == |visits|
    requires forall i :: 0 <= i < |heard| ==> heard[i] == None || heard[i] == visits[i]
    ensures Honest(heard, r)
  {
  }

  /**
   Over any run of a worker's rounds, whatever fails in them and however the lists
   are paged: a transfer that is on the final chain is not given up on in any of
   them, where misses outweigh the honest endpoints.
   */
  lemma SparedTheorem(perRound: nat, n: nat, ms: seq<Memory>, ts: seq<Turn>, replies: seq<Replying>,
                      askings: seq<seq<seq<nat>>>, need: nat, misses: nat, liars: set<nat>, id: Id, r: Recorded, k: nat)
    requires Working(perRound, ms, ts) && Answered(ms, ts, replies, askings, need, n) && k < |ts|
    requires forall i :: 0 <= i < |ts| ==> Apart(ts[i])
    requires |liars| <= need && (forall e :: e in liars ==> e < n)
    requires forall e :: 0 <= e < n && e !in liars ==> HonestOf(replies, e, id, r)
    requires misses * (need - |liars|) > n - |liars|
    ensures |ts[k].verdicts| <= |ts[k].Items()|
    ensures id !in GoneOf(ms[k].answers, ts[k].Items()[..|ts[k].verdicts|], ts[k].verdicts, misses)
  {
    hide HonestOf, HonestAt, Answered, Working, IsPage, RowOf, Apart, GoneOf, VerdictOf, Heard;
    TakesAt(perRound, ms, ts, k);
    var rows := Asks(n, ms, ts, replies, askings, need, id, |ts|);
    forall e | 0 <= e < n && e !in liars ensures HonestAt(rows, e, r) {
      HonestRows(n, ms, ts, replies, askings, need, id, e, r);
    }
    GoneBounded(rows, n, liars, need, r);
    Outweighed(Gones(Verdicts(rows, need)), misses, need - |liars|, n - |liars|);
    if id in GoneOf(ms[k].answers, ts[k].Items()[..|ts[k].verdicts|], ts[k].verdicts, misses) {
      GivenUpWasGone(perRound, n, ms, ts, replies, askings, need, misses, id, k);
      assert false;
    }
  }

  lemma Outweighed(gone: nat, misses: nat, each: nat, most: int)
    requires gone * each <= most < misses * each
    ensures gone < misses
  {
    if gone >= misses {
      Times(misses, gone, each);
    }
  }
}
