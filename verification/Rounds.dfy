/** Over any run of a worker's rounds: what a pass reaches, how counts grow, and what is never given up on. */
module Rounds {
  import opened Basics
  import opened Finality
  import opened Paging
  import opened Deciding
  import opened GivingUp

  /** A worker's rounds from when it is made: what it keeps between them, and each of them. */
  ghost predicate Working(perRound: nat, ms: seq<Memory>, ts: seq<Turn>) {
    && perRound >= 1 && |ms| == |ts| + 1
    && ms[0] == Memory(BEGINNING, BEGINNING, map[], map[])
    && forall i :: 0 <= i < |ts| ==> Takes(perRound, ms[i], ts[i]) && ms[i + 1] == AfterTurn(perRound, ms[i], ts[i])
  }

  /** A pass: the rounds from one swap of what is remembered to the next. */
  ghost predicate IsPass(perRound: nat, ts: seq<Turn>, a: nat, b: nat) {
    && a < b <= |ts| && (a == 0 || ts[a - 1].Swaps(perRound)) && ts[b - 1].Swaps(perRound)
    && forall k :: a <= k < b - 1 ==> !ts[k].Swaps(perRound)
  }

  /** The refunds fit one page in every round. */
  predicate RefundsFit(perRound: nat, ts: seq<Turn>, a: nat, b: nat)
    requires a <= b <= |ts|
  {
    forall k :: a <= k < b ==> |ts[k].returned| < perRound
  }

  /** A row that stays a candidate, alone at its spot. */
  ghost predicate StaysIn(ts: seq<Turn>, a: nat, b: nat, c: Listed)
    requires a <= b <= |ts|
  {
    && Before(BEGINNING, c.spot)
    && forall k :: a <= k < b ==> c in ts[k].candidates && forall d :: d in ts[k].candidates && d.spot == c.spot ==> d == c
  }

  /** A round that got through its page, with the row on it. */
  predicate Lists(t: Turn, c: Listed) { t.finished && c in t.page }

  lemma TakesAt(perRound: nat, ms: seq<Memory>, ts: seq<Turn>, k: nat)
    requires Working(perRound, ms, ts) && k < |ts|
    ensures |ms| == |ts| + 1 && Takes(perRound, ms[k], ts[k]) && ms[k + 1] == AfterTurn(perRound, ms[k], ts[k])
  {
  }

  lemma PassStarts(perRound: nat, ms: seq<Memory>, ts: seq<Turn>, a: nat, b: nat)
    requires Working(perRound, ms, ts) && IsPass(perRound, ts, a, b)
    ensures ms[a].from == BEGINNING && ms[a].pass == map[]
  {
    if a > 0 {
      TakesAt(perRound, ms, ts, a - 1);
    }
  }

  /** Until a round lists it, the next page starts before it. */
  lemma {:induction false} NotYet(perRound: nat, ms: seq<Memory>, ts: seq<Turn>, a: nat, b: nat, c: Listed, k: nat)
    requires Working(perRound, ms, ts) && IsPass(perRound, ts, a, b) && RefundsFit(perRound, ts, a, b) && StaysIn(ts, a, b, c)
    requires a <= k < b && forall j :: a <= j < k ==> !Lists(ts[j], c)
    ensures Before(ms[k].from, c.spot)
    decreases k
  {
    hide IsPage, Before, Working;
    if k == a {
      PassStarts(perRound, ms, ts, a, b);
    } else {
      NotYet(perRound, ms, ts, a, b, c, k - 1);
      TakesAt(perRound, ms, ts, k - 1);
      var t := ts[k - 1];
      if t.finished {
        LeftForNext(t.candidates, ms[k - 1].from, perRound, t.page, c);
      }
    }
  }

  /** Once a round has listed it, every later page of the pass starts at or after it. */
  lemma {:induction false} NotAgain(perRound: nat, ms: seq<Memory>, ts: seq<Turn>, a: nat, b: nat, c: Listed, i: nat, k: nat)
    requires Working(perRound, ms, ts) && IsPass(perRound, ts, a, b) && RefundsFit(perRound, ts, a, b)
    requires a <= i < k < b && Lists(ts[i], c)
    ensures !Before(ms[k].from, c.spot)
    decreases k
  {
    hide IsPage, Before, Working;
    TakesAt(perRound, ms, ts, k - 1);
    var t := ts[k - 1];
    if t.finished {
      PageEnds(t.candidates, ms[k - 1].from, perRound, t.page);
    }
    if i < k - 1 {
      NotAgain(perRound, ms, ts, a, b, c, i, k - 1);
      if t.finished {
        AfterAfter(c.spot, ms[k - 1].from, t.page[|t.page| - 1].spot);
      }
    }
  }

  /**
   In every pass while refunds fit one page, a row that stays a candidate, alone at
   its spot, is on the page of exactly one round that gets through.
   */
  lemma PassTheorem(perRound: nat, ms: seq<Memory>, ts: seq<Turn>, a: nat, b: nat, c: Listed)
    requires Working(perRound, ms, ts) && IsPass(perRound, ts, a, b) && RefundsFit(perRound, ts, a, b) && StaysIn(ts, a, b, c)
    ensures exists k :: a <= k < b && Lists(ts[k], c)
    ensures forall i, k :: a <= i < b && a <= k < b && Lists(ts[i], c) && Lists(ts[k], c) ==> i == k
  {
    if forall j :: a <= j < b - 1 ==> !Lists(ts[j], c) {
      NotYet(perRound, ms, ts, a, b, c, b - 1);
      TakesAt(perRound, ms, ts, b - 1);
      assert Lists(ts[b - 1], c);
    }
    hide Working;
    forall i, k | a <= i < k < b && Lists(ts[i], c) ensures !Lists(ts[k], c) {
      NotAgain(perRound, ms, ts, a, b, c, i, k);
      TakesAt(perRound, ms, ts, k);
    }
  }

  // ---- what a pass makes of what is remembered

  lemma {:induction false} PassKept(perRound: nat, ms: seq<Memory>, ts: seq<Turn>, k: nat)
    requires Working(perRound, ms, ts) && k < |ms|
    ensures OncePerPass(ms[k].answers, ms[k].pass)
    ensures forall id :: id in ms[k].answers ==> ms[k].answers[id].skip <= MAX_SKIP
  {
    hide Working, IsPage, Heeded, PassAfter, Outcome;
    if k == 0 {
      assert ms[0] == Memory(BEGINNING, BEGINNING, map[], map[]) by { StartsAt(perRound, ms, ts); }
    } else {
      PassKept(perRound, ms, ts, k - 1);
      Lengths(perRound, ms, ts);
      TakesAt(perRound, ms, ts, k - 1);
      var m, t := ms[k - 1], ts[k - 1];
      HearsOnce(m, t);
      if t.Swaps(perRound) {
        forall id | id in ms[k].answers ensures ms[k].answers[id].skip <= MAX_SKIP {
          assert MayBecome(Get(m.answers, id), Some(ms[k].answers[id]));
          SkipKept(Get(m.answers, id), Some(ms[k].answers[id]));
        }
      }
    }
  }

  lemma StartsAt(perRound: nat, ms: seq<Memory>, ts: seq<Turn>)
    requires Working(perRound, ms, ts)
    ensures ms[0] == Memory(BEGINNING, BEGINNING, map[], map[])
  {
  }

  lemma SkipKept(before: Option<Answer>, after: Option<Answer>)
    requires MayBecome(before, after) && (before.Some? ==> before.value.skip <= MAX_SKIP)
    ensures after.Some? ==> after.value.skip <= MAX_SKIP
  {
  }

  /** What was remembered when a pass began stands until it ends. */
  lemma {:induction false} AnswersStand(perRound: nat, ms: seq<Memory>, ts: seq<Turn>, a: nat, b: nat, k: nat)
    requires Working(perRound, ms, ts) && IsPass(perRound, ts, a, b) && a <= k < b
    ensures ms[k].answers == ms[a].answers
    decreases k
  {
    hide Working;
    if k > a {
      AnswersStand(perRound, ms, ts, a, b, k - 1);
      TakesAt(perRound, ms, ts, k - 1);
    }
  }

  /** A transfer that was dealt with is in what the pass has heard, if there was anything to remember. */
  lemma {:induction false} DealtIsHeard(answers: map<Id, Answer>, pass: map<Id, Answer>, items: seq<Listed>, verdicts: seq<Verdict>, id: Id)
    requires |verdicts| == |items|
    ensures forall other :: other in pass ==> other in PassAfter(answers, pass, items, verdicts)
    ensures id in answers && (exists i :: 0 <= i < |items| && IdOf(items[i]) == id) ==> id in PassAfter(answers, pass, items, verdicts)
  {
    if items != [] {
      var n := |items| - 1;
      DealtIsHeard(answers, pass, items[..n], verdicts[..n], id);
      if i :| 0 <= i < |items| && IdOf(items[i]) == id {
        if i < n {
          assert IdOf(items[..n][i]) == id;
        }
      }
    }
  }

  lemma {:induction false} HeardUntilEnd(perRound: nat, ms: seq<Memory>, ts: seq<Turn>, a: nat, b: nat, c: Listed, i: nat, k: nat)
    requires Working(perRound, ms, ts) && IsPass(perRound, ts, a, b) && a <= i < k <= b && Lists(ts[i], c)
    requires IdOf(c) in ms[a].answers
    ensures IdOf(c) in if k < b then ms[k].pass else ms[k].answers
    decreases k
  {
    hide Working, IsPage, PassAfter;
    TakesAt(perRound, ms, ts, k - 1);
    var m, t := ms[k - 1], ts[k - 1];
    var items := t.Items()[..|t.verdicts|];
    DealtIsHeard(m.answers, m.pass, items, t.verdicts, IdOf(c));
    if i == k - 1 {
      AnswersStand(perRound, ms, ts, a, b, i);
      var q :| 0 <= q < |t.page| && t.page[q] == c;
      assert items[q] == c;
    } else {
      HeardUntilEnd(perRound, ms, ts, a, b, c, i, k - 1);
    }
  }

  /**
   A pass that lists a transfer makes one step of what is remembered of it, so its
   count grows by at most one from swap to swap.
   */
  lemma PassBecomes(perRound: nat, ms: seq<Memory>, ts: seq<Turn>, a: nat, b: nat, c: Listed)
    requires Working(perRound, ms, ts) && IsPass(perRound, ts, a, b)
    requires exists i :: a <= i < b && Lists(ts[i], c)
    ensures MayBecome(Get(ms[a].answers, IdOf(c)), Get(ms[b].answers, IdOf(c)))
    ensures var before, after := Get(ms[a].answers, IdOf(c)), Get(ms[b].answers, IdOf(c));
            after.Some? ==> after.value.rounds <= (if before.Some? then before.value.rounds else 0) + 1
  {
    SwapHears(perRound, ms, ts, a, b);
    var i :| a <= i < b && Lists(ts[i], c);
    if IdOf(c) in ms[a].answers {
      HeardUntilEnd(perRound, ms, ts, a, b, c, i, b);
    }
    hide Working, IsPass, Lists, OncePerPass;
    Becomes(ms[a].answers, ms[b].answers, IdOf(c));
  }

  lemma SwapHears(perRound: nat, ms: seq<Memory>, ts: seq<Turn>, a: nat, b: nat)
    requires Working(perRound, ms, ts) && IsPass(perRound, ts, a, b)
    ensures |ms| == |ts| + 1 && OncePerPass(ms[a].answers, ms[b].answers)
  {
    hide Working, IsPage, OncePerPass, AfterTurn;
    Lengths(perRound, ms, ts);
    TakesAt(perRound, ms, ts, b - 1);
    AnswersStand(perRound, ms, ts, a, b, b - 1);
    OnceKept(perRound, ms, ts, b - 1);
    SwapOnce(perRound, ms[b - 1], ts[b - 1]);
  }

  lemma SwapOnce(perRound: nat, m: Memory, t: Turn)
    requires t.Swaps(perRound) && |t.verdicts| <= |t.Items()| && OncePerPass(m.answers, m.pass)
    ensures OncePerPass(m.answers, AfterTurn(perRound, m, t).answers)
  {
    hide OncePerPass, Hears;
    HearsOnce(m, t);
  }

  lemma OnceKept(perRound: nat, ms: seq<Memory>, ts: seq<Turn>, k: nat)
    requires Working(perRound, ms, ts) && k < |ms|
    ensures OncePerPass(ms[k].answers, ms[k].pass)
  {
    hide Working;
    PassKept(perRound, ms, ts, k);
  }

  lemma HearsOnce(m: Memory, t: Turn)
    requires |t.verdicts| <= |t.Items()| && OncePerPass(m.answers, m.pass)
    ensures OncePerPass(m.answers, Hears(m, t))
  {
    hide OncePerPass, PassAfter;
    PassCountsOnce(m.answers, m.pass, t.Items()[..|t.verdicts|], t.verdicts);
  }

  lemma Becomes(before: map<Id, Answer>, after: map<Id, Answer>, id: Id)
    requires OncePerPass(before, after) && (id in before ==> id in after)
    ensures MayBecome(Get(before, id), Get(after, id))
    ensures id in after ==> after[id].rounds <= (if id in before then before[id].rounds else 0) + 1
  {
    if id !in after {
      assert Outcome(None, Unanswered) == None;
    }
  }

  // ---- asked again

  /** Passes one after another. */
  ghost predicate InARow(perRound: nat, ts: seq<Turn>, marks: seq<nat>) {
    |marks| > 0 && forall j :: 0 < j < |marks| ==> IsPass(perRound, ts, marks[j - 1], marks[j])
  }

  lemma {:induction false} MarksClimb(perRound: nat, ts: seq<Turn>, marks: seq<nat>, i: nat, j: nat)
    requires InARow(perRound, ts, marks) && i <= j < |marks|
    ensures marks[i] <= marks[j] && (0 < j ==> marks[j] <= |ts|)
    decreases j
  {
    if j > 0 {
      assert IsPass(perRound, ts, marks[j - 1], marks[j]);
      if i < j {
        MarksClimb(perRound, ts, marks, i, j - 1);
      }
    }
  }

  /** What is remembered of a transfer at each of the swaps. */
  function History(ms: seq<Memory>, marks: seq<nat>, id: Id): seq<Option<Answer>>
    requires forall j :: 0 <= j < |marks| ==> marks[j] < |ms|
  {
    seq(|marks|, j requires 0 <= j < |marks| => Get(ms[marks[j]].answers, id))
  }

  /** A row that stays is put to the endpoints in one of any passes in a row, one more than the most it is left unasked. */
  lemma AskedWithin(perRound: nat, ms: seq<Memory>, ts: seq<Turn>, marks: seq<nat>, c: Listed)
    requires Working(perRound, ms, ts) && InARow(perRound, ts, marks) && |marks| == MAX_SKIP + 2
    requires marks[0] <= marks[MAX_SKIP + 1] <= |ts|
    requires RefundsFit(perRound, ts, marks[0], marks[MAX_SKIP + 1]) && StaysIn(ts, marks[0], marks[MAX_SKIP + 1], c)
    ensures exists k :: marks[0] <= k < marks[MAX_SKIP + 1] && Lists(ts[k], c) && !LeftUnasked(Get(ms[k].answers, IdOf(c)))
  {
    hide Working, Lists, LeftUnasked, Before;
    var last := MAX_SKIP + 1;
    forall j | 0 <= j <= last ensures marks[0] <= marks[j] <= marks[last] {
      MarksClimb(perRound, ts, marks, 0, j);
      MarksClimb(perRound, ts, marks, j, last);
    }
    assert |ms| == |ts| + 1 by { Lengths(perRound, ms, ts); }
    var history := History(ms, marks, IdOf(c));
    forall j | 0 < j <= last ensures MayBecome(history[j - 1], history[j]) {
      ListedInPass(perRound, ms, ts, marks, c, j);
      PassBecomes(perRound, ms, ts, marks[j - 1], marks[j], c);
    }
    PassKept(perRound, ms, ts, marks[0]);
    AskedAgain(history, 0);
    var j :| 0 <= j <= MAX_SKIP && !LeftUnasked(history[j]);
    ListedInPass(perRound, ms, ts, marks, c, j + 1);
    var k :| marks[j] <= k < marks[j + 1] && Lists(ts[k], c);
    AnswersStand(perRound, ms, ts, marks[j], marks[j + 1], k);
    assert marks[0] <= k < marks[last];
  }

  lemma Lengths(perRound: nat, ms: seq<Memory>, ts: seq<Turn>)
    requires Working(perRound, ms, ts)
    ensures |ms| == |ts| + 1
  {
  }

  lemma ListedInPass(perRound: nat, ms: seq<Memory>, ts: seq<Turn>, marks: seq<nat>, c: Listed, j: nat)
    requires Working(perRound, ms, ts) && InARow(perRound, ts, marks) && 0 < j < |marks|
    requires marks[0] <= marks[|marks| - 1] <= |ts|
    requires RefundsFit(perRound, ts, marks[0], marks[|marks| - 1]) && StaysIn(ts, marks[0], marks[|marks| - 1], c)
    ensures IsPass(perRound, ts, marks[j - 1], marks[j])
    ensures exists k :: marks[j - 1] <= k < marks[j] && Lists(ts[k], c)
  {
    hide Working, Lists, Before;
    MarksClimb(perRound, ts, marks, 0, j - 1);
    MarksClimb(perRound, ts, marks, j, |marks| - 1);
    PassTheorem(perRound, ms, ts, marks[j - 1], marks[j], c);
  }
}
