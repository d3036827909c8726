/** What a list of endpoints makes of a recorded transfer. */
module Finality {
  import opened Basics

  /** What one endpoint can say of a transfer recorded in a block. */
  datatype Said = Final | Waiting | Elsewhere | Gone

  datatype Verdict = Agreed(said: Said) | Disagreed | Unanswered

  /** Where a transfer was recorded. */
  datatype Recorded = Recorded(height: nat, hash: Hash)

  /** The places of the transfers a receipt carries; a transaction nobody holds carries none. None is no answer. */
  type Receipt = Option<seq<Recorded>>

  /** What one endpoint makes of it, from its receipt and then its final block, each of which may not come. */
  function Asked(receipt: Receipt, head: Option<nat>, r: Recorded): Option<Said> {
    if receipt.None? then None
    else if receipt.value == [] then Settled(head, r.height, Gone)
    else if receipt.value[0] != r then Some(Elsewhere)
    else Settled(head, r.height, Final)
  }

  function Settled(head: Option<nat>, height: nat, then_: Said): Option<Said> {
    match head
    case None => None
    case Some(final) => Some(if final < height then Waiting else then_)
  }

  datatype Answers = Answers(verdict: Verdict, answered: nat, agreed: nat, silent: seq<nat>)

  datatype AskError = NeedsNobody | NobodyToAsk

  datatype Result = Ok(answers: Answers) | Err(error: AskError)

  /** What was heard, in the order of the endpoints. */
  function Heard(replies: seq<Option<Said>>): seq<Said> {
    if replies == [] then []
    else Heard(replies[..|replies| - 1]) + match replies[|replies| - 1] {
      case None => []
      case Some(said) => [said]
    }
  }

  predicate AllAlike(heard: seq<Said>) { forall i :: 0 <= i < |heard| ==> heard[i] == heard[0] }

  /** The first of what was heard that settles anything: as many answers as agreement takes, if they came. */
  function Deciding(heard: seq<Said>, need: nat): seq<Said> { if |heard| < need then heard else heard[..need] }

  /** The verdict: alike and enough, alike and too few, or not alike. */
  function VerdictOf(heard: seq<Said>, need: nat): Verdict
    requires need >= 1
  {
    if !AllAlike(Deciding(heard, need)) then Disagreed
    else if |heard| < need then Unanswered
    else Agreed(heard[0])
  }

  /** The places among the first of a list that gave no answer. */
  function SilentIn(replies: seq<Option<Said>>, n: nat): seq<nat>
    requires n <= |replies|
  {
    if n == 0 then []
    else SilentIn(replies, n - 1) + if replies[n - 1].None? then [n - 1] else []
  }

  lemma HeardNext(replies: seq<Option<Said>>, n: nat)
    requires n < |replies|
    ensures Heard(replies[..n + 1]) == Heard(replies[..n]) + if replies[n].Some? then [replies[n].value] else []
  {
    assert replies[..n + 1][..n] == replies[..n];
  }

  lemma {:induction false} HeardGrows(replies: seq<Option<Said>>, n: nat)
    requires n <= |replies|
    ensures Heard(replies[..n]) <= Heard(replies)
    decreases |replies| - n
  {
    if n < |replies| {
      HeardNext(replies, n);
      HeardGrows(replies, n + 1);
    } else {
      assert replies[..n] == replies;
    }
  }

  /** What differs among the first deciding answers differs among all of them. */
  lemma DecidedEarly(heard: seq<Said>, more: seq<Said>, need: nat)
    requires need >= 1 && heard <= more && |heard| <= need
    requires !AllAlike(heard) || |heard| == need
    ensures VerdictOf(more, need) == VerdictOf(heard, need)
  {
    if !AllAlike(heard) {
      var i :| 0 <= i < |heard| && heard[i] != heard[0];
      assert Deciding(more, need)[i] != Deciding(more, need)[0];
    } else {
      assert more[..need] == heard;
    }
  }

  /** What was heard settles the verdict: it differs, or it is as much as agreement takes. */
  predicate Decisive(heard: seq<Said>, need: nat) { !AllAlike(heard) || |heard| >= need }

  /** How many are asked: up to the first answer that settles the verdict, or all of them. */
  ghost predicate AskedUpTo(replies: seq<Option<Said>>, need: nat, n: nat) {
    && n <= |replies|
    && (forall k :: 0 <= k < n ==> !Decisive(Heard(replies[..k]), need))
    && (n == |replies| || Decisive(Heard(replies[..n]), need))
  }

  lemma TooFew(heard: seq<Said>, need: nat)
    requires need >= 1 && AllAlike(heard) && |heard| < need
    ensures VerdictOf(heard, need) == Unanswered
  {
  }

  lemma OneSays(heard: seq<Said>, said: Said, need: nat)
    requires need >= 1 && AllAlike(heard) && |heard| < need
    ensures heard != [] && said != heard[0] ==>
              !AllAlike(heard + [said]) && VerdictOf(heard + [said], need) == Disagreed
    ensures heard == [] || said == heard[0] ==>
              AllSay(heard + [said], |heard| + 1, said) && AllAlike(heard + [said])
    ensures (heard == [] || said == heard[0]) && |heard| + 1 == need ==> VerdictOf(heard + [said], need) == Agreed(said)
  {
    var more := heard + [said];
    if heard != [] && said != heard[0] {
      assert more[|heard|] != more[0];
    } else {
      assert more[..|heard| + 1] == more;
    }
  }

  lemma NoneHeard()
    ensures Heard([]) == []
  {
  }

  /**
   Endpoints are asked in order until enough have said the same, or one says
   something else. The verdict is the one the whole list of answers has, however
   few of them were read; the endpoints that were asked in vain are named.
   */
  method Ask(replies: seq<Option<Said>>, need: nat) returns (r: Result, ghost asked: nat)
    ensures r.Err? <==> need < 1 || replies == []
    ensures r.Ok? ==>
              && AskedUpTo(replies, need, asked)
              && r.answers.verdict == VerdictOf(Heard(replies), need)
              && r.answers.silent == SilentIn(replies, asked)
              && r.answers.answered == |Heard(replies[..asked])|
              && (r.answers.verdict.Unanswered? ==> asked == |replies| && r.answers.agreed == r.answers.answered)
              && (!r.answers.verdict.Unanswered? ==> 0 < asked && replies[asked - 1].Some?)
              && (r.answers.verdict.Disagreed? ==> r.answers.agreed == 0 && AllAlike(Heard(replies[..asked - 1])))
              && (r.answers.verdict.Agreed? ==>
                    r.answers.agreed == need && AllSay(Heard(replies[..asked]), need, r.answers.verdict.said))
  {
    hide Heard, VerdictOf;
    asked := 0;
    if need < 1 {
      return Err(NeedsNobody), 0;
    }
    if replies == [] {
      return Err(NobodyToAsk), 0;
    }
    var answered, agreed := 0, 0;
    var verdict := Unanswered;
    var silent := [];
    NoneHeard();
    assert replies[..0] == [];
    for i := 0 to |replies|
      invariant asked == i
      invariant answered == agreed == |Heard(replies[..i])| < need
      invariant silent == SilentIn(replies, i)
      invariant AllAlike(Heard(replies[..i]))
      invariant forall k :: 0 <= k <= i ==> !Decisive(Heard(replies[..k]), need)
      invariant answered > 0 ==> verdict == Agreed(Heard(replies[..i])[0])
    {
      HeardNext(replies, i);
      asked := i + 1;
      if replies[i].None? {
        silent := silent + [i];
        continue;
      }
      answered := answered + 1;
      ghost var heard := Heard(replies[..i]);
      OneSays(heard, replies[i].value, need);
      HeardGrows(replies, i + 1);
      if answered == 1 {
        verdict := Agreed(replies[i].value);
      } else if Agreed(replies[i].value) != verdict {
        DecidedEarly(heard + [replies[i].value], Heard(replies), need);
        return Ok(Answers(Disagreed, answered, 0, silent)), asked;
      }
      agreed := agreed + 1;
      if agreed == need {
        DecidedEarly(heard + [replies[i].value], Heard(replies), need);
        return Ok(Answers(verdict, answered, agreed, silent)), asked;
      }
    }
    assert replies[..|replies|] == replies;
    TooFew(Heard(replies), need);
    verdict := Unanswered;
    return Ok(Answers(verdict, answered, agreed, silent)), asked;
  }

  // ---- endpoints that did not answer are asked nothing more

  /** Places in order, each below the next and the last below a bound. */
  predicate Climb(places: seq<nat>, bound: nat) {
    forall i :: 0 <= i < |places| ==> places[i] < NextOf(places, i, bound)
  }

  function NextOf(places: seq<nat>, i: int, bound: nat): nat {
    if 0 <= i + 1 < |places| then places[i + 1] else bound
  }

  lemma ClimbFront(places: seq<nat>, bound: nat)
    requires Climb(places, bound) && places != []
    ensures Climb(places[..|places| - 1], places[|places| - 1]) && places[|places| - 1] < bound
  {
    var front, last := places[..|places| - 1], |places| - 1;
    assert places[last] < NextOf(places, last, bound);
    forall i | 0 <= i < |front| ensures front[i] < NextOf(front, i, places[|places| - 1]) {
      assert places[i] < places[i + 1];
    }
  }

  lemma ClimbAppend(front: seq<nat>, n: nat, bound: nat)
    requires Climb(front, n) && n < bound
    ensures Climb(front + [n], bound)
  {
    var more := front + [n];
    forall i | 0 <= i < |more| ensures more[i] < NextOf(more, i, bound) {
      assert i < |front| ==> front[i] < NextOf(front, i, n);
    }
  }

  lemma ClimbWeaken(places: seq<nat>, n: nat, bound: nat)
    requires Climb(places, n) && n <= bound
    ensures Climb(places, bound)
  {
    forall i | 0 <= i < |places| ensures places[i] < NextOf(places, i, bound) {
      assert places[i] < NextOf(places, i, n);
    }
  }

  /** A list without the places named, which are named in order. */
  function Without<T>(list: seq<T>, places: seq<nat>): seq<T>
    requires Climb(places, |list|)
    decreases |places|
  {
    if places == [] then list
    else
      ClimbFront(places, |list|);
      var n := places[|places| - 1];
      Without(list[..n], places[..|places| - 1]) + list[n + 1..]
  }

  lemma {:induction false} SilentInOrder(replies: seq<Option<Said>>, n: nat)
    requires n <= |replies|
    ensures Climb(SilentIn(replies, n), n)
    ensures forall i :: 0 <= i < |SilentIn(replies, n)| ==>
              SilentIn(replies, n)[i] < |replies| && replies[SilentIn(replies, n)[i]].None?
  {
    if n > 0 {
      SilentInOrder(replies, n - 1);
      ClimbWeaken(SilentIn(replies, n - 1), n - 1, n);
      ClimbAppend(SilentIn(replies, n - 1), n - 1, n);
    }
  }

  lemma {:induction false} HeardOfBoth(a: seq<Option<Said>>, b: seq<Option<Said>>)
    ensures Heard(a + b) == Heard(a) + Heard(b)
  {
    if b == [] {
      assert a + b == a;
    } else {
      HeardOfBoth(a, b[..|b| - 1]);
      assert (a + b)[..|a + b| - 1] == a + b[..|b| - 1];
    }
  }

  lemma HeardNothing(replies: seq<Option<Said>>, n: nat)
    requires n < |replies| && replies[n].None?
    ensures Heard(replies[..n] + replies[n + 1..]) == Heard(replies)
  {
    hide Heard;
    var before, after := replies[..n], replies[n + 1..];
    HeardOfBoth(before, after);
    HeardNext(replies, n);
    HeardOfBoth(replies[..n + 1], after);
    assert replies == replies[..n + 1] + after;
  }

  /** Leaving out endpoints that said nothing leaves what was heard, and so every verdict, as it was. */
  lemma {:induction false} SilenceChangesNothing(replies: seq<Option<Said>>, silent: seq<nat>, need: nat)
    requires need >= 1 && Climb(silent, |replies|)
    requires forall i :: 0 <= i < |silent| ==> silent[i] < |replies| && replies[silent[i]].None?
    ensures Heard(Without(replies, silent)) == Heard(replies)
    ensures VerdictOf(Heard(Without(replies, silent)), need) == VerdictOf(Heard(replies), need)
    decreases |silent|
  {
    hide Heard, VerdictOf;
    if silent != [] {
      ClimbFront(silent, |replies|);
      var n := silent[|silent| - 1];
      var front := silent[..|silent| - 1];
      BelowBound(front, n);
      SilenceChangesNothing(replies[..n], front, need);
      HeardOfBoth(Without(replies[..n], front), replies[n + 1..]);
      HeardOfBoth(replies[..n], replies[n + 1..]);
      HeardNothing(replies, n);
    }
  }

  lemma {:induction false} BelowBound(places: seq<nat>, bound: nat)
    requires Climb(places, bound)
    ensures forall i :: 0 <= i < |places| ==> places[i] < bound
  {
    if places != [] {
      ClimbFront(places, bound);
      BelowBound(places[..|places| - 1], places[|places| - 1]);
      assert places == places[..|places| - 1] + [places[|places| - 1]];
    }
  }

  /** The places are deleted from the last to the first, so that none moves before its turn. */
  method Delete<T>(list: seq<T>, places: seq<nat>) returns (left: seq<T>)
    requires Climb(places, |list|)
    ensures left == Without(list, places)
  {
    left := list;
    var k := |places|;
    assert places[..k] == places;
    while k > 0
      invariant 0 <= k <= |places|
      invariant Climb(places[..k], |left|)
      invariant Without(left, places[..k]) == Without(list, places)
    {
      ghost var front := places[..k - 1];
      k := k - 1;
      var n := places[k];
      ClimbFront(places[..k + 1], |left|);
      assert places[..k + 1][..k] == front;
      DeleteLast(left, front, n);
      left := left[..n] + left[n + 1..];
    }
  }

  /** A place past every other one named can be deleted before them. */
  lemma DeleteLast<T>(list: seq<T>, front: seq<nat>, n: nat)
    requires n < |list| && Climb(front, n)
    ensures Climb(front, |list| - 1) && Climb(front + [n], |list|)
    ensures Without(list[..n] + list[n + 1..], front) == Without(list, front + [n])
  {
    assert (front + [n])[..|front|] == front;
    ClimbWeaken(front, n, |list| - 1);
    ClimbAppend(front, n, |list|);
    hide Climb;
    WithoutTail(list[..n], list[n + 1..], front);
  }

  /** Deleting from the front of a list leaves its tail alone. */
  lemma WithoutTail<T>(list: seq<T>, tail: seq<T>, places: seq<nat>)
    requires Climb(places, |list|)
    ensures Climb(places, |list + tail|)
    ensures Without(list + tail, places) == Without(list, places) + tail
  {
    if places != [] {
      ClimbFront(places, |list|);
      var m := places[|places| - 1];
      assert (list + tail)[..m] == list[..m];
      assert (list + tail)[m + 1..] == list[m + 1..] + tail;
      Reassociate(Without(list[..m], places[..|places| - 1]), list[m + 1..], tail);
    }
  }

  lemma Reassociate<T>(a: seq<T>, b: seq<T>, c: seq<T>)
    ensures a + (b + c) == (a + b) + c
  {
  }

  // ---- what a verdict rests on

  function Saying(replies: seq<Option<Said>>, said: Said): set<nat> {
    set i | 0 <= i < |replies| && replies[i] == Some(said)
  }

  lemma SayingNext(replies: seq<Option<Said>>, said: Said)
    requires replies != []
    ensures var n := |replies| - 1;
            |Saying(replies, said)| == |Saying(replies[..n], said)| + if replies[n] == Some(said) then 1 else 0
  {
    var n := |replies| - 1;
    if replies[n] == Some(said) {
      assert Saying(replies, said) == Saying(replies[..n], said) + {n};
    } else {
      assert Saying(replies, said) == Saying(replies[..n], said);
    }
  }

  lemma {:induction false} SayingCounted(replies: seq<Option<Said>>, said: Said)
    ensures |Saying(replies, said)| == multiset(Heard(replies))[said]
  {
    hide Heard, Saying;
    if replies == [] {
      NoneHeard();
      assert Saying(replies, said) == {} by { NoneSaying(said); }
    } else {
      var n := |replies| - 1;
      SayingCounted(replies[..n], said);
      SayingNext(replies, said);
      HeardNext(replies, n);
      assert replies[..n + 1] == replies;
    }
  }

  lemma NoneSaying(said: Said)
    ensures Saying([], said) == {}
  {
  }

  lemma {:induction false} AlikeCounted(heard: seq<Said>, said: Said)
    requires forall i :: 0 <= i < |heard| ==> heard[i] == said
    ensures multiset(heard)[said] == |heard|
  {
    if heard != [] {
      AlikeCounted(heard[..|heard| - 1], said);
      assert heard == heard[..|heard| - 1] + [said];
    }
  }

  /**
   A verdict is reached when as many endpoints as agreement takes said it and
   nobody asked before them said anything else.
   */
  lemma AgreedMeans(replies: seq<Option<Said>>, need: nat, said: Said)
    requires need >= 1
    ensures VerdictOf(Heard(replies), need) == Agreed(said)
            <==> exists n :: 0 <= n <= |replies| && AllSay(Heard(replies[..n]), need, said)
    ensures VerdictOf(Heard(replies), need) == Agreed(said) ==> |Saying(replies, said)| >= need
  {
    hide Heard;
    var heard := Heard(replies);
    if VerdictOf(heard, need) == Agreed(said) {
      HeardPrefix(replies, need);
      var n :| 0 <= n <= |replies| && Heard(replies[..n]) == heard[..need];
      assert AllSay(Heard(replies[..n]), need, said);
      EnoughSay(replies, need, said);
    }
    if n :| 0 <= n <= |replies| && AllSay(Heard(replies[..n]), need, said) {
      HeardGrows(replies, n);
      assert heard[..need] == Heard(replies[..n]);
    }
  }

  /** As many answers as agreement takes, and all of them the same. */
  predicate AllSay(heard: seq<Said>, need: nat, said: Said) {
    |heard| == need && forall i :: 0 <= i < |heard| ==> heard[i] == said
  }

  lemma EnoughSay(replies: seq<Option<Said>>, need: nat, said: Said)
    requires need >= 1 && VerdictOf(Heard(replies), need) == Agreed(said)
    ensures |Saying(replies, said)| >= need
  {
    hide Heard;
    var heard := Heard(replies);
    SayingCounted(replies, said);
    AlikeCounted(heard[..need], said);
    assert heard == heard[..need] + heard[need..];
  }

  lemma {:induction false} HeardPrefix(replies: seq<Option<Said>>, k: nat)
    requires k <= |Heard(replies)|
    ensures exists n :: 0 <= n <= |replies| && Heard(replies[..n]) == Heard(replies)[..k]
  {
    if k == |Heard(replies)| {
      assert replies[..|replies|] == replies;
      assert Heard(replies)[..k] == Heard(replies);
    } else {
      var front := replies[..|replies| - 1];
      HeardPrefix(front, k);
      var n :| 0 <= n <= |front| && Heard(front[..n]) == Heard(front)[..k];
      assert front[..n] == replies[..n];
    }
  }
}
