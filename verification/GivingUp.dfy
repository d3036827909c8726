/**
 No true transfer is given up on: an honest endpoint that only moves forward
 can say gone of one at most once, because it reads the receipt before the head.
 */
module GivingUp {
  import opened Basics
  import opened Finality

  /** What an endpoint would answer at one moment: its final block, and where the transaction's transfers are. */
  datatype View = View(final: nat, carried: seq<Recorded>)

  /** One asking: the receipt is read at one moment and the head at a later one. */
  datatype Visit = Visit(receipt: View, head: View)

  function Reply(visit: Option<Visit>, r: Recorded): Option<Said> {
    match visit
    case None => None
    case Some(v) => Asked(Some(v.receipt.carried), Some(v.head.final), r)
  }

  /** A view whose final block has reached the transfer's holds it where it was recorded: there is one final chain. */
  predicate HoldsFinal(v: View, r: Recorded) {
    v.final >= r.height ==> v.carried != [] && v.carried[0] == r
  }

  predicate HonestVisit(v: Visit, r: Recorded) {
    HoldsFinal(v.receipt, r) && HoldsFinal(v.head, r) && v.receipt.final <= v.head.final
  }

  /** An endpoint that only moves forward, asked once a pass where it is asked at all. */
  predicate Honest(visits: seq<Option<Visit>>, r: Recorded) {
    && (forall i :: 0 <= i < |visits| && visits[i].Some? ==> HonestVisit(visits[i].value, r))
    && (forall i, j :: 0 <= i < j < |visits| && visits[i].Some? && visits[j].Some? ==>
          visits[i].value.head.final <= visits[j].value.receipt.final)
  }

  /** Once it has said gone its final block is past the transfer, and it never says so again. */
  lemma GoneOnce(visits: seq<Option<Visit>>, r: Recorded, i: nat, j: nat)
    requires Honest(visits, r) && i < |visits| && j < |visits|
    requires Reply(visits[i], r) == Some(Gone) && Reply(visits[j], r) == Some(Gone)
    ensures i == j
  {
  }

  // ---- a pass at a time, over many endpoints

  /** What each endpoint replied in each pass. */
  type Passes = seq<seq<Option<Said>>>

  ghost predicate Of(passes: Passes, n: nat) { forall g :: 0 <= g < |passes| ==> |passes[g]| == n }

  /** One endpoint's replies are an honest one's. */
  ghost predicate HonestAt(passes: Passes, e: nat, r: Recorded) {
    exists visits: seq<Option<Visit>> ::
      && |visits| == |passes| && Honest(visits, r)
      && forall g :: 0 <= g < |passes| ==> e < |passes[g]| && passes[g][e] == Reply(visits[g], r)
  }

  function Verdicts(passes: Passes, need: nat): (vs: seq<Verdict>)
    requires need >= 1
    ensures |vs| == |passes|
  {
    seq(|passes|, g requires 0 <= g < |passes| => VerdictOf(Heard(passes[g]), need))
  }

  /** How many of a list of verdicts were that the transfer is gone. */
  function Gones(verdicts: seq<Verdict>): nat {
    if verdicts == [] then 0
    else Gones(verdicts[..|verdicts| - 1]) + if verdicts[|verdicts| - 1] == Agreed(Gone) then 1 else 0
  }

  /** The endpoints, of those that are honest, that ever said gone in the first passes. */
  ghost function EverGone(passes: Passes, n: nat, liars: set<nat>, k: nat): set<nat>
    requires Of(passes, n) && k <= |passes|
  {
    set e | 0 <= e < n && e !in liars && exists g :: 0 <= g < k && passes[g][e] == Some(Gone)
  }

  ghost predicate OnceEach(passes: Passes, n: nat, liars: set<nat>)
    requires Of(passes, n)
  {
    forall e, g, f ::
      (&& 0 <= e < n && e !in liars && 0 <= g < |passes| && 0 <= f < |passes|
       && passes[g][e] == Some(Gone) && passes[f][e] == Some(Gone))
      ==> g == f
  }

  lemma HonestOnceEach(passes: Passes, n: nat, liars: set<nat>, r: Recorded)
    requires Of(passes, n) && forall e :: 0 <= e < n && e !in liars ==> HonestAt(passes, e, r)
    ensures OnceEach(passes, n, liars)
  {
    forall e, g, f | 0 <= e < n && e !in liars && 0 <= g < |passes| && 0 <= f < |passes|
                     && passes[g][e] == Some(Gone) && passes[f][e] == Some(Gone)
      ensures g == f
    {
      assert HonestAt(passes, e, r);
      var visits: seq<Option<Visit>> :|
        && |visits| == |passes| && Honest(visits, r)
        && forall g :: 0 <= g < |passes| ==> e < |passes[g]| && passes[g][e] == Reply(visits[g], r);
      GoneOnce(visits, r, g, f);
    }
  }

  lemma Larger(big: set<nat>, a: set<nat>, b: set<nat>)
    requires a <= big && b <= big && a !! b
    ensures |big| >= |a| + |b|
  {
    assert big == a + b + (big - a - b);
    assert |a + b| == |a| + |b|;
  }

  lemma Minus(a: set<nat>, b: set<nat>)
    ensures |a - b| >= |a| - |b|
  {
    assert a == (a - b) + (a * b);
    Subset(a * b, b);
  }

  lemma Subset(a: set<nat>, b: set<nat>)
    requires a <= b
    ensures |a| <= |b|
  {
    assert b == a + (b - a);
  }

  /** A pass that called the transfer gone took new honest endpoints to say so. */
  lemma TakesNew(passes: Passes, n: nat, liars: set<nat>, need: nat, k: nat)
    requires Of(passes, n) && OnceEach(passes, n, liars) && need >= 1 && 0 < k <= |passes|
    requires VerdictOf(Heard(passes[k - 1]), need) == Agreed(Gone)
    ensures |EverGone(passes, n, liars, k)| >= |EverGone(passes, n, liars, k - 1)| + need - |liars|
  {
    AgreedMeans(passes[k - 1], need, Gone);
    hide VerdictOf, Heard;
    NewSayers(passes, n, liars, k);
    GoneGrows(passes, n, liars, k);
    hide OnceEach, EverGone, Saying;
    Minus(Saying(passes[k - 1], Gone), liars);
    Larger(EverGone(passes, n, liars, k), EverGone(passes, n, liars, k - 1), Saying(passes[k - 1], Gone) - liars);
  }

  lemma GoneGrows(passes: Passes, n: nat, liars: set<nat>, k: nat)
    requires Of(passes, n) && 0 < k <= |passes|
    ensures EverGone(passes, n, liars, k - 1) <= EverGone(passes, n, liars, k)
    ensures |EverGone(passes, n, liars, k - 1)| <= |EverGone(passes, n, liars, k)|
  {
    Subset(EverGone(passes, n, liars, k - 1), EverGone(passes, n, liars, k));
  }

  lemma {:induction false} EachTakesNew(passes: Passes, n: nat, liars: set<nat>, need: nat, k: nat)
    requires Of(passes, n) && OnceEach(passes, n, liars) && need >= 1 && |liars| <= need && k <= |passes|
    ensures Gones(Verdicts(passes, need)[..k]) * (need - |liars|) <= |EverGone(passes, n, liars, k)|
  {
    hide OnceEach, EverGone, VerdictOf, Heard;
    var verdicts := Verdicts(passes, need);
    if k > 0 {
      EachTakesNew(passes, n, liars, need, k - 1);
      assert verdicts[..k][..k - 1] == verdicts[..k - 1];
      assert verdicts[..k][k - 1] == VerdictOf(Heard(passes[k - 1]), need);
      GoneGrows(passes, n, liars, k);
      if verdicts[k - 1] == Agreed(Gone) {
        TakesNew(passes, n, liars, need, k);
        OneMore(Gones(verdicts[..k - 1]), need - |liars|);
      }
    }
  }

  lemma NewSayers(passes: Passes, n: nat, liars: set<nat>, k: nat)
    requires Of(passes, n) && OnceEach(passes, n, liars) && 0 < k <= |passes|
    ensures var newcomers := Saying(passes[k - 1], Gone) - liars;
            newcomers <= EverGone(passes, n, liars, k) && newcomers !! EverGone(passes, n, liars, k - 1)
  {
  }

  lemma OneMore(c: nat, d: nat)
    ensures (c + 1) * d == c * d + d
  {
  }

  function Everyone(n: nat): (s: set<nat>)
    ensures |s| == n && forall e :: e in s <==> 0 <= e < n
  {
    if n == 0 then {} else Everyone(n - 1) + {n - 1}
  }

  /**
   With some endpoints lying and the rest honest, the passes that call a true
   transfer gone, times the honest endpoints each of them takes, are at most
   the honest endpoints there are.
   */
  lemma GoneBounded(passes: Passes, n: nat, liars: set<nat>, need: nat, r: Recorded)
    requires Of(passes, n) && need >= 1 && |liars| <= need && (forall e :: e in liars ==> e < n)
    requires forall e :: 0 <= e < n && e !in liars ==> HonestAt(passes, e, r)
    ensures Gones(Verdicts(passes, need)) * (need - |liars|) <= n - |liars|
  {
    HonestOnceEach(passes, n, liars, r);
    EachTakesNew(passes, n, liars, need, |passes|);
    assert Verdicts(passes, need)[..|passes|] == Verdicts(passes, need);
    Larger(Everyone(n), EverGone(passes, n, liars, |passes|), liars);
  }

  // ---- the worker's count

  /** What is remembered of a transfer: the verdict, and how many passes in a row gave it. */
  datatype Remembered = Remembered(verdict: Verdict, rounds: nat)

  /** What a pass makes of it. Where too few answered nothing was said, and what is remembered stands. */
  function After(before: Option<Remembered>, verdict: Verdict): Option<Remembered> {
    if verdict == Unanswered then before
    else if before.Some? && before.value.verdict == verdict then Some(Remembered(verdict, before.value.rounds + 1))
    else Some(Remembered(verdict, 1))
  }

  function Counted(verdicts: seq<Verdict>): Option<Remembered> {
    if verdicts == [] then None
    else After(Counted(verdicts[..|verdicts| - 1]), verdicts[|verdicts| - 1])
  }

  /** A transfer is given up on when it was gone as many passes in a row as the setting says. */
  predicate GivenUp(verdicts: seq<Verdict>, misses: nat) {
    Counted(verdicts).Some? && Counted(verdicts).value.verdict == Agreed(Gone) && Counted(verdicts).value.rounds >= misses
  }

  lemma {:induction false} CountedAtMost(verdicts: seq<Verdict>)
    ensures Counted(verdicts).Some? && Counted(verdicts).value.verdict == Agreed(Gone) ==>
              Counted(verdicts).value.rounds <= Gones(verdicts)
  {
    if verdicts != [] {
      CountedAtMost(verdicts[..|verdicts| - 1]);
    }
  }

  lemma Times(a: nat, b: nat, d: nat)
    requires a <= b
    ensures a * d <= b * d
  {
  }

  /** A transfer on the final chain is not given up on, in any pass, where misses outweigh the honest endpoints. */
  lemma NeverGivenUp(passes: Passes, n: nat, liars: set<nat>, need: nat, misses: nat, r: Recorded)
    requires Of(passes, n) && need >= 1 && |liars| <= need && (forall e :: e in liars ==> e < n)
    requires forall e :: 0 <= e < n && e !in liars ==> HonestAt(passes, e, r)
    requires misses * (need - |liars|) > n - |liars|
    ensures !GivenUp(Verdicts(passes, need), misses)
  {
    var verdicts := Verdicts(passes, need);
    GoneBounded(passes, n, liars, need, r);
    CountedAtMost(verdicts);
    if misses <= Gones(verdicts) {
      Times(misses, Gones(verdicts), need - |liars|);
    }
  }

  /** The smallest setting is enough for a node of one's own. */
  lemma OwnNodeIsEnough(passes: Passes, r: Recorded)
    requires Of(passes, 1) && HonestAt(passes, 0, r)
    ensures !GivenUp(Verdicts(passes, 1), 2)
  {
    NeverGivenUp(passes, 1, {}, 1, 2, r);
  }

  // ---- and where they do not, there are honest endpoints that are read into giving up

  /** In each pass the next few endpoints answer, each crossing the height between its two answers; the rest are silent. */
  function Crossing(n: nat, need: nat, g: nat): seq<Option<Said>> {
    seq(n, e => if g * need <= e < (g + 1) * need then Some(Gone) else None)
  }

  function CrossingVisit(r: Recorded): Visit
    requires r.height > 0
  {
    Visit(View(r.height - 1, []), View(r.height, [r]))
  }

  lemma {:induction false} HeardCrossing(n: nat, need: nat, g: nat, k: nat)
    requires (g + 1) * need <= n && k <= n
    ensures var heard := Heard(Crossing(n, need, g)[..k]);
            && (forall i :: 0 <= i < |heard| ==> heard[i] == Gone)
            && |heard| == if k < g * need then 0 else if k < (g + 1) * need then k - g * need else need
  {
    OneMore(g, need);
    if k > 0 {
      HeardCrossing(n, need, g, k - 1);
      HeardNext(Crossing(n, need, g), k - 1);
    }
  }

  lemma CrossingIsGone(n: nat, need: nat, g: nat)
    requires need >= 1 && (g + 1) * need <= n
    ensures VerdictOf(Heard(Crossing(n, need, g)), need) == Agreed(Gone)
  {
    HeardCrossing(n, need, g, n);
    assert Crossing(n, need, g)[..n] == Crossing(n, need, g);
  }

  lemma {:induction false} AllGone(verdicts: seq<Verdict>)
    requires verdicts != [] && forall i :: 0 <= i < |verdicts| ==> verdicts[i] == Agreed(Gone)
    ensures Counted(verdicts) == Some(Remembered(Agreed(Gone), |verdicts|))
  {
    if |verdicts| > 1 {
      AllGone(verdicts[..|verdicts| - 1]);
    }
  }

  /** One group of endpoints to a pass, so no endpoint is in two. */
  lemma GroupOnce(need: nat, e: nat, g: nat, f: nat)
    requires g * need <= e < (g + 1) * need && f * need <= e < (f + 1) * need
    ensures g == f
  {
    if g < f {
      Times(g + 1, f, need);
    } else if f < g {
      Times(f + 1, g, need);
    }
  }

  function CrossingVisits(need: nat, misses: nat, e: nat, r: Recorded): seq<Option<Visit>>
    requires r.height > 0
  {
    seq(misses, g requires 0 <= g < misses =>
      if g * need <= e < (g + 1) * need then Some(CrossingVisit(r)) else None)
  }

  lemma CrossingHonest(n: nat, need: nat, misses: nat, e: nat, r: Recorded)
    requires r.height > 0 && e < n
    ensures HonestAt(seq(misses, g requires 0 <= g < misses => Crossing(n, need, g)), e, r)
  {
    var passes := seq(misses, g requires 0 <= g < misses => Crossing(n, need, g));
    var visits := CrossingVisits(need, misses, e, r);
    forall i, j | 0 <= i < |visits| && 0 <= j < |visits| && visits[i].Some? && visits[j].Some? ensures i == j {
      GroupOnce(need, e, i, j);
    }
    assert Honest(visits, r);
  }

  /** Where the misses, times what agreement takes, fit in the endpoints, honest ones can be read into giving up. */
  lemma CanBeGivenUp(n: nat, need: nat, misses: nat, r: Recorded)
    requires need >= 1 && misses >= 1 && r.height > 0 && misses * need <= n
    ensures exists passes: Passes ::
              && Of(passes, n) && (forall e :: 0 <= e < n ==> HonestAt(passes, e, r))
              && GivenUp(Verdicts(passes, need), misses)
  {
    var passes := seq(misses, g requires 0 <= g < misses => Crossing(n, need, g));
    forall e | 0 <= e < n ensures HonestAt(passes, e, r) {
      CrossingHonest(n, need, misses, e, r);
    }
    var verdicts := Verdicts(passes, need);
    forall g | 0 <= g < misses ensures verdicts[g] == Agreed(Gone) {
      Times(g + 1, misses, need);
      CrossingIsGone(n, need, g);
    }
    AllGone(verdicts);
    assert Of(passes, n);
  }

  /** With every endpoint honest, a true transfer is safe from being given up on exactly when the misses do not fit. */
  lemma GivingUpTheorem(n: nat, need: nat, misses: nat, r: Recorded)
    requires need >= 1 && misses >= 1 && r.height > 0
    ensures misses * need > n <==>
            forall passes: Passes ::
              Of(passes, n) && (forall e :: 0 <= e < n ==> HonestAt(passes, e, r)) ==>
                !GivenUp(Verdicts(passes, need), misses)
  {
    if misses * need > n {
      forall passes: Passes | Of(passes, n) && (forall e :: 0 <= e < n ==> HonestAt(passes, e, r))
        ensures !GivenUp(Verdicts(passes, need), misses)
      {
        NeverGivenUp(passes, n, {}, need, misses, r);
      }
    } else {
      CanBeGivenUp(n, need, misses, r);
    }
  }
}
