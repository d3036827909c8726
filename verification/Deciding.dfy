/** A worker's rounds: what the endpoints said of each transfer, kept from pass to pass. */
module Deciding {
  import opened Basics
  import opened Finality
  import opened Paging
  import GivingUp

  /** A transfer named the way its row is. */
  datatype Id = Id(key: Key, tx: nat)

  function IdOf(c: Listed): Id { Id(c.key, c.spot.tx) }

  /** What the endpoints said, how many passes in a row, and how many the transfer is left unasked for. */
  datatype Answer = Answer(verdict: Verdict, rounds: nat, skip: nat)

  const MAX_SKIP: nat := 60

  predicate LeftUnasked(before: Option<Answer>) { before.Some? && before.value.verdict == Disagreed && before.value.skip > 0 }

  function Least(a: nat, b: nat): nat { if a < b then a else b }

  /** What an answer makes of what is remembered. Where too few answered, what is remembered stands. */
  function Heeded(before: Option<Answer>, verdict: Verdict): Option<Answer> {
    if verdict == Unanswered then before
    else
      var rounds := if before.Some? && before.value.verdict == verdict then before.value.rounds + 1 else 1;
      Some(Answer(verdict, rounds, if verdict == Disagreed then Least(rounds, MAX_SKIP) else 0))
  }

  function Outcome(before: Option<Answer>, verdict: Verdict): Option<Answer> {
    if LeftUnasked(before) then Some(before.value.(skip := before.value.skip - 1)) else Heeded(before, verdict)
  }

  function Get(m: map<Id, Answer>, id: Id): Option<Answer> { if id in m then Some(m[id]) else None }

  function Keep(pass: map<Id, Answer>, id: Id, outcome: Option<Answer>): map<Id, Answer> {
    if outcome.Some? then pass[id := outcome.value] else pass
  }

  /** What a pass has heard after a list of transfers was put to the endpoints. */
  function PassAfter(answers: map<Id, Answer>, pass: map<Id, Answer>, items: seq<Listed>, verdicts: seq<Verdict>): map<Id, Answer>
    requires |verdicts| == |items|
  {
    if items == [] then pass
    else
      var n := |items| - 1;
      Keep(PassAfter(answers, pass, items[..n], verdicts[..n]), IdOf(items[n]),
           Outcome(Get(answers, IdOf(items[n])), verdicts[n]))
  }

  /** A transfer is given up on at its last miss, and settled on the first final verdict and every one after it. */
  predicate GivesUp(answers: map<Id, Answer>, c: Listed, verdict: Verdict, misses: nat) {
    var before := Get(answers, IdOf(c));
    !LeftUnasked(before) && verdict == Agreed(Gone) && Heeded(before, verdict).value.rounds >= misses
  }

  predicate Settles(answers: map<Id, Answer>, c: Listed, verdict: Verdict) {
    !LeftUnasked(Get(answers, IdOf(c))) && verdict == Agreed(Final)
  }

  function Replies(asking: seq<nat>, reply: (nat, Id) -> Option<Said>, id: Id): (r: seq<Option<Said>>)
    ensures |r| == |asking|
  {
    seq(|asking|, i requires 0 <= i < |asking| => reply(asking[i], id))
  }

  /** The endpoints left for the next transfer: those that were asked about this one and said nothing are gone. */
  ghost predicate LeftToAsk(asking: seq<nat>, next: seq<nat>, reply: (nat, Id) -> Option<Said>, id: Id, need: nat) {
    exists n ::
      && AskedUpTo(Replies(asking, reply, id), need, n) && Climb(SilentIn(Replies(asking, reply, id), n), |asking|)
      && next == Without(asking, SilentIn(Replies(asking, reply, id), n))
  }

  /** As many of the endpoints that were put the question as agreement takes said it, and none asked before them said otherwise. */
  ghost predicate EnoughSaid(asking: seq<nat>, reply: (nat, Id) -> Option<Said>, id: Id, need: nat, said: Said) {
    exists n :: 0 <= n <= |asking| && AllSay(Heard(Replies(asking, reply, id)[..n]), need, said)
  }

  /** The transfers a round gives up on. */
  function GoneOf(answers: map<Id, Answer>, items: seq<Listed>, verdicts: seq<Verdict>, misses: nat): set<Id>
    requires |verdicts| == |items|
  {
    if items == [] then {}
    else
      var n := |items| - 1;
      GoneOf(answers, items[..n], verdicts[..n], misses)
      + if GivesUp(answers, items[n], verdicts[n], misses) then {IdOf(items[n])} else {}
  }

  /** The transfers a round settles on. */
  function FinalOf(answers: map<Id, Answer>, items: seq<Listed>, verdicts: seq<Verdict>): set<Id>
    requires |verdicts| == |items|
  {
    if items == [] then {}
    else
      var n := |items| - 1;
      FinalOf(answers, items[..n], verdicts[..n])
      + if Settles(answers, items[n], verdicts[n]) then {IdOf(items[n])} else {}
  }

  /** A transfer was called gone in as many passes in a row as leaves one for now. */
  predicate CalledGoneBefore(answers: map<Id, Answer>, id: Id, misses: nat) {
    misses <= 1 || (id in answers && answers[id].verdict == Agreed(Gone) && answers[id].rounds + 1 >= misses)
  }

  /** A transfer is given up on when it was called gone as many passes in a row as the setting says, and not before. */
  lemma {:induction false} GoneExactly(answers: map<Id, Answer>, items: seq<Listed>, verdicts: seq<Verdict>, misses: nat, id: Id)
    requires |verdicts| == |items|
    ensures id in GoneOf(answers, items, verdicts, misses) <==>
            && CalledGoneBefore(answers, id, misses)
            && exists i :: 0 <= i < |items| && IdOf(items[i]) == id && !LeftUnasked(Get(answers, id)) && verdicts[i] == Agreed(Gone)
  {
    if items != [] {
      var n := |items| - 1;
      GoneExactly(answers, items[..n], verdicts[..n], misses, id);
      if i :| 0 <= i < |items| && IdOf(items[i]) == id && verdicts[i] == Agreed(Gone) {
        if i < n {
          assert IdOf(items[..n][i]) == id && verdicts[..n][i] == Agreed(Gone);
        }
      }
    }
  }

  /** A transfer is settled on when it was put to the endpoints and called final. */
  lemma {:induction false} FinalExactly(answers: map<Id, Answer>, items: seq<Listed>, verdicts: seq<Verdict>, id: Id)
    requires |verdicts| == |items|
    ensures id in FinalOf(answers, items, verdicts) <==>
            exists i :: 0 <= i < |items| && IdOf(items[i]) == id && !LeftUnasked(Get(answers, id)) && verdicts[i] == Agreed(Final)
  {
    if items != [] {
      var n := |items| - 1;
      FinalExactly(answers, items[..n], verdicts[..n], id);
      if i :| 0 <= i < |items| && IdOf(items[i]) == id && verdicts[i] == Agreed(Final) {
        if i < n {
          assert IdOf(items[..n][i]) == id && verdicts[..n][i] == Agreed(Final);
        }
      }
    }
  }

  /**
   What a round reports: the verdict on each transfer it dealt with, those to give
   up on and to settle, whether it was short, and whether it got through.
   */
  datatype Report = Report(verdicts: seq<Verdict>, gone: set<Id>, final: set<Id>, short: bool, finished: bool)

  // ---- one round

  /** What a worker keeps from round to round: where the next pages start, and what was said last pass and this one. */
  datatype Memory = Memory(from: Spot, back: Spot, answers: map<Id, Answer>, pass: map<Id, Answer>)

  /**
   One round: the rows there were, the page read of each list, the verdicts on
   those it dealt with, and whether anything it called failed on the way.
   */
  datatype Turn = Turn(
    candidates: set<Listed>, refunds: set<Listed>, page: seq<Listed>, returned: seq<Listed>,
    verdicts: seq<Verdict>, finished: bool)
  {
    function Items(): seq<Listed> { page + returned }

    /** Both lists came to their end. */
    predicate Swaps(perRound: nat) { finished && |page| < perRound && |returned| < perRound }
  }

  ghost predicate Takes(perRound: nat, m: Memory, t: Turn) {
    && IsPage(t.candidates, m.from, perRound, t.page) && IsPage(t.refunds, m.back, perRound, t.returned)
    && |t.verdicts| <= |t.Items()| && (t.finished ==> |t.verdicts| == |t.Items()|)
  }

  /** What a round has heard when it ends, whether it got through or not. */
  function Hears(m: Memory, t: Turn): map<Id, Answer>
    requires |t.verdicts| <= |t.Items()|
  {
    PassAfter(m.answers, m.pass, t.Items()[..|t.verdicts|], t.verdicts)
  }

  /** A round that failed keeps what it heard and reads the same pages again. */
  function AfterTurn(perRound: nat, m: Memory, t: Turn): Memory
    requires |t.verdicts| <= |t.Items()|
  {
    if !t.finished then m.(pass := Hears(m, t))
    else
      var next := m.(from := NextFrom(t.page, perRound), back := NextFrom(t.returned, perRound));
      if t.Swaps(perRound) then next.(answers := Hears(m, t), pass := map[]) else next.(pass := Hears(m, t))
  }

  /** What the endpoints left to ask say of each transfer, those that are left unasked aside. */
  ghost predicate Told(
    answers: map<Id, Answer>, items: seq<Listed>, verdicts: seq<Verdict>, askings: seq<seq<nat>>,
    reply: (nat, Id) -> Option<Said>, need: nat)
    requires need >= 1
  {
    && |verdicts| <= |items| && |askings| == |verdicts| + 1
    && forall i :: 0 <= i < |verdicts| ==>
         PutOrLeft(answers, IdOf(items[i]), verdicts[i], askings[i], askings[i + 1], reply, need)
  }

  /** A transfer is left unasked with everybody left for the next, or is put to those left to ask. */
  ghost predicate PutOrLeft(
    answers: map<Id, Answer>, id: Id, verdict: Verdict, asking: seq<nat>, next: seq<nat>, reply: (nat, Id) -> Option<Said>, need: nat)
    requires need >= 1
  {
    if LeftUnasked(Get(answers, id)) then next == asking
    else LeftToAsk(asking, next, reply, id, need) && verdict == VerdictOf(Heard(Replies(asking, reply, id)), need)
  }

  /** A transfer was put to the endpoints, and enough of them said this. */
  ghost predicate PutAndSaid(
    answers: map<Id, Answer>, items: seq<Listed>, dealt: nat, askings: seq<seq<nat>>, reply: (nat, Id) -> Option<Said>, need: nat,
    id: Id, said: Said)
    requires dealt <= |items| && dealt <= |askings|
  {
    exists i ::
      && 0 <= i < dealt && IdOf(items[i]) == id && !LeftUnasked(Get(answers, id))
      && EnoughSaid(askings[i], reply, id, need, said)
  }

  lemma SaidIsHeard(
    answers: map<Id, Answer>, items: seq<Listed>, verdicts: seq<Verdict>, askings: seq<seq<nat>>,
    reply: (nat, Id) -> Option<Said>, need: nat, id: Id, said: Said)
    requires need >= 1 && Told(answers, items, verdicts, askings, reply, need)
    ensures PutAndSaid(answers, items, |verdicts|, askings, reply, need, id, said) <==>
            exists i ::
              0 <= i < |verdicts| && IdOf(items[i]) == id && !LeftUnasked(Get(answers, id)) && verdicts[i] == Agreed(said)
  {
    hide LeftUnasked, VerdictOf, Heard, LeftToAsk, AllSay;
    forall i | 0 <= i < |verdicts| && IdOf(items[i]) == id && !LeftUnasked(Get(answers, id))
      ensures EnoughSaid(askings[i], reply, id, need, said) <==> verdicts[i] == Agreed(said)
    {
      assert PutOrLeft(answers, IdOf(items[i]), verdicts[i], askings[i], askings[i + 1], reply, need);
      AgreedMeans(Replies(askings[i], reply, id), need, said);
    }
  }

  /** What a round reports of one transfer is what the endpoints said of it. */
  lemma ReportsWhatWasSaid(
    answers: map<Id, Answer>, items: seq<Listed>, verdicts: seq<Verdict>, askings: seq<seq<nat>>,
    reply: (nat, Id) -> Option<Said>, need: nat, misses: nat, id: Id)
    requires need >= 1 && Told(answers, items, verdicts, askings, reply, need)
    ensures id in FinalOf(answers, items[..|verdicts|], verdicts)
            <==> PutAndSaid(answers, items, |verdicts|, askings, reply, need, id, Final)
    ensures id in GoneOf(answers, items[..|verdicts|], verdicts, misses) <==>
              && PutAndSaid(answers, items, |verdicts|, askings, reply, need, id, Gone)
              && CalledGoneBefore(answers, id, misses)
  {
    var dealt := items[..|verdicts|];
    FinalExactly(answers, dealt, verdicts, id);
    GoneExactly(answers, dealt, verdicts, misses, id);
    SaidIsHeard(answers, items, verdicts, askings, reply, need, id, Final);
    SaidIsHeard(answers, items, verdicts, askings, reply, need, id, Gone);
    hide Told, FinalOf, GoneOf, PutAndSaid, LeftUnasked;
    assert forall i :: 0 <= i < |verdicts| ==> dealt[i] == items[i];
  }

  /** What one transfer more adds to each. */
  lemma OneMore(answers: map<Id, Answer>, pass: map<Id, Answer>, items: seq<Listed>, verdicts: seq<Verdict>, verdict: Verdict, misses: nat)
    requires |verdicts| < |items|
    ensures var i := |verdicts|;
            && PassAfter(answers, pass, items[..i + 1], verdicts + [verdict])
               == Keep(PassAfter(answers, pass, items[..i], verdicts), IdOf(items[i]), Outcome(Get(answers, IdOf(items[i])), verdict))
            && GoneOf(answers, items[..i + 1], verdicts + [verdict], misses)
               == GoneOf(answers, items[..i], verdicts, misses)
                  + (if GivesUp(answers, items[i], verdict, misses) then {IdOf(items[i])} else {})
            && FinalOf(answers, items[..i + 1], verdicts + [verdict])
               == FinalOf(answers, items[..i], verdicts) + (if Settles(answers, items[i], verdict) then {IdOf(items[i])} else {})
  {
    var i := |verdicts|;
    assert items[..i + 1][..i] == items[..i] && (verdicts + [verdict])[..i] == verdicts;
  }

  lemma NothingYet(
    answers: map<Id, Answer>, pass: map<Id, Answer>, items: seq<Listed>, endpoints: seq<nat>,
    reply: (nat, Id) -> Option<Said>, need: nat, misses: nat)
    requires need >= 1
    ensures Told(answers, items, [], [endpoints], reply, need)
    ensures items[..0] == [] && PassAfter(answers, pass, [], []) == pass
    ensures GoneOf(answers, [], [], misses) == {} && FinalOf(answers, [], []) == {}
  {
  }

  lemma ToldMore(
    answers: map<Id, Answer>, items: seq<Listed>, verdicts: seq<Verdict>, askings: seq<seq<nat>>,
    reply: (nat, Id) -> Option<Said>, need: nat, verdict: Verdict, left: seq<nat>)
    requires need >= 1 && Told(answers, items, verdicts, askings, reply, need) && |verdicts| < |items|
    requires var i := |verdicts|;
             PutOrLeft(answers, IdOf(items[i]), verdict, askings[i], left, reply, need)
    ensures Told(answers, items, verdicts + [verdict], askings + [left], reply, need)
  {
  }

  lemma ReportsAll(
    answers: map<Id, Answer>, items: seq<Listed>, verdicts: seq<Verdict>, askings: seq<seq<nat>>,
    reply: (nat, Id) -> Option<Said>, need: nat, misses: nat)
    requires need >= 1 && Told(answers, items, verdicts, askings, reply, need)
    ensures forall id ::
              id in FinalOf(answers, items[..|verdicts|], verdicts)
              <==> PutAndSaid(answers, items, |verdicts|, askings, reply, need, id, Final)
    ensures forall id ::
              id in GoneOf(answers, items[..|verdicts|], verdicts, misses) <==>
                && PutAndSaid(answers, items, |verdicts|, askings, reply, need, id, Gone)
                && CalledGoneBefore(answers, id, misses)
  {
    hide FinalOf, GoneOf, PutAndSaid, CalledGoneBefore, PutOrLeft;
    forall id
      ensures id in FinalOf(answers, items[..|verdicts|], verdicts)
              <==> PutAndSaid(answers, items, |verdicts|, askings, reply, need, id, Final)
      ensures id in GoneOf(answers, items[..|verdicts|], verdicts, misses) <==>
                && PutAndSaid(answers, items, |verdicts|, askings, reply, need, id, Gone)
                && CalledGoneBefore(answers, id, misses)
    {
      ReportsWhatWasSaid(answers, items, verdicts, askings, reply, need, misses, id);
    }
  }

  class Worker {
    const need: nat
    const misses: nat
    const perRound: nat
    var from: Spot
    var back: Spot
    var answers: map<Id, Answer>
    var pass: map<Id, Answer>

    function Kept(): Memory
      reads this
    {
      Memory(from, back, answers, pass)
    }

    constructor (need: nat, misses: nat, perRound: nat)
      ensures this.need == need && this.misses == misses && this.perRound == perRound
      ensures Kept() == Memory(BEGINNING, BEGINNING, map[], map[])
    {
      this.need, this.misses, this.perRound := need, misses, perRound;
      from, back, answers, pass := BEGINNING, BEGINNING, map[], map[];
    }

    /** One transfer is put to the endpoints that are left. */
    method Put(asking: seq<nat>, reply: (nat, Id) -> Option<Said>, id: Id) returns (verdict: Verdict, left: seq<nat>)
      requires need >= 1
      ensures verdict == VerdictOf(Heard(Replies(asking, reply, id)), need)
      ensures LeftToAsk(asking, left, reply, id, need)
    {
      var replies := Replies(asking, reply, id);
      if |asking| == 0 {
        NoneHeard();
        assert AskedUpTo(replies, need, 0) && Without(asking, SilentIn(replies, 0)) == asking;
        return Unanswered, asking;
      }
      var said, n := Ask(replies, need);
      SilentInOrder(replies, n);
      ClimbWeaken(SilentIn(replies, n), n, |asking|);
      left := Delete(asking, said.answers.silent);
      return said.answers.verdict, left;
    }

    /** One transfer of a round: left unasked, or put to the endpoints and what they said written down. */
    method Decide(c: Listed, asking: seq<nat>, reply: (nat, Id) -> Option<Said>)
      returns (verdict: Verdict, left: seq<nat>, gone: bool, final: bool, short: bool)
      requires need >= 1
      modifies this`pass
      ensures PutOrLeft(answers, IdOf(c), verdict, asking, left, reply, need)
      ensures pass == Keep(old(pass), IdOf(c), Outcome(Get(answers, IdOf(c)), verdict))
      ensures gone == GivesUp(answers, c, verdict, misses) && final == Settles(answers, c, verdict)
      ensures final <==> !LeftUnasked(Get(answers, IdOf(c))) && EnoughSaid(asking, reply, IdOf(c), need, Final)
      ensures short == (!LeftUnasked(Get(answers, IdOf(c))) && verdict == Unanswered)
    {
      var id := IdOf(c);
      var before := Get(answers, id);
      if LeftUnasked(before) {
        pass := pass[id := before.value.(skip := before.value.skip - 1)];
        return Unanswered, asking, false, false, false;
      }
      verdict, left := Put(asking, reply, id);
      AgreedMeans(Replies(asking, reply, id), need, Final);
      if verdict == Unanswered {
        if before.Some? {
          pass := pass[id := before.value];
        }
        return verdict, left, false, false, true;
      }
      var now := Heeded(before, verdict).value;
      pass := pass[id := now];
      return verdict, left, verdict == Agreed(Gone) && now.rounds >= misses, verdict == Agreed(Final), false;
    }

    /** The first transfers of a list, one after another, each put to the endpoints that are left. */
    method PutAll(items: seq<Listed>, dealt: nat, endpoints: seq<nat>, reply: (nat, Id) -> Option<Said>)
      returns (verdicts: seq<Verdict>, ghost askings: seq<seq<nat>>, gone: set<Id>, final: set<Id>, short: bool)
      requires need >= 1 && dealt <= |items|
      modifies this`pass
      ensures |verdicts| == dealt && Told(answers, items, verdicts, askings, reply, need) && askings[0] == endpoints
      ensures pass == PassAfter(answers, old(pass), items[..dealt], verdicts)
      ensures gone == GoneOf(answers, items[..dealt], verdicts, misses)
      ensures final == FinalOf(answers, items[..dealt], verdicts)
      ensures short <==> exists i :: 0 <= i < dealt && verdicts[i] == Unanswered && !LeftUnasked(Get(answers, IdOf(items[i])))
    {
      var asking := endpoints;
      askings := [endpoints];
      verdicts, gone, final, short := [], {}, {}, false;
      hide Heeded, Outcome, VerdictOf, Heard, LeftToAsk, GivesUp, Settles, PassAfter, GoneOf, FinalOf, Told,
           LeftUnasked, PutOrLeft, EnoughSaid;
      NothingYet(answers, pass, items, endpoints, reply, need, misses);
      for i := 0 to dealt
        invariant |verdicts| == i && |askings| == i + 1 && askings[0] == endpoints && askings[i] == asking
        invariant Told(answers, items, verdicts, askings, reply, need)
        invariant pass == PassAfter(answers, old(pass), items[..i], verdicts)
        invariant gone == GoneOf(answers, items[..i], verdicts, misses)
        invariant final == FinalOf(answers, items[..i], verdicts)
        invariant short <==> exists k :: 0 <= k < i && verdicts[k] == Unanswered && !LeftUnasked(Get(answers, IdOf(items[k])))
      {
        var verdict, left, isGone, isFinal, isShort := Decide(items[i], asking, reply);
        OneMore(answers, old(pass), items, verdicts, verdict, misses);
        ToldMore(answers, items, verdicts, askings, reply, need, verdict, left);
        asking := left;
        verdicts := verdicts + [verdict];
        askings := askings + [asking];
        gone := gone + if isGone then {IdOf(items[i])} else {};
        final := final + if isFinal then {IdOf(items[i])} else {};
        short := short || isShort;
      }
    }

    /**
     One round over the transfers of two pages, read from where the last round left
     off. Whatever it calls may fail, after any number of them were dealt with.
     What a pass hears replaces what the last one heard when both lists came to
     their end in one round.
     */
    method Round(
      ghost candidates: set<Listed>, ghost refunds: set<Listed>, page: seq<Listed>, returned: seq<Listed>,
      endpoints: seq<nat>, reply: (nat, Id) -> Option<Said>, fails: Option<nat>)
      returns (r: Option<Report>, ghost turn: Turn, ghost askings: seq<seq<nat>>)
      requires IsPage(candidates, from, perRound, page) && IsPage(refunds, back, perRound, returned)
      modifies this`from, this`back, this`answers, this`pass
      ensures r.None? <==> misses < 1 || need < 1
      ensures r.None? ==> unchanged(this)
      ensures r.Some? ==>
                && turn == Turn(candidates, refunds, page, returned, r.value.verdicts, r.value.finished)
                && r.value.finished == fails.None?
                && (fails.Some? ==> |r.value.verdicts| == Least(fails.value, |page| + |returned|))
                && Takes(perRound, old(Kept()), turn) && Kept() == AfterTurn(perRound, old(Kept()), turn)
                && Told(old(answers), turn.Items(), r.value.verdicts, askings, reply, need) && askings[0] == endpoints
                && r.value.gone == GoneOf(old(answers), turn.Items()[..|turn.verdicts|], turn.verdicts, misses)
                && r.value.final == FinalOf(old(answers), turn.Items()[..|turn.verdicts|], turn.verdicts)
      ensures r.Some? ==> forall id ::
                id in r.value.final <==>
                  PutAndSaid(old(answers), page + returned, |r.value.verdicts|, askings, reply, need, id, Final)
      ensures r.Some? ==> forall id ::
                id in r.value.gone <==>
                  && PutAndSaid(old(answers), page + returned, |r.value.verdicts|, askings, reply, need, id, Gone)
                  && CalledGoneBefore(old(answers), id, misses)
      ensures r.Some? ==>
                (r.value.short <==>
                  exists i ::
                    && 0 <= i < |r.value.verdicts| && r.value.verdicts[i] == Unanswered
                    && !LeftUnasked(Get(old(answers), IdOf((page + returned)[i]))))
    {
      askings := [endpoints];
      turn := Turn(candidates, refunds, page, returned, [], false);
      if misses < 1 || need < 1 {
        return None, turn, askings;
      }
      var items := page + returned;
      var dealt := if fails.Some? then Least(fails.value, |items|) else |items|;
      var verdicts, gone, final, short;
      verdicts, askings, gone, final, short := PutAll(items, dealt, endpoints, reply);
      hide PassAfter, GoneOf, FinalOf, Told, LeftUnasked, IsPage, PutAndSaid, CalledGoneBefore;
      turn := Turn(candidates, refunds, page, returned, verdicts, fails.None?);
      ReportsAll(answers, items, verdicts, askings, reply, need, misses);
      if fails.Some? {
        return Some(Report(verdicts, gone, final, short, false)), turn, askings;
      }
      from := NextFrom(page, perRound);
      back := NextFrom(returned, perRound);
      if |page| < perRound && |returned| < perRound {
        answers, pass := pass, map[];
      }
      return Some(Report(verdicts, gone, final, short, true)), turn, askings;
    }
  }

  // ---- what is remembered over passes

  /** However often a transfer comes up in a pass, it is counted from what the last pass left, so once. */
  ghost predicate OncePerPass(answers: map<Id, Answer>, pass: map<Id, Answer>) {
    forall id :: id in pass ==> MayBecome(Get(answers, id), Some(pass[id]))
  }

  ghost predicate MayBecome(before: Option<Answer>, after: Option<Answer>) {
    exists verdict :: after == Outcome(before, verdict)
  }

  lemma {:induction false} PassCountsOnce(answers: map<Id, Answer>, pass: map<Id, Answer>, items: seq<Listed>, verdicts: seq<Verdict>)
    requires |verdicts| == |items| && OncePerPass(answers, pass)
    ensures OncePerPass(answers, PassAfter(answers, pass, items, verdicts))
  {
    if items != [] {
      var n := |items| - 1;
      PassCountsOnce(answers, pass, items[..n], verdicts[..n]);
      assert Outcome(Get(answers, IdOf(items[n])), verdicts[n]) == Outcome(Get(answers, IdOf(items[n])), verdicts[n]);
    }
  }

  /** Asked every pass, the count is the one a transfer is given up on by. */
  lemma CountIsRemembered(before: Option<Answer>, remembered: Option<GivingUp.Remembered>, verdict: Verdict)
    requires !LeftUnasked(before)
    requires remembered == if before.Some? then Some(GivingUp.Remembered(before.value.verdict, before.value.rounds)) else None
    ensures var after := Outcome(before, verdict);
            GivingUp.After(remembered, verdict)
            == if after.Some? then Some(GivingUp.Remembered(after.value.verdict, after.value.rounds)) else None
  {
  }

  /** What is remembered of a transfer that comes up in every pass, pass by pass. */
  ghost predicate Passes(history: seq<Option<Answer>>) {
    && |history| > 0
    && (history[0].Some? ==> history[0].value.skip <= MAX_SKIP)
    && forall k :: 0 < k < |history| ==> MayBecome(history[k - 1], history[k])
  }

  lemma {:induction false} SkipBounded(history: seq<Option<Answer>>, k: nat)
    requires Passes(history) && k < |history|
    ensures history[k].Some? ==> history[k].value.skip <= MAX_SKIP
  {
    if k > 0 {
      SkipBounded(history, k - 1);
      assert MayBecome(history[k - 1], history[k]);
    }
  }

  lemma {:induction false} SkipRunsDown(history: seq<Option<Answer>>, k: nat, n: nat)
    requires Passes(history) && k + n < |history|
    requires forall j :: k <= j < k + n ==> LeftUnasked(history[j])
    ensures history[k].Some? && history[k].value.skip >= n
    ensures history[k + n].Some? && history[k + n].value.skip == history[k].value.skip - n
    requires history[k].Some?
  {
    if n > 0 {
      SkipRunsDown(history, k, n - 1);
      assert MayBecome(history[k + n - 1], history[k + n]);
    }
  }

  /** A transfer the endpoints disagree about is put to them again within as many passes as the most it is left, and one. */
  lemma AskedAgain(history: seq<Option<Answer>>, k: nat)
    requires Passes(history) && k + MAX_SKIP < |history|
    ensures exists j :: k <= j <= k + MAX_SKIP && !LeftUnasked(history[j])
  {
    if forall j :: k <= j <= k + MAX_SKIP ==> LeftUnasked(history[j]) {
      SkipBounded(history, k);
      SkipRunsDown(history, k, MAX_SKIP);
    }
  }

  /** The endpoints disagreed in a pass, and one time in a row more than was remembered. */
  predicate DisagreedAgain(before: Option<Answer>, after: Option<Answer>) {
    && after.Some? && after.value.verdict == Disagreed
    && after.value.rounds == (if before.Some? && before.value.verdict == Disagreed then before.value.rounds else 0) + 1
  }

  /** After a disagreement a transfer is left for as many passes as there were in a row, sixty at the most, and then put again. */
  lemma {:induction false} DisagreedIsLeft(history: seq<Option<Answer>>, k: nat, j: nat)
    requires Passes(history) && 0 < k && k + j < |history| && !LeftUnasked(history[k - 1])
    requires DisagreedAgain(history[k - 1], history[k])
    requires var left := if history[k].value.rounds < 60 then history[k].value.rounds else 60; j <= left
    ensures var left := if history[k].value.rounds < 60 then history[k].value.rounds else 60;
            && history[k + j] == Some(history[k].value.(skip := left - j))
            && (LeftUnasked(history[k + j]) <==> j < left)
  {
    if j == 0 {
      assert MayBecome(history[k - 1], history[k]);
    } else {
      DisagreedIsLeft(history, k, j - 1);
      assert MayBecome(history[k + j - 1], history[k + j]);
    }
  }

  /** A transfer in a page of a round is heard of in it. */
  lemma {:induction false} ListedIsKept(answers: map<Id, Answer>, pass: map<Id, Answer>, items: seq<Listed>, verdicts: seq<Verdict>, i: nat)
    requires |verdicts| == |items| && i < |items|
    requires forall k :: i < k < |items| ==> IdOf(items[k]) != IdOf(items[i])
    requires verdicts[i] != Unanswered
    ensures Get(PassAfter(answers, pass, items, verdicts), IdOf(items[i])) == Outcome(Get(answers, IdOf(items[i])), verdicts[i])
  {
    var n := |items| - 1;
    if i < n {
      assert items[..n][i] == items[i] && verdicts[..n][i] == verdicts[i];
      ListedIsKept(answers, pass, items[..n], verdicts[..n], i);
    }
  }
}
