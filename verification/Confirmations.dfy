/** Exactly which steps leave an attempt confirming that no row matches any more. */
module Confirmations {
  import opened Basics
  import opened Lifecycle
  import opened Records
  import opened Evidence
  import opened Tables
  import opened Chains
  import opened Reading
  import opened RowFacts
  import opened Protocol
  import opened Consistency
  import opened Reachable
  import opened Observing
  import opened ReadOnce
  import opened Writing
  import opened Bookkeeping
  import opened Arrivals
  import opened Agreement

  /** An attempt confirms only while a row stands that matched it. */
  ghost predicate TrulyConfirming(db: Rows, a: AttemptId)
    requires a in db.attempts
  {
    db.attempts[a].status == Confirming ==> AttemptMatched(db.observations, a)
  }

  ghost predicate MatchedBeside(rows: map<Ref, Observation>, gone: set<Ref>, a: AttemptId) {
    exists ref :: ref in rows && ref !in gone && rows[ref].against == ForAttempt(a) && rows[ref].reason == Matched
  }

  ghost predicate LosesRowOf(rows: map<Ref, Observation>, lost: set<Ref>, a: AttemptId) {
    exists ref :: ref in rows && ref in lost && rows[ref].against == ForAttempt(a)
  }

  ghost predicate SaysMatched(seen: seq<Seen>, a: AttemptId) { exists s :: s in seen && s.attempt == a && s.reason == Matched }

  // ---- rows lost

  lemma MarkedMatches(rows: map<Ref, Observation>, lost: set<Ref>, a: AttemptId)
    ensures AttemptMatched(Mark(rows, lost), a) <==> MatchedBeside(rows, lost, a)
  {
    var marked := Mark(rows, lost);
    if AttemptMatched(marked, a) {
      var ref :| ref in marked && marked[ref].against == ForAttempt(a) && marked[ref].reason == Matched;
      assert marked[ref] == rows[ref];
    }
    if MatchedBeside(rows, lost, a) {
      var ref :| ref in rows && ref !in lost && rows[ref].against == ForAttempt(a) && rows[ref].reason == Matched;
      assert marked[ref] == rows[ref];
    }
  }

  /** After rows are lost an attempt confirms if it did, and lost none of its rows or keeps one that matches. */
  lemma LostConfirming(db: Rows, lost: set<Ref>, a: AttemptId)
    requires a in db.attempts
    ensures var d := Lose(db, lost);
            && a in d.attempts
            && (d.attempts[a].status == Confirming <==>
                  && db.attempts[a].status == Confirming
                  && (LosesRowOf(db.observations, lost, a) ==> MatchedBeside(db.observations, lost, a)))
  {
    MarkedMatches(db.observations, lost, a);
    hide AttemptMatched, MatchedBeside;
    if LosesRowOf(db.observations, lost, a) {
      assert a in LostAttempts(db.observations, lost);
    }
  }

  /** Taking back for what was lost never leaves an attempt confirming that nothing matches. */
  lemma LosingKeeps(db: Rows, lost: set<Ref>, a: AttemptId)
    requires a in db.attempts && TrulyConfirming(db, a)
    ensures a in Lose(db, lost).attempts && TrulyConfirming(Lose(db, lost), a)
  {
    LostConfirming(db, lost, a);
    LoseKeeps(db, lost);
    MarkedMatches(db.observations, lost, a);
    if db.attempts[a].status == Confirming {
      var ref :| ref in db.observations && db.observations[ref].against == ForAttempt(a) && db.observations[ref].reason == Matched;
      assert ref in lost || MatchedBeside(db.observations, lost, a);
    }
  }

  // ---- rows read again

  /** Which rows match an attempt once a round is written: those that did and were neither lost nor read again, and what was seen. */
  lemma PutMatches(db: Rows, seen: seq<Seen>, sent: seq<Sent>, final: bool, put: map<Ref, Observation>, lost: set<Ref>, a: AttemptId)
    requires RowsLinked(db) && EntriesAgree(Entries(seen, sent)) && put == Put(db.observations, Entries(seen, sent), final)
    requires forall e :: e in Entries(seen, sent) ==> EntryLinked(db, e)
    requires lost !! NotedIn(Entries(seen, sent))
    ensures var kept := lost + NotedIn(Entries(seen, sent));
            && (MatchedBeside(put, lost, a) <==> MatchedBeside(db.observations, kept, a) || SaysMatched(seen, a))
            && (LosesRowOf(put, lost, a) <==> LosesRowOf(db.observations, lost, a))
  {
    var es := Entries(seen, sent);
    var rows, noted := db.observations, NotedIn(es);
    hide Put, RowsLinked, EntryLinked, Entries, NotedIn, EntriesAgree;
    forall ref | ref !in noted ensures (ref in put <==> ref in rows) && (ref in rows ==> put[ref] == rows[ref]) {
      UnnotedStays(rows, es, final, ref);
    }
    forall ref | ref in put && ref in noted && put[ref].against == ForAttempt(a) && put[ref].reason == Matched
      ensures SaysMatched(seen, a)
    {
      var s := RowIsSeen(db, seen, sent, final, put, ref);
    }
    forall s | s in seen && s.attempt == a && s.reason == Matched ensures MatchedBeside(put, lost, a) {
      SeenIsRow(db, seen, sent, final, put, s);
    }
  }

  lemma WrittenConfirming(db: Rows, first: nat, last: nat, final: bool, es: seq<Entry>, a: AttemptId)
    requires a in db.attempts
    ensures var put, w := Put(db.observations, es, final), Written(db, first, last, final, es);
            var lost := LostBy(db.observations, first, last, final, es);
            && a in w.attempts
            && (w.attempts[a].status == Confirming <==>
                  db.attempts[a].status == Confirming && (LosesRowOf(put, lost, a) ==> MatchedBeside(put, lost, a)))
            && (AttemptMatched(w.observations, a) <==> MatchedBeside(put, lost, a))
  {
    var put := Put(db.observations, es, final);
    var lost := LostBy(db.observations, first, last, final, es);
    LostBefore(db.observations, first, last, final, es);
    var pdb := db.(observations := put);
    hide Put, Lose, MatchedBeside, LosesRowOf;
    if final {
      LostConfirming(pdb, lost, a);
      LoseKeeps(pdb, lost);
      MarkedMatches(put, lost, a);
    } else {
      MarkedMatches(put, {}, a);
      assert Mark(put, {}) == put;
      NoneLost(put, a);
    }
  }

  lemma NoneLost(rows: map<Ref, Observation>, a: AttemptId)
    ensures !LosesRowOf(rows, {}, a)
  {
  }

  lemma OneLeaves(db: Rows, s: Seen, a: AttemptId)
    requires ConfirmOne(db, s).Some? && a in db.attempts && !(s.attempt == a && s.reason == Matched)
    ensures var d := ConfirmOne(db, s).value; a in d.attempts && d.attempts[a] == db.attempts[a]
  {
  }

  /** An attempt nothing seen matched is left as it was. */
  lemma {:induction false} UnmatchedStays(db: Rows, seen: seq<Seen>, a: AttemptId)
    requires Confirm(db, seen).Some? && a in db.attempts && !SaysMatched(seen, a)
    ensures var d := Confirm(db, seen).value; a in d.attempts && d.attempts[a] == db.attempts[a]
  {
    if seen != [] {
      var front, last := seen[..|seen| - 1], seen[|seen| - 1];
      assert seen == front + [last] && last in seen && !(last.attempt == a && last.reason == Matched);
      assert forall s :: s in front ==> s in seen;
      assert !SaysMatched(front, a);
      hide ConfirmOne, SaysMatched;
      UnmatchedStays(db, front, a);
      OneLeaves(Confirm(db, front).value, last, a);
    }
  }

  /**
   A round that leaves an attempt confirming that nothing matches: what matched it
   was read again as something else, and it lost no row that would take it back.
   */
  ghost predicate Overlooks(db: Rows, first: nat, last: nat, final: bool, seen: seq<Seen>, sent: seq<Sent>, a: AttemptId)
    requires a in db.attempts
  {
    var es := Entries(seen, sent);
    var lost := LostBy(db.observations, first, last, final, es);
    && db.attempts[a].status == Confirming
    && !MatchedBeside(db.observations, lost + NotedIn(es), a) && !SaysMatched(seen, a)
    && !LosesRowOf(db.observations, lost, a)
  }

  /** What a round leaves of an attempt. */
  lemma RecordOf(db: Rows, first: nat, last: nat, final: bool, seen: seq<Seen>, sent: seq<Sent>, a: AttemptId)
    requires a in db.attempts && forall s :: s in seen ==> SeenLinked(db, s)
    requires Record(db, first, last, final, seen, sent).Some?
    ensures var w, d := Written(db, first, last, final, Entries(seen, sent)), Record(db, first, last, final, seen, sent).value;
            && a in w.attempts && a in d.attempts && d.observations == w.observations
            && (!SaysMatched(seen, a) ==> d.attempts[a] == w.attempts[a])
  {
    var es := Entries(seen, sent);
    RecordObservations(db, first, last, final, seen, sent);
    LinkedIsCurrent(db, seen);
    RecordKeeps(db, first, last, final, seen, sent);
    WrittenKeeps(db, first, last, final, es);
    hide Written, SaysMatched, Storable, Entries;
    if !SaysMatched(seen, a) {
      UnmatchedStays(Credited(Written(db, first, last, final, es), seen), seen, a);
    }
  }

  /** A round keeps an attempt truly confirming exactly where it does not overlook that it is no longer matched. */
  lemma ReadingConfirms(db: Rows, first: nat, last: nat, final: bool, seen: seq<Seen>, sent: seq<Sent>, a: AttemptId)
    requires RowsLinked(db) && a in db.attempts && TrulyConfirming(db, a)
    requires forall s :: s in seen ==> SeenLinked(db, s)
    requires forall s :: s in sent ==> SentLinked(db, s)
    requires EntriesAgree(Entries(seen, sent)) && Record(db, first, last, final, seen, sent).Some?
    ensures var d := Record(db, first, last, final, seen, sent).value;
            a in d.attempts && (TrulyConfirming(d, a) <==> !Overlooks(db, first, last, final, seen, sent, a))
  {
    var es := Entries(seen, sent);
    var put, lost := Put(db.observations, es, final), LostBy(db.observations, first, last, final, es);
    EntriesLinked(db, seen, sent);
    LostBefore(db.observations, first, last, final, es);
    hide RowsLinked, EntryLinked, SeenLinked, SentLinked, Record, Written, Put, EntriesAgree, NotedIn, LostBy, Entries,
         MatchedBeside, LosesRowOf, SaysMatched, AttemptMatched;
    RecordOf(db, first, last, final, seen, sent, a);
    PutMatches(db, seen, sent, final, put, lost, a);
    WrittenConfirming(db, first, last, final, es, a);
  }

  // ---- every step of every run

  /** The steps that leave an attempt confirming that no row matches any more. */
  ghost predicate OverlooksAt(w: World, s: Step, a: AttemptId)
    requires a in w.db.attempts
  {
    match s
    case ByObserver(Write(i)) =>
      && Reads(w, i) && w.rounds[i].work.Receiving? && Writes(w, i)
      && Overlooks(w.db, w.rounds[i].first, w.rounds[i].last, w.rounds[i].Settling?,
                   w.rounds[i].work.seen, w.rounds[i].work.sent, a)
    case _ => false
  }

  lemma WriteOverlooks(w: World, i: nat, a: AttemptId)
    requires Reads(w, i) && w.rounds[i].work.Receiving? && a in w.db.attempts
    ensures OverlooksAt(w, ByObserver(Write(i)), a) <==>
              && Writes(w, i)
              && Overlooks(w.db, w.rounds[i].first, w.rounds[i].last, w.rounds[i].Settling?,
                           w.rounds[i].work.seen, w.rounds[i].work.sent, a)
  {
  }

  lemma WriteConfirms(w: World, i: nat, a: AttemptId)
    requires Reads(w, i) && w.rounds[i].work.Receiving? && Consistent(w) && RoundsOnce(w.rounds)
    requires a in w.db.attempts && TrulyConfirming(w.db, a)
    ensures var v := DoWrite(w, i);
            a in v.db.attempts && (TrulyConfirming(v.db, a) <==> !OverlooksAt(w, ByObserver(Write(i)), a))
  {
    LinkedOf(w);
    RoundWork(w, i);
    OnceAt(w.rounds, i);
    hide Consistent, RowsLinked, RoundsLinked, WorkLinked, RoundsOnce, WorkOnce, DoWrite, Record, Overlooks,
         AttemptMatched, OverlooksAt, Writes;
    WriteOverlooks(w, i, a);
    WriteIs(w, i);
    if Writes(w, i) {
      GoesThrough(w, i);
      WorkConfirms(w.db, w.rounds[i].first, w.rounds[i].last, w.rounds[i].Settling?, w.rounds[i].work, a);
    }
  }

  lemma WorkConfirms(db: Rows, first: nat, last: nat, final: bool, work: Work, a: AttemptId)
    requires RowsLinked(db) && work.Receiving? && WorkLinked(db, work) && WorkOnce(work)
    requires a in db.attempts && TrulyConfirming(db, a) && Record(db, first, last, final, work.seen, work.sent).Some?
    ensures var d := Record(db, first, last, final, work.seen, work.sent).value;
            a in d.attempts && (TrulyConfirming(d, a) <==> !Overlooks(db, first, last, final, work.seen, work.sent, a))
  {
    WorkAgrees(work);
    hide RowsLinked, WorkOnce, Record, Overlooks, TrulyConfirming, EntriesAgree, SeenLinked, SentLinked;
    ReadingConfirms(db, first, last, final, work.seen, work.sent, a);
  }

  /** No row moves and no attempt starts to confirm. */
  lemma QuietConfirms(db: Rows, d: Rows, a: AttemptId)
    requires a in db.attempts && a in d.attempts && TrulyConfirming(db, a) && ConfirmsNone(db, d)
    ensures TrulyConfirming(d, a)
  {
  }

  lemma WorkerConfirms(w: World, m: WorkerMove, a: AttemptId)
    requires WorkerMoves(w, m) && a in w.db.attempts && TrulyConfirming(w.db, a)
    ensures var v := AfterWorker(w, m); a in v.db.attempts && TrulyConfirming(v.db, a)
  {
    hide Grounds, RefundGrounds, Lose, AttemptMatched;
    if m.GiveUpOn? {
      LosingKeeps(w.db, {m.ref}, a);
    }
  }

  lemma RequestConfirms(env: Env, w: World, m: RequestMove, a: AttemptId)
    requires RequestMoves(env, w, m) && Consistent(w) && a in w.db.attempts && TrulyConfirming(w.db, a)
    ensures var v := AfterRequest(env, w, m); a in v.db.attempts && TrulyConfirming(v.db, a)
  {
    LinkedOf(w);
    hide RowsLinked, RoundsLinked, DoProceed, Runs, AttemptMatched;
    if m.Proceed? {
      assert CallLinked(w.db, w.calls[m.call]);
      ProceedConfirms(env, w, m.call, m.now, m.id, m.key);
      ProceedGrows(env, w, m.call, m.now, m.id, m.key);
      QuietConfirms(w.db, DoProceed(w, m.call, m.now, m.id, m.key).db, a);
    }
  }

  lemma ObserverConfirms(env: Env, w: World, m: ObserverMove, a: AttemptId)
    requires ObserverMoves(w, m) && Consistent(w) && RoundsOnce(w.rounds) && a in w.db.attempts && TrulyConfirming(w.db, a)
    ensures var v := AfterObserver(env, w, m);
            a in v.db.attempts && (TrulyConfirming(v.db, a) <==> !OverlooksAt(w, ByObserver(m), a))
  {
    hide Consistent, RoundsOnce, AttemptMatched, DoWrite, BeginRound, KeysIn, Against, Backs, Transactions, Find, SeenIn, SentIn;
    if m.Write? {
      WriteConfirms(w, m.observer, a);
    }
  }

  lemma OnlyObservers(w: World, s: Step, a: AttemptId)
    requires a in w.db.attempts && !s.ByObserver?
    ensures !OverlooksAt(w, s, a)
  {
  }

  lemma ConfirmingStep(env: Env, w: World, s: Step, v: World, a: AttemptId)
    requires Next(env, w, s, v) && Consistent(w) && RoundsOnce(w.rounds) && a in w.db.attempts && TrulyConfirming(w.db, a)
    ensures a in v.db.attempts && (TrulyConfirming(v.db, a) <==> !OverlooksAt(w, s, a))
  {
    hide Consistent, RoundsOnce, AttemptMatched, ChainMoves, WorkerMoves, RequestMoves, ObserverMoves,
         AfterWorker, AfterRequest, AfterObserver, OverlooksAt;
    if !s.ByObserver? {
      OnlyObservers(w, s, a);
    }
    match s
    case ByChain(m) =>
    case ByWorker(m) => WorkerConfirms(w, m, a);
    case ByRequest(m) => RequestConfirms(env, w, m, a);
    case ByObserver(m) => ObserverConfirms(env, w, m, a);
  }

  /**
   Over every run, from a state in which an attempt confirms only while a row
   stands that matched it, a step keeps it so if and only if it does not overlook
   that nothing matches it any more: a round goes through on a confirming attempt,
   keeps no row that matched it and sees none, and loses no row of it.
   */
  lemma ConfirmingTheorem(env: Env, ws: seq<World>, ss: seq<Step>, i: nat, a: AttemptId)
    requires Run(env, ws, ss) && i < |ss| && a in ws[i].db.attempts && TrulyConfirming(ws[i].db, a)
    ensures a in ws[i + 1].db.attempts
    ensures TrulyConfirming(ws[i + 1].db, a) <==> !OverlooksAt(ws[i], ss[i], a)
  {
    ConsistentRun(env, ws, ss, i);
    OnceRun(env, ws, ss, i);
    hide Consistent, RoundsOnce, OverlooksAt, TrulyConfirming, ValidLedger;
    assert Next(env, ws[i], ss[i], ws[i + 1]);
    hide Run, Next;
    ConfirmingStep(env, ws[i], ss[i], ws[i + 1], a);
  }
}
