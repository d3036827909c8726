/** Which transfer of a receipt answers for which authorisation. */
module Pairing {
  import opened Basics

  datatype Topic = Spent | Moved | OtherTopic

  /**
   A log as a receipt carries one. The key, the two accounts a log indexes and the
   value it carries are None where the log does not hold one that can be read.
   */
  datatype Log = Log(
    contract: Address,
    topic: Topic,
    key: Option<Key>,
    first: Option<Address>,
    second: Option<Address>,
    value: Option<nat>)

  datatype Made = Made(asset: Address, key: Key, signer: Address, from: Address, to: Address, value: nat, position: nat)

  datatype Result = Ok(made: seq<Made>) | Err

  const MAX_LOGS: nat := 1000

  predicate Free(logs: seq<Log>, taken: set<nat>, i: nat, of: Address) {
    i < |logs| && i !in taken && logs[i].contract == of && logs[i].topic == Moved
  }

  /** The first transfer of a contract from a place on that answers for nobody yet. */
  function Nearest(logs: seq<Log>, taken: set<nat>, i: nat, of: Address): (r: Option<nat>)
    ensures r.Some? ==> i <= r.value && Free(logs, taken, r.value, of)
    ensures r.Some? ==> forall k :: i <= k < r.value ==> !Free(logs, taken, k, of)
    ensures r.None? ==> forall k :: i <= k ==> !Free(logs, taken, k, of)
    decreases |logs| - i
  {
    if i >= |logs| then None
    else if Free(logs, taken, i, of) then Some(i)
    else Nearest(logs, taken, i + 1, of)
  }

  predicate Authorises(logs: seq<Log>, i: nat) { i < |logs| && logs[i].topic == Spent }

  /** The transfer an authorisation is paired with: the nearest free one, if it leaves the account that signed. */
  function Chosen(logs: seq<Log>, i: nat): Option<nat>
    decreases i, 1
  {
    if !Authorises(logs, i) then None
    else
      match Nearest(logs, Taken(logs, i), i + 1, logs[i].contract)
      case None => None
      case Some(m) => if logs[m].first == logs[i].first then Some(m) else None
  }

  /** The transfers that answer for the authorisations before a place. */
  function Taken(logs: seq<Log>, i: nat): set<nat>
    decreases i, 0
  {
    if i == 0 then {}
    else Taken(logs, i - 1) + match Chosen(logs, i - 1) {
      case None => {}
      case Some(m) => {m}
    }
  }

  /** A log the pairing cannot read. */
  predicate Unreadable(logs: seq<Log>, i: nat) {
    && Authorises(logs, i)
    && (|| logs[i].key.None? || logs[i].first.None?
        || match Nearest(logs, Taken(logs, i), i + 1, logs[i].contract) {
          case None => false
          case Some(m) =>
            || logs[m].first.None? || logs[m].second.None?
            || (logs[m].first == logs[i].first && logs[m].value.None?)
        })
  }

  predicate Readable(logs: seq<Log>, n: nat) { forall i :: 0 <= i < n ==> !Unreadable(logs, i) }

  /** The pair two logs make. */
  function Pair(logs: seq<Log>, i: nat, m: nat, position: nat): Made
    requires i < |logs| && m < |logs|
    requires logs[i].key.Some? && logs[i].first.Some?
    requires logs[m].first.Some? && logs[m].second.Some? && logs[m].value.Some?
  {
    Made(logs[i].contract, logs[i].key.value, logs[i].first.value,
         logs[m].first.value, logs[m].second.value, logs[m].value.value, position)
  }

  /** The pairs of the authorisations before a place, in their order. */
  function MadeOf(logs: seq<Log>, n: nat): seq<Made>
    requires n <= |logs| && Readable(logs, n)
  {
    if n == 0 then []
    else
      var made := MadeOf(logs, n - 1);
      match Chosen(logs, n - 1)
      case None => made
      case Some(m) =>
        assert !Unreadable(logs, n - 1);
        made + [Pair(logs, n - 1, m, |made|)]
  }

  function TakenIn(taken: seq<bool>): set<nat> { set k | 0 <= k < |taken| && taken[k] }

  /** A search that changes nothing. */
  method Followed(logs: seq<Log>, taken: array<bool>, from: nat, of: Address) returns (r: Option<nat>)
    requires taken.Length == |logs|
    ensures r == Nearest(logs, TakenIn(taken[..]), from, of)
  {
    var i := from;
    while i < |logs|
      invariant from <= i
      invariant Nearest(logs, TakenIn(taken[..]), from, of) == Nearest(logs, TakenIn(taken[..]), i, of)
    {
      if !taken[i] && logs[i].contract == of && logs[i].topic == Moved {
        assert i !in TakenIn(taken[..]);
        return Some(i);
      }
      assert taken[i] ==> i in TakenIn(taken[..]);
      i := i + 1;
    }
    return None;
  }

  /** The pairs of a receipt, or nothing where a log of a pair cannot be read. */
  method Transfers(logs: seq<Log>) returns (r: Result)
    ensures r.Err? <==> |logs| > MAX_LOGS || !Readable(logs, |logs|)
    ensures r.Ok? ==> r.made == MadeOf(logs, |logs|)
  {
    hide Nearest;
    if |logs| > MAX_LOGS {
      return Err;
    }
    var made := [];
    var taken := new bool[|logs|](_ => false);
    assert TakenIn(taken[..]) == {};
    for i := 0 to |logs|
      invariant Readable(logs, i) && made == MadeOf(logs, i)
      invariant TakenIn(taken[..]) == Taken(logs, i)
    {
      if logs[i].topic != Spent {
        continue;
      }
      if logs[i].key.None? || logs[i].first.None? {
        assert Unreadable(logs, i);
        return Err;
      }
      var at := Followed(logs, taken, i + 1, logs[i].contract);
      if at.None? {
        continue;
      }
      var moved := logs[at.value];
      if moved.first.None? || moved.second.None? {
        assert Unreadable(logs, i);
        return Err;
      }
      if moved.first != logs[i].first {
        continue;
      }
      if moved.value.None? {
        assert Unreadable(logs, i);
        return Err;
      }
      ghost var before := taken[..];
      taken[at.value] := true;
      assert TakenIn(taken[..]) == TakenIn(before) + {at.value};
      made := made + [Pair(logs, i, at.value, |made|)];
    }
    return Ok(made);
  }

  // ---- what the pairs are

  lemma {:induction false} TakenGrows(logs: seq<Log>, i: nat, j: nat)
    requires i <= j
    ensures Taken(logs, i) <= Taken(logs, j)
    decreases j
  {
    if i < j {
      TakenGrows(logs, i, j - 1);
    }
  }

  /** What is taken was chosen. */
  lemma {:induction false} TakenIsChosen(logs: seq<Log>, i: nat, m: nat)
    requires m in Taken(logs, i)
    ensures exists j :: 0 <= j < i && Chosen(logs, j) == Some(m)
  {
    if m in Taken(logs, i - 1) {
      TakenIsChosen(logs, i - 1, m);
    } else {
      assert Chosen(logs, i - 1) == Some(m);
    }
  }

  /** A pair is an authorisation and a later transfer of the same contract that leaves the account that signed. */
  lemma ChosenFits(logs: seq<Log>, i: nat)
    requires Chosen(logs, i).Some?
    ensures var m := Chosen(logs, i).value;
            i < m < |logs| && logs[m].topic == Moved && logs[m].contract == logs[i].contract && logs[m].first == logs[i].first
  {
  }

  /**
   No transfer answers for two authorisations, and of one contract's, later
   authorisations have later transfers.
   */
  lemma ChosenClimbs(logs: seq<Log>, i: nat, j: nat)
    requires i < j && Chosen(logs, i).Some? && Chosen(logs, j).Some?
    ensures Chosen(logs, i) != Chosen(logs, j)
    ensures logs[i].contract == logs[j].contract ==> Chosen(logs, i).value < Chosen(logs, j).value
  {
    var m, n := Chosen(logs, i).value, Chosen(logs, j).value;
    TakenGrows(logs, i, j);
    TakenGrows(logs, i + 1, j);
    assert m in Taken(logs, i + 1);
    if logs[i].contract == logs[j].contract && n < m {
      assert Free(logs, Taken(logs, i), n, logs[i].contract);
    }
  }

  // ---- every authorisation its own

  /** Which transfer each authorisation made: a later one of its contract, leaving its signer, and each its own. */
  ghost predicate Owns(logs: seq<Log>, own: map<nat, nat>) {
    && (forall i :: i in own <==> Authorises(logs, i))
    && (forall i :: i in own ==>
          && i < own[i] < |logs| && logs[own[i]].topic == Moved
          && logs[own[i]].contract == logs[i].contract && logs[own[i]].first == logs[i].first)
  }

  /** Of one contract, the transfers are made in the order they were authorised in. */
  ghost predicate MadeInOrder(logs: seq<Log>, own: map<nat, nat>)
    requires Owns(logs, own)
  {
    forall i, j :: i in own && j in own && i < j && logs[i].contract == logs[j].contract ==> own[i] < own[j]
  }

  /** No other transfer of the contract stands between an authorisation and its own but those of earlier ones. */
  ghost predicate NothingBetween(logs: seq<Log>, own: map<nat, nat>)
    requires Owns(logs, own)
  {
    forall i, m ::
      i in own && i < m < own[i] && m < |logs| && logs[m].topic == Moved && logs[m].contract == logs[i].contract ==>
        exists j :: j in own && j < i && own[j] == m
  }

  function OwnedBefore(own: map<nat, nat>, i: nat): set<nat> { set j | j in own && j < i :: own[j] }

  /** What is taken before an authorisation is what the ones before it own. */
  ghost predicate TakenOwn(logs: seq<Log>, own: map<nat, nat>, i: nat) { Taken(logs, i) == OwnedBefore(own, i) }

  lemma TakenNext(logs: seq<Log>, own: map<nat, nat>, i: nat)
    requires Owns(logs, own) && TakenOwn(logs, own, i)
    requires i in own ==> Chosen(logs, i) == Some(own[i])
    ensures TakenOwn(logs, own, i + 1)
  {
    assert OwnedBefore(own, i + 1) == OwnedBefore(own, i) + if i in own then {own[i]} else {};
  }

  lemma {:induction false} OwnUpTo(logs: seq<Log>, own: map<nat, nat>, i: nat)
    requires Owns(logs, own) && MadeInOrder(logs, own) && NothingBetween(logs, own)
    ensures forall j :: j in own && j < i ==> Chosen(logs, j) == Some(own[j])
    ensures TakenOwn(logs, own, i)
  {
    hide TakenOwn, MadeInOrder, NothingBetween, Chosen, Owns;
    if i > 0 {
      OwnUpTo(logs, own, i - 1);
      if i - 1 in own {
        OwnNext(logs, own, i - 1);
      }
      TakenNext(logs, own, i - 1);
    } else {
      NothingTaken(logs, own);
    }
  }

  lemma NothingTaken(logs: seq<Log>, own: map<nat, nat>)
    ensures TakenOwn(logs, own, 0)
  {
  }

  /** Free, leaving the signer, and with nothing free before it: that is the one chosen. */
  lemma ChosenIs(logs: seq<Log>, i: nat, m: nat)
    requires Authorises(logs, i) && i < m && Free(logs, Taken(logs, i), m, logs[i].contract) && logs[m].first == logs[i].first
    requires forall k :: i < k < m ==> !Free(logs, Taken(logs, i), k, logs[i].contract)
    ensures Chosen(logs, i) == Some(m)
  {
  }

  lemma ChosenFirst(logs: seq<Log>, i: nat, k: nat)
    requires Chosen(logs, i).Some? && i < k < Chosen(logs, i).value
    ensures !Free(logs, Taken(logs, i), k, logs[i].contract)
  {
  }

  /** A transfer of the contract standing between is taken already. */
  lemma BetweenIsTaken(logs: seq<Log>, own: map<nat, nat>, i: nat, k: nat)
    requires Owns(logs, own) && NothingBetween(logs, own) && TakenOwn(logs, own, i)
    requires i in own && i < k < own[i] && k < |logs|
    ensures !Free(logs, Taken(logs, i), k, logs[i].contract)
  {
    hide Taken;
    if logs[k].contract == logs[i].contract && logs[k].topic == Moved {
      var j :| j in own && j < i && own[j] == k;
      assert k in Taken(logs, i);
    }
  }

  lemma OwnIsFree(logs: seq<Log>, own: map<nat, nat>, i: nat)
    requires Owns(logs, own) && MadeInOrder(logs, own) && TakenOwn(logs, own, i) && i in own
    ensures Free(logs, Taken(logs, i), own[i], logs[i].contract)
  {
    hide Taken;
    forall j | j in own && j < i ensures own[j] != own[i] {
      if logs[j].contract == logs[i].contract {
        assert own[j] < own[i];
      }
    }
  }

  lemma OwnNext(logs: seq<Log>, own: map<nat, nat>, i: nat)
    requires Owns(logs, own) && MadeInOrder(logs, own) && NothingBetween(logs, own) && i in own
    requires TakenOwn(logs, own, i)
    ensures Chosen(logs, i) == Some(own[i])
  {
    OwnIsFree(logs, own, i);
    hide Taken, Chosen, Free, MadeInOrder, NothingBetween, TakenOwn;
    forall k: nat | i < k < own[i] ensures !Free(logs, Taken(logs, i), k, logs[i].contract) {
      BetweenIsTaken(logs, own, i, k);
    }
    ChosenIs(logs, i, own[i]);
  }

  lemma OwnChosenInOrder(logs: seq<Log>, own: map<nat, nat>)
    requires Owns(logs, own) && forall i :: i in own ==> Chosen(logs, i) == Some(own[i])
    ensures MadeInOrder(logs, own)
  {
    hide Chosen;
    forall i, j | i in own && j in own && i < j && logs[i].contract == logs[j].contract ensures own[i] < own[j] {
      ChosenClimbs(logs, i, j);
    }
  }

  lemma OwnChosenBetween(logs: seq<Log>, own: map<nat, nat>, i: nat, m: nat)
    requires Owns(logs, own) && forall i :: i in own ==> Chosen(logs, i) == Some(own[i])
    requires i in own && i < m < own[i] && m < |logs| && logs[m].topic == Moved && logs[m].contract == logs[i].contract
    ensures exists j :: j in own && j < i && own[j] == m
  {
    hide Chosen, Taken;
    ChosenFirst(logs, i, m);
    TakenIsChosen(logs, i, m);
    var j :| 0 <= j < i && Chosen(logs, j) == Some(m);
    ChosenFits(logs, j);
    ChosenAuthorises(logs, j);
    assert j in own;
  }

  lemma ChosenAuthorises(logs: seq<Log>, j: nat)
    requires Chosen(logs, j).Some?
    ensures Authorises(logs, j)
  {
  }

  /**
   Every authorisation is paired with its own transfer exactly where each
   contract's transfers follow its authorisations in the same order, with none
   in between that nobody authorised.
   */
  lemma OwnTheorem(logs: seq<Log>, own: map<nat, nat>)
    requires Owns(logs, own)
    ensures (forall i :: i in own ==> Chosen(logs, i) == Some(own[i]))
            <==> MadeInOrder(logs, own) && NothingBetween(logs, own)
  {
    hide Chosen, MadeInOrder, TakenOwn;
    if MadeInOrder(logs, own) && NothingBetween(logs, own) {
      hide Owns, NothingBetween;
      OwnUpTo(logs, own, |logs|);
      assert forall i :: i in own ==> i < |logs| by { OwnWithin(logs, own); }
    }
    if forall i :: i in own ==> Chosen(logs, i) == Some(own[i]) {
      OwnChosenInOrder(logs, own);
      forall i, m | i in own && i < m < own[i] && m < |logs| && logs[m].topic == Moved && logs[m].contract == logs[i].contract
        ensures exists j :: j in own && j < i && own[j] == m
      {
        OwnChosenBetween(logs, own, i, m);
      }
    }
  }

  lemma OwnWithin(logs: seq<Log>, own: map<nat, nat>)
    requires Owns(logs, own)
    ensures forall i :: i in own ==> i < |logs|
  {
  }

  /** The pairs that are made are exactly the ones chosen, each where its authorisation stands among them. */
  lemma {:induction false} MadeExactly(logs: seq<Log>, n: nat, p: Made)
    requires n <= |logs| && Readable(logs, n)
    ensures p in MadeOf(logs, n) ==>
              exists i, m :: 0 <= i < n && Chosen(logs, i) == Some(m) && logs[i].key == Some(p.key)
                && logs[i].first == Some(p.signer) == Some(p.from) && logs[m].second == Some(p.to) && logs[m].value == Some(p.value)
                && logs[i].contract == logs[m].contract == p.asset
    ensures forall k :: 0 <= k < |MadeOf(logs, n)| ==> MadeOf(logs, n)[k].position == k
    ensures forall i :: 0 <= i < n && Chosen(logs, i).Some? ==>
              logs[i].key.Some? && exists q :: q in MadeOf(logs, n) && q.key == logs[i].key.value && q.asset == logs[i].contract
  {
    if n > 0 {
      MadeExactly(logs, n - 1, p);
      if Chosen(logs, n - 1).Some? {
        assert !Unreadable(logs, n - 1);
        var made := MadeOf(logs, n);
        assert made[|made| - 1] in made;
      }
      assert forall q :: q in MadeOf(logs, n - 1) ==> q in MadeOf(logs, n);
    }
  }
}
