/** The pages a worker reads its candidates in, and what a pass over them reaches. */
module Paging {
  import opened Basics

  /** Where a row stands in the order of a list. Nothing stands at or before the beginning. */
  datatype Spot = Spot(height: nat, tx: nat)

  const BEGINNING := Spot(0, 0)

  predicate Before(a: Spot, b: Spot) { a.height < b.height || (a.height == b.height && a.tx < b.tx) }

  /** A transfer a round asks about, named the way its row is. */
  datatype Listed = Listed(key: Key, spot: Spot)

  /** Rows in order after a place, as many as a limit. Rows at one spot come in any order. */
  ghost predicate IsPage(rows: set<Listed>, from: Spot, limit: nat, page: seq<Listed>) {
    && |page| <= limit
    && (forall i :: 0 <= i < |page| ==> page[i] in rows && Before(from, page[i].spot))
    && (forall i, j :: 0 <= i < j < |page| ==> page[i] != page[j] && !Before(page[j].spot, page[i].spot))
    && (forall c :: c in rows && Before(from, c.spot) && c !in page ==>
          |page| == limit && forall i :: 0 <= i < |page| ==> !Before(c.spot, page[i].spot))
  }

  /** Where the next round goes on from: after the last of a full page, and from the beginning after a short one. */
  function NextFrom(page: seq<Listed>, limit: nat): Spot {
    if |page| < limit || page == [] then BEGINNING else page[|page| - 1].spot
  }

  /** A pass: page after page, each from where the last one stopped, up to the first short one. */
  ghost predicate Pass(tables: seq<set<Listed>>, pages: seq<seq<Listed>>, limit: nat) {
    && |tables| == |pages| > 0 && limit > 0
    && (forall i :: 0 <= i < |pages| ==> IsPage(tables[i], From(pages, limit, i), limit, pages[i]))
    && (forall i :: 0 <= i < |pages| - 1 ==> |pages[i]| == limit)
    && |pages[|pages| - 1]| < limit
  }

  function From(pages: seq<seq<Listed>>, limit: nat, i: nat): Spot {
    if 0 < i <= |pages| then NextFrom(pages[i - 1], limit) else BEGINNING
  }

  /** A row that stays through a pass, alone at its spot. */
  ghost predicate Stays(tables: seq<set<Listed>>, c: Listed) {
    && Before(BEGINNING, c.spot)
    && forall i :: 0 <= i < |tables| ==> c in tables[i] && forall d :: d in tables[i] && d.spot == c.spot ==> d == c
  }

  /** A row a full page does not reach, alone at its spot, comes after all of the page. */
  lemma LeftForNext(rows: set<Listed>, from: Spot, limit: nat, page: seq<Listed>, c: Listed)
    requires IsPage(rows, from, limit, page) && limit > 0 && c in rows && c !in page && Before(from, c.spot)
    requires forall d :: d in rows && d.spot == c.spot ==> d == c
    ensures |page| == limit && Before(page[|page| - 1].spot, c.spot)
  {
    var last := page[|page| - 1];
    assert last in page && last in rows;
  }

  /** Until it is reached, the next page starts before it. */
  lemma {:induction false} NotPassedOver(tables: seq<set<Listed>>, pages: seq<seq<Listed>>, limit: nat, c: Listed, i: nat)
    requires Pass(tables, pages, limit) && Stays(tables, c) && i < |pages|
    requires forall j :: 0 <= j < i ==> c !in pages[j]
    ensures Before(From(pages, limit, i), c.spot)
  {
    hide IsPage, Before;
    if i > 0 {
      NotPassedOver(tables, pages, limit, c, i - 1);
      LeftForNext(tables[i - 1], From(pages, limit, i - 1), limit, pages[i - 1], c);
    }
  }

  /** A page ends at or after each of its rows, and after where it started. */
  lemma PageEnds(rows: set<Listed>, from: Spot, limit: nat, page: seq<Listed>)
    requires IsPage(rows, from, limit, page) && page != []
    ensures forall c :: c in page ==> !Before(page[|page| - 1].spot, c.spot)
    ensures Before(from, page[|page| - 1].spot)
  {
    forall c | c in page ensures !Before(page[|page| - 1].spot, c.spot) {
      var n :| 0 <= n < |page| && page[n] == c;
      assert n == |page| - 1 || !Before(page[|page| - 1].spot, page[n].spot);
    }
  }

  lemma AfterAfter(a: Spot, b: Spot, c: Spot)
    requires !Before(b, a) && Before(b, c)
    ensures !Before(c, a)
  {
  }

  /** Each page starts at or after every row of the ones before it. */
  lemma {:induction false} PagesClimb(tables: seq<set<Listed>>, pages: seq<seq<Listed>>, limit: nat, i: nat, j: nat, c: Listed)
    requires Pass(tables, pages, limit) && i < j < |pages| && c in pages[i]
    ensures !Before(From(pages, limit, j), c.spot)
    decreases j
  {
    hide Before, IsPage;
    var page := pages[j - 1];
    PageEnds(tables[j - 1], From(pages, limit, j - 1), limit, page);
    if i < j - 1 {
      PagesClimb(tables, pages, limit, i, j - 1, c);
      AfterAfter(c.spot, From(pages, limit, j - 1), page[|page| - 1].spot);
    }
  }

  lemma ReachedAtLast(tables: seq<set<Listed>>, pages: seq<seq<Listed>>, limit: nat, c: Listed)
    requires Pass(tables, pages, limit) && Stays(tables, c)
    requires forall j :: 0 <= j < |pages| - 1 ==> c !in pages[j]
    ensures c in pages[|pages| - 1]
  {
    NotPassedOver(tables, pages, limit, c, |pages| - 1);
  }

  lemma NotInLater(tables: seq<set<Listed>>, pages: seq<seq<Listed>>, limit: nat, c: Listed, i: nat, j: nat)
    requires Pass(tables, pages, limit) && i < j < |pages| && c in pages[i]
    ensures c !in pages[j]
  {
    PagesClimb(tables, pages, limit, i, j, c);
  }

  /** A row that stays through a pass, alone at its spot, is asked about in exactly one of its rounds. */
  lemma ReachedOnce(tables: seq<set<Listed>>, pages: seq<seq<Listed>>, limit: nat, c: Listed)
    requires Pass(tables, pages, limit) && Stays(tables, c)
    ensures exists i :: 0 <= i < |pages| && c in pages[i]
    ensures forall i, j :: 0 <= i < |pages| && 0 <= j < |pages| && c in pages[i] && c in pages[j] ==> i == j
  {
    if forall j :: 0 <= j < |pages| - 1 ==> c !in pages[j] {
      ReachedAtLast(tables, pages, limit, c);
    }
    hide Pass;
    forall i, j | 0 <= i < j < |pages| && c in pages[i] ensures c !in pages[j] {
      NotInLater(tables, pages, limit, c, i, j);
    }
  }

  // ---- rows that share a spot

  /** As many rows as a number, all of them before a spot at or above the first block. */
  function Fillers(n: nat): (rows: seq<Listed>)
    ensures |rows| == n && forall i :: 0 <= i < n ==> rows[i] == Listed(i, Spot(0, i + 1))
  {
    seq(n, i requires 0 <= i < n => Listed(i, Spot(0, i + 1)))
  }

  function Among(rows: seq<Listed>): set<Listed> { set i | 0 <= i < |rows| :: rows[i] }

  /** Those, and the rows that share the spot. */
  function Table(limit: nat, at: set<Listed>): set<Listed>
    requires limit >= 1
  {
    Among(Fillers(limit - 1)) + at
  }

  /** A page of rows that come before a spot, and at its end one of the rows that share the spot. */
  lemma FirstPage(limit: nat, a: Listed, at: set<Listed>)
    requires limit >= 1 && a in at && a.spot.height >= 1 && forall d :: d in at ==> d.spot == a.spot
    ensures IsPage(Table(limit, at), BEGINNING, limit, Fillers(limit - 1) + [a])
  {
    var fillers := Fillers(limit - 1);
    var rows, page := Table(limit, at), fillers + [a];
    forall i | 0 <= i < |page| ensures page[i] in rows && Before(BEGINNING, page[i].spot) {
      assert i < limit - 1 ==> page[i] == fillers[i];
    }
    forall i | 0 <= i < |fillers| ensures fillers[i] in page {
      assert page[i] == fillers[i];
    }
    forall c, i | c in rows && c !in page && 0 <= i < |page| ensures !Before(c.spot, page[i].spot) {
      assert c in at && c.spot == a.spot;
      assert page[i] == a || page[i] == fillers[i];
    }
  }

  /** The next page starts after the spot, and has nothing left to read. */
  lemma SecondPage(limit: nat, a: Listed, at: set<Listed>)
    requires limit >= 1 && a.spot.height >= 1 && forall d :: d in at ==> d.spot == a.spot
    ensures IsPage(Table(limit, at), a.spot, limit, [])
  {
    var fillers := Fillers(limit - 1);
    forall i | 0 <= i < |fillers| ensures !Before(a.spot, fillers[i].spot) {
    }
  }

  /** Two rows at one spot can be parted by the end of a page, however long pages are: the second is then passed over. */
  lemma SharedSpotIsPassedOver(limit: nat, a: Listed, c: Listed, at: set<Listed>)
    returns (tables: seq<set<Listed>>, pages: seq<seq<Listed>>)
    requires limit >= 1 && a in at && c in at && a != c && c.spot.height >= 1 && forall d :: d in at ==> d.spot == c.spot
    ensures Pass(tables, pages, limit) && StayAt(tables, at, c.spot)
    ensures forall i :: 0 <= i < |pages| ==> c !in pages[i]
  {
    var fillers := Fillers(limit - 1);
    var rows := Table(limit, at);
    tables, pages := [rows, rows], [fillers + [a], []];
    FirstPage(limit, a, at);
    SecondPage(limit, a, at);
    assert pages[0][|pages[0]| - 1] == a;
    assert From(pages, limit, 0) == BEGINNING && From(pages, limit, 1) == a.spot;
    hide IsPage, Before;
    assert IsPage(tables[0], From(pages, limit, 0), limit, pages[0]);
    assert IsPage(tables[1], From(pages, limit, 1), limit, pages[1]);
    forall i | 0 <= i < limit - 1 ensures fillers[i].spot != c.spot {
    }
    assert c !in pages[0] by {
      forall i | 0 <= i < |pages[0]| ensures pages[0][i] != c {
        assert pages[0][i] == a || pages[0][i] == fillers[i];
      }
    }
  }

  /** Through a whole pass, these and no other rows are at a spot. */
  ghost predicate StayAt(tables: seq<set<Listed>>, at: set<Listed>, spot: Spot) {
    forall i :: 0 <= i < |tables| ==>
      (forall d :: d in at ==> d in tables[i]) && forall d :: d in tables[i] && d.spot == spot ==> d in at
  }

  /** A row is reached in every pass it stays through, with whatever stays at its spot beside it. */
  ghost predicate AlwaysReached(limit: nat, c: Listed, at: set<Listed>) {
    forall tables: seq<set<Listed>>, pages: seq<seq<Listed>> ::
      Pass(tables, pages, limit) && StayAt(tables, at, c.spot) ==> exists i :: 0 <= i < |pages| && c in pages[i]
  }

  /** Whatever the length of a page, a row is reached in every pass it stays through exactly when it is alone at its spot. */
  lemma ReachedTheorem(limit: nat, c: Listed, at: set<Listed>)
    requires limit >= 1 && c in at && c.spot.height >= 1 && forall d :: d in at ==> d.spot == c.spot
    ensures AlwaysReached(limit, c, at) <==> at == {c}
  {
    if at == {c} {
      forall tables: seq<set<Listed>>, pages: seq<seq<Listed>> | Pass(tables, pages, limit) && StayAt(tables, at, c.spot)
        ensures exists i :: 0 <= i < |pages| && c in pages[i]
      {
        ReachedOnce(tables, pages, limit, c);
      }
    } else {
      var a :| a in at && a != c;
      var tables, pages := SharedSpotIsPassedOver(limit, a, c, at);
    }
  }
}
