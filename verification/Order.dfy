/** The deliveries of one payment are sent to one endpoint in the order they were made. */
module Order {
  import opened Basics
  import opened Delivery
  import opened Queue

  predicate OfLine(s: Sent, d: Delivery) { s.endpoint == d.endpoint && s.payment == d.payment }

  predicate EndpointGone(q: Queue, e: nat) { e in q.endpoints && q.endpoints[e].deleted }

  /** Numbered before anything that is being made. */
  predicate Below(q: Queue, n: nat) {
    n < q.nextNumber && forall x :: x in q.expanders && q.expanders[x].Inserted? ==> n < q.expanders[x].first
  }

  ghost predicate OneExpander(q: Queue) {
    && (forall x, y :: x in q.expanders && y in q.expanders ==> x == y)
    && (forall x :: x in q.expanders && q.expanders[x].Inserted? ==>
          q.expanders[x].first + |q.expanders[x].to| <= q.nextNumber)
  }

  ghost predicate AllBelow(q: Queue) {
    && (forall n :: n in q.deliveries ==> Below(q, n))
    && (forall i :: 0 <= i < |q.sends| ==> Below(q, q.sends[i].number))
    && (q.sending.Some? ==> forall i :: 0 <= i < |q.sending.value| ==> Below(q, q.sending.value[i]))
  }

  /** A delivery that will never be sent, or not before what follows it in its line. */
  predicate Settled(q: Queue, n: nat)
    requires n in q.deliveries
  {
    q.deliveries[n].state != Pending || EndpointGone(q, q.deliveries[n].endpoint)
  }

  /** What comes before a send in its line is done with, or excused. */
  ghost predicate SentInTurn(q: Queue, ex: set<nat>) {
    forall i, n ::
      0 <= i < |q.sends| && n in q.deliveries && n !in ex && n < q.sends[i].number && OfLine(q.sends[i], q.deliveries[n]) ==>
        Settled(q, n)
  }

  /** What is about to be sent comes after what was sent of its line, and what comes before it is done with. */
  predicate Ready(q: Queue, n: nat, ex: set<nat>) {
    n in q.deliveries && n !in ex ==>
      && (forall i :: 0 <= i < |q.sends| && OfLine(q.sends[i], q.deliveries[n]) ==> q.sends[i].number <= n)
      && (forall m :: m in q.deliveries && m !in ex && m < n && SameLine(q.deliveries[m], q.deliveries[n]) ==> Settled(q, m))
  }

  predicate LinesApart(q: Queue, due: seq<nat>) {
    forall i, j :: 0 <= i < j < |due| ==>
      due[i] != due[j] && (due[i] in q.deliveries && due[j] in q.deliveries ==> !SameLine(q.deliveries[due[i]], q.deliveries[due[j]]))
  }

  ghost predicate DueReady(q: Queue, ex: set<nat>) {
    q.sending.Some? ==> LinesApart(q, q.sending.value) && forall n :: n in q.sending.value ==> Ready(q, n, ex)
  }

  /** The sends of each line are in the order of their numbers; a delivery may be sent again before the next. */
  ghost predicate InOrder(sends: seq<Sent>) {
    forall i, j :: 0 <= i < j < |sends| && sends[i].endpoint == sends[j].endpoint && sends[i].payment == sends[j].payment ==>
      sends[i].number <= sends[j].number
  }

  /** What keeps the order of the sends, but for those that are excused. */
  ghost predicate Ordered(q: Queue, ex: set<nat>) {
    OneExpander(q) && AllBelow(q) && SentInTurn(q, ex) && DueReady(q, ex) && InOrder(q.sends)
  }

  /** Something that comes after a delivery in its line was sent. */
  ghost predicate LaterSent(q: Queue, n: nat)
    requires n in q.deliveries
  {
    exists i :: 0 <= i < |q.sends| && OfLine(q.sends[i], q.deliveries[n]) && q.sends[i].number > n
  }

  /** Something that comes after it in its line was read as due, and may be on its way. */
  ghost predicate LaterInFlight(q: Queue, n: nat)
    requires n in q.deliveries
  {
    q.sending.Some? && exists m :: m in q.sending.value && m in q.deliveries && m > n && SameLine(q.deliveries[m], q.deliveries[n])
  }

  /** A resend that puts its delivery back on its way, rather than being refused. */
  predicate PutsBack(q: Queue, n: nat) {
    && n in q.deliveries && q.deliveries[n].endpoint in q.endpoints
    && !q.endpoints[q.deliveries[n].endpoint].deleted && q.deliveries[n].state != Pending
  }

  /** One expander at a time, and nothing put back on its way that what follows it has overtaken. */
  ghost predicate LoneMove(q: Queue, m: Move) {
    && (m.Expand? && m.expansion.Lock? ==> q.expanders == map[])
    && (m.Other? && m.change.Resend? && PutsBack(q, m.change.number) ==>
          !LaterSent(q, m.change.number) && !LaterInFlight(q, m.change.number))
  }

  // ---- expanding

  lemma ExpansionOrdered(q: Queue, x: nat, m: Expansion, now: Time, ex: set<nat>)
    requires Expands(q, x, m) && LoneMove(q, Expand(x, m, now)) && Ordered(q, ex) && !m.Commit?
    ensures Ordered(AfterExpansion(q, x, m, now), ex)
  {
    var p := AfterExpansion(q, x, m, now);
    assert p.deliveries == q.deliveries && p.sends == q.sends && p.sending == q.sending && p.endpoints == q.endpoints;
    SameRows(q, p, ex);
    forall n | Below(q, n) ensures Below(p, n) {
    }
    hide Below;
  }

  lemma SameRows(q: Queue, p: Queue, ex: set<nat>)
    requires p.deliveries == q.deliveries && p.sends == q.sends && p.sending == q.sending && p.endpoints == q.endpoints
    requires SentInTurn(q, ex) && DueReady(q, ex)
    ensures SentInTurn(p, ex) && DueReady(p, ex)
  {
    forall n | n in p.deliveries ensures Settled(p, n) == Settled(q, n) {
    }
    if p.sending.Some? {
      forall n | n in p.sending.value ensures Ready(p, n, ex) {
        assert Ready(q, n, ex);
      }
    }
  }

  lemma CommitBelow(q: Queue, x: nat, now: Time)
    requires Expands(q, x, Commit) && OneExpander(q) && AllBelow(q)
    ensures var p := AfterExpansion(q, x, Commit, now); OneExpander(p) && AllBelow(p)
  {
    var p := AfterExpansion(q, x, Commit, now);
    assert p.expanders == map[];
    assert forall n :: Below(q, n) ==> Below(p, n);
  }

  /** What was numbered below is untouched by what is committed, which is numbered above it all. */
  lemma CommitRows(q: Queue, x: nat, now: Time)
    requires Expands(q, x, Commit)
    ensures var p := AfterExpansion(q, x, Commit, now);
            && p.sends == q.sends && p.sending == q.sending && p.endpoints == q.endpoints
            && (forall n :: Below(q, n) && n in p.deliveries ==> n in q.deliveries && p.deliveries[n] == q.deliveries[n])
            && (forall n :: n in p.deliveries && n !in q.deliveries ==> !Below(q, n) && forall m :: Below(q, m) ==> m < n)
  {
  }

  lemma CommitOrdered(q: Queue, x: nat, now: Time, ex: set<nat>)
    requires Expands(q, x, Commit) && Ordered(q, ex)
    ensures Ordered(AfterExpansion(q, x, Commit, now), ex)
  {
    var p := AfterExpansion(q, x, Commit, now);
    CommitBelow(q, x, now);
    CommitRows(q, x, now);
    hide AfterExpansion, Expands, Below, OneExpander;
    forall i, n | 0 <= i < |p.sends| && n in p.deliveries && n !in ex && n < p.sends[i].number && OfLine(p.sends[i], p.deliveries[n])
      ensures Settled(p, n)
    {
      assert Below(q, q.sends[i].number);
      assert n in q.deliveries && Settled(q, n);
    }
    if p.sending.Some? {
      forall n | n in p.sending.value ensures Ready(p, n, ex) {
        var i :| 0 <= i < |q.sending.value| && q.sending.value[i] == n;
        assert Below(q, n) && Ready(q, n, ex);
      }
      CommitApart(q, p);
    }
  }

  lemma CommitApart(q: Queue, p: Queue)
    requires q.sending.Some? && LinesApart(q, q.sending.value) && p.sending == q.sending
    requires forall i :: 0 <= i < |q.sending.value| ==> Below(q, q.sending.value[i])
    requires forall n :: Below(q, n) && n in p.deliveries ==> n in q.deliveries && p.deliveries[n] == q.deliveries[n]
    ensures LinesApart(p, p.sending.value)
  {
  }

  // ---- sending and everything else

  /** What a change leaves of the order: rows that stay in their lines, and settle but never come back. */
  ghost predicate Settling(q: Queue, p: Queue) {
    && p.expanders == q.expanders && p.nextNumber == q.nextNumber
    && p.sends == q.sends
    && (forall n :: n in p.deliveries ==>
          n in q.deliveries && SameLine(p.deliveries[n], q.deliveries[n]) && (Settled(q, n) ==> Settled(p, n)))
  }

  lemma SettlingOrdered(q: Queue, p: Queue, ex: set<nat>)
    requires Ordered(q, ex) && Settling(q, p) && (p.sending == q.sending || p.sending.None?)
    ensures Ordered(p, ex)
  {
    assert forall n :: Below(q, n) ==> Below(p, n);
    hide Below, Settled;
    forall i, n | 0 <= i < |p.sends| && n in p.deliveries && n !in ex && n < p.sends[i].number && OfLine(p.sends[i], p.deliveries[n])
      ensures Settled(p, n)
    {
      assert Settled(q, n);
    }
    if p.sending.Some? {
      forall n | n in p.sending.value ensures Ready(p, n, ex) {
        assert Ready(q, n, ex);
      }
    }
  }

  lemma ChangeSettles(q: Queue, m: Change)
    requires Changes(q, m) && !m.Send? && !m.Resend?
    ensures Settling(q, AfterChange(q, m))
  {
  }

  /** What is read as due is the head of its line: whatever was sent of it came before. */
  lemma DueIsReady(q: Queue, now: Time, limit: nat, cap: nat, due: seq<nat>, i: nat, ex: set<nat>)
    requires IsDueRead(q.deliveries, q.endpoints, now, limit, cap, due) && SentInTurn(q, ex) && i < |due|
    ensures Ready(q, due[i], ex)
  {
    var n := due[i];
    assert WithinCap(q.deliveries, q.endpoints, now, cap, n);
    assert !Settled(q, n) && !Waits(q.deliveries, n);
    if n !in ex {
      forall k | 0 <= k < |q.sends| && OfLine(q.sends[k], q.deliveries[n]) ensures q.sends[k].number <= n {
      }
      forall m | m in q.deliveries && m < n && SameLine(q.deliveries[m], q.deliveries[n]) ensures Settled(q, m) {
      }
    }
  }

  lemma DueApart(q: Queue, now: Time, limit: nat, cap: nat, due: seq<nat>)
    requires IsDueRead(q.deliveries, q.endpoints, now, limit, cap, due)
    ensures LinesApart(q, due) && forall i :: 0 <= i < |due| ==> due[i] in q.deliveries
  {
    forall i | 0 <= i < |due| ensures due[i] in q.deliveries {
      assert WithinCap(q.deliveries, q.endpoints, now, cap, due[i]);
    }
    forall i, j | 0 <= i < |due| && 0 <= j < |due| && SameLine(q.deliveries[due[i]], q.deliveries[due[j]]) ensures i == j {
      OneOfALine(q.deliveries, q.endpoints, now, limit, cap, due, i, j);
    }
  }

  lemma ReadOrdered(q: Queue, now: Time, limit: nat, cap: nat, due: seq<nat>, ex: set<nat>)
    requires Changes(q, ReadDue(now, limit, cap, due)) && Ordered(q, ex)
    ensures Ordered(AfterChange(q, ReadDue(now, limit, cap, due)), ex)
  {
    var p := q.(sending := Some(due));
    DueApart(q, now, limit, cap, due);
    hide IsDueRead, Below, Ready, LinesApart;
    forall n ensures Below(p, n) == Below(q, n) && Ready(p, n, ex) == Ready(q, n, ex) {
      SendingAside(q, p, n, ex);
    }
    forall n | n in due ensures Ready(q, n, ex) {
      var i :| 0 <= i < |due| && due[i] == n;
      DueIsReady(q, now, limit, cap, due, i, ex);
    }
    assert LinesApart(p, due) by { ApartAside(q, p, due); }
    TurnAside(q, p, ex);
  }

  lemma SendingAside(q: Queue, p: Queue, n: nat, ex: set<nat>)
    requires p == q.(sending := p.sending)
    ensures Below(p, n) == Below(q, n) && Ready(p, n, ex) == Ready(q, n, ex)
  {
    assert forall m :: m in q.deliveries ==> Settled(p, m) == Settled(q, m);
  }

  lemma ApartAside(q: Queue, p: Queue, due: seq<nat>)
    requires p == q.(sending := p.sending) && LinesApart(q, due)
    ensures LinesApart(p, due)
  {
  }

  lemma TurnAside(q: Queue, p: Queue, ex: set<nat>)
    requires p == q.(sending := p.sending) && SentInTurn(q, ex)
    ensures SentInTurn(p, ex)
  {
    forall i, n | 0 <= i < |p.sends| && n in p.deliveries && n !in ex && n < p.sends[i].number && OfLine(p.sends[i], p.deliveries[n])
      ensures Settled(p, n)
    {
      assert Settled(q, n);
    }
  }

  predicate Distinct(due: seq<nat>) { forall i, j :: 0 <= i < j < |due| ==> due[i] != due[j] }

  lemma DistinctRest(due: seq<nat>)
    requires Distinct(due) && due != []
    ensures Distinct(due[1..]) && due[0] !in due[1..]
  {
    var rest := due[1..];
    assert forall i :: 0 <= i < |rest| ==> rest[i] == due[i + 1];
  }

  lemma {:induction false} DropLeaves(due: seq<nat>, n: nat)
    ensures forall m :: m in Drop(due, n) ==> m in due
    ensures Distinct(due) ==> n !in Drop(due, n) && Distinct(Drop(due, n))
  {
    if due != [] {
      DropLeaves(due[1..], n);
      if Distinct(due) {
        DistinctRest(due);
      }
    }
  }

  lemma SendOrdered(q: Queue, n: nat, delivered: bool, at: Time, jitter: int, written: bool, ex: set<nat>)
    requires Changes(q, Send(n, delivered, at, jitter, written)) && Ordered(q, ex) && n !in ex
    ensures Ordered(AfterChange(q, Send(n, delivered, at, jitter, written)), ex)
  {
    var p := AfterChange(q, Send(n, delivered, at, jitter, written));
    var due := q.sending.value;
    var s := Sent(n, q.deliveries[n].endpoint, q.deliveries[n].payment);
    assert Ready(q, n, ex);
    assert forall m :: m in p.deliveries ==> m in q.deliveries && SameLine(p.deliveries[m], q.deliveries[m]);
    assert forall m :: m in p.deliveries && m != n ==> p.deliveries[m] == q.deliveries[m];
    assert p.sends == q.sends + [s] && p.endpoints == q.endpoints;
    SendBelow(q, p, n);
    SendInTurn(q, p, n, s, ex);
    SendReady(q, p, n, s, ex);
    SendsExactly(q, n);
  }

  lemma SendBelow(q: Queue, p: Queue, n: nat)
    requires OneExpander(q) && AllBelow(q) && q.sending.Some? && n in q.sending.value
    requires p.expanders == q.expanders && p.nextNumber == q.nextNumber
    requires p.sending == Some(Drop(q.sending.value, n)) && p.deliveries.Keys == q.deliveries.Keys
    requires |p.sends| == |q.sends| + 1 && p.sends[..|q.sends|] == q.sends && p.sends[|q.sends|].number == n
    ensures OneExpander(p) && AllBelow(p)
  {
    DropLeaves(q.sending.value, n);
    assert forall m :: Below(q, m) ==> Below(p, m);
    hide Below;
    assert forall m :: m in q.sending.value ==> Below(q, m);
    forall i | 0 <= i < |p.sends| ensures Below(p, p.sends[i].number) {
      assert i < |q.sends| ==> p.sends[i] == q.sends[i];
    }
    forall i | 0 <= i < |p.sending.value| ensures Below(p, p.sending.value[i]) {
      assert p.sending.value[i] in q.sending.value;
    }
  }

  /** One more send, of a delivery that was ready: it may be tried again, and nothing sent of its line comes after it. */
  predicate SendsOne(q: Queue, p: Queue, n: nat, s: Sent) {
    && n in q.deliveries && OfLine(s, q.deliveries[n]) && s.number == n
    && p.deliveries.Keys == q.deliveries.Keys && p.sends == q.sends + [s] && p.endpoints == q.endpoints
    && (forall m :: m in q.deliveries ==> SameLine(p.deliveries[m], q.deliveries[m]) && (m != n ==> p.deliveries[m] == q.deliveries[m]))
  }

  lemma SendInTurn(q: Queue, p: Queue, n: nat, s: Sent, ex: set<nat>)
    requires SentInTurn(q, ex) && SendsOne(q, p, n, s) && Ready(q, n, ex) && n !in ex
    ensures SentInTurn(p, ex)
  {
    forall i, m | 0 <= i < |p.sends| && m in p.deliveries && m !in ex && m < p.sends[i].number && OfLine(p.sends[i], p.deliveries[m])
      ensures Settled(p, m)
    {
      if i < |q.sends| {
        assert p.sends[i] == q.sends[i];
        assert OfLine(q.sends[i], q.deliveries[n]) ==> q.sends[i].number <= n;
        assert Settled(q, m);
      } else {
        assert SameLine(q.deliveries[m], q.deliveries[n]);
        assert Settled(q, m);
      }
    }
  }

  lemma SendReady(q: Queue, p: Queue, n: nat, s: Sent, ex: set<nat>)
    requires DueReady(q, ex) && q.sending.Some? && n in q.sending.value && SendsOne(q, p, n, s)
    requires p.sending == Some(Drop(q.sending.value, n))
    ensures DueReady(p, ex)
  {
    var due := q.sending.value;
    assert Distinct(due);
    DropLeaves(due, n);
    var left := Drop(due, n);
    forall m | m in left ensures Ready(p, m, ex) {
      assert Ready(q, m, ex) && m != n;
      if m in q.deliveries {
        OtherLine(q, due, n, m);
        ReadyStays(q, p, n, s, m, ex);
      }
    }
    forall i, j | 0 <= i < j < |left| && left[i] in p.deliveries && left[j] in p.deliveries
      ensures !SameLine(p.deliveries[left[i]], p.deliveries[left[j]])
    {
      assert left[i] != left[j] && left[i] in due && left[j] in due;
      OtherLine(q, due, left[i], left[j]);
    }
  }

  lemma OtherLine(q: Queue, due: seq<nat>, n: nat, m: nat)
    requires LinesApart(q, due) && n in due && m in due && n != m && n in q.deliveries && m in q.deliveries
    ensures !SameLine(q.deliveries[n], q.deliveries[m])
  {
    var i :| 0 <= i < |due| && due[i] == n;
    var j :| 0 <= j < |due| && due[j] == m;
    assert i < j || j < i;
  }

  lemma ReadyStays(q: Queue, p: Queue, n: nat, s: Sent, m: nat, ex: set<nat>)
    requires SendsOne(q, p, n, s) && Ready(q, m, ex) && m in q.deliveries && !SameLine(q.deliveries[n], q.deliveries[m])
    ensures Ready(p, m, ex)
  {
    if m !in ex {
      forall i | 0 <= i < |p.sends| && OfLine(p.sends[i], p.deliveries[m]) ensures p.sends[i].number <= m {
        assert i < |q.sends| && p.sends[i] == q.sends[i];
      }
      forall k | k in p.deliveries && k !in ex && k < m && SameLine(p.deliveries[k], p.deliveries[m]) ensures Settled(p, k) {
        assert Settled(q, k);
      }
    }
  }

  /** One more send keeps the order exactly where nothing after it in its line has gone. */
  lemma SendsExactly(q: Queue, n: nat)
    requires InOrder(q.sends) && n in q.deliveries
    ensures InOrder(q.sends + [Sent(n, q.deliveries[n].endpoint, q.deliveries[n].payment)]) <==> !LaterSent(q, n)
  {
    var s := Sent(n, q.deliveries[n].endpoint, q.deliveries[n].payment);
    var more := q.sends + [s];
    if LaterSent(q, n) {
      var i :| 0 <= i < |q.sends| && OfLine(q.sends[i], q.deliveries[n]) && q.sends[i].number > n;
      assert more[i] == q.sends[i] && more[|q.sends|] == s;
    } else {
      forall i, j | 0 <= i < j < |more| && more[i].endpoint == more[j].endpoint && more[i].payment == more[j].payment
        ensures more[i].number <= more[j].number
      {
        assert more[i] == q.sends[i];
        if j == |q.sends| {
          assert OfLine(q.sends[i], q.deliveries[n]);
        }
      }
    }
  }

  lemma EmitOrdered(q: Queue, event: Row, ex: set<nat>)
    requires Ordered(q, ex)
    ensures Ordered(Apply(q, Emit(event)), ex)
  {
    var p := Apply(q, Emit(event));
    assert forall n :: Below(q, n) ==> Below(p, n);
    hide Below;
    SameRows(q, p, ex);
  }

  // ---- putting back on its way

  /** Whatever is put back is excused, and needs no excuse where nothing after it in its line has gone or is going. */
  lemma ResendOrdered(q: Queue, n: nat, at: Time, ex: set<nat>)
    requires Changes(q, Resend(n, at)) && PutsBack(q, n) && Ordered(q, ex)
    ensures Ordered(AfterChange(q, Resend(n, at)), ex + {n})
    ensures !LaterSent(q, n) && !LaterInFlight(q, n) ==> Ordered(AfterChange(q, Resend(n, at)), ex)
  {
    var p := AfterChange(q, Resend(n, at));
    PutBackIs(q, n, at);
    assert forall m :: Below(q, m) ==> Below(p, m);
    forall m | m in p.deliveries && m != n ensures Settled(p, m) == Settled(q, m) {
    }
    hide AfterChange, Below, Settled;
    assert LinesApart(q, []) && forall k :: Below(q, k) == Below(p, k);
    PutBackTurn(q, p, n, ex);
    PutBackReady(q, p, n, ex);
  }

  predicate PutBack(q: Queue, p: Queue, n: nat) {
    && n in q.deliveries && p == q.(deliveries := p.deliveries) && p.deliveries.Keys == q.deliveries.Keys
    && (forall m :: m in q.deliveries ==> SameLine(p.deliveries[m], q.deliveries[m]) && (m != n ==> p.deliveries[m] == q.deliveries[m]))
  }

  lemma PutBackIs(q: Queue, n: nat, at: Time)
    requires Changes(q, Resend(n, at)) && PutsBack(q, n)
    ensures PutBack(q, AfterChange(q, Resend(n, at)), n)
  {
  }

  lemma PutBackTurn(q: Queue, p: Queue, n: nat, ex: set<nat>)
    requires PutBack(q, p, n) && SentInTurn(q, ex)
    ensures SentInTurn(p, ex + {n}) && (!LaterSent(q, n) ==> SentInTurn(p, ex))
  {
    forall i, m | 0 <= i < |p.sends| && m in p.deliveries && m !in ex && m != n
                  && m < p.sends[i].number && OfLine(p.sends[i], p.deliveries[m])
      ensures Settled(p, m)
    {
      assert Settled(q, m);
    }
  }

  lemma PutBackReady(q: Queue, p: Queue, n: nat, ex: set<nat>)
    requires PutBack(q, p, n) && DueReady(q, ex)
    ensures DueReady(p, ex + {n}) && (!LaterInFlight(q, n) ==> DueReady(p, ex))
  {
    if p.sending.Some? {
      forall m | m in p.sending.value
        ensures Ready(p, m, ex + {n}) && (!LaterInFlight(q, n) ==> Ready(p, m, ex))
      {
        assert Ready(q, m, ex);
        if m in p.deliveries && m !in ex {
          forall k | k in p.deliveries && k !in ex && k != n && k < m && SameLine(p.deliveries[k], p.deliveries[m])
            ensures Settled(p, k)
          {
            assert Settled(q, k);
          }
        }
      }
    }
  }

  lemma OrderedStep(q: Queue, m: Move, p: Queue, ex: set<nat>)
    requires Next(q, m, p) && LoneMove(q, m) && Ordered(q, ex)
    requires m.Other? && m.change.Send? ==> m.change.number !in ex
    ensures Ordered(p, ex)
  {
    hide Ordered, AfterChange, AfterExpansion, Changes, Expands, LaterSent, LaterInFlight;
    match m
    case Emit(event) => EmitOrdered(q, event, ex);
    case Expand(x, expansion, now) =>
      if expansion.Commit? {
        CommitOrdered(q, x, now, ex);
      } else {
        ExpansionOrdered(q, x, expansion, now, ex);
      }
    case Other(change) => ChangeOrdered(q, change, ex);
  }

  lemma ChangeOrdered(q: Queue, m: Change, ex: set<nat>)
    requires Changes(q, m) && LoneMove(q, Other(m)) && Ordered(q, ex) && (m.Send? ==> m.number !in ex)
    ensures Ordered(AfterChange(q, m), ex)
  {
    hide Ordered, Settling, LaterSent, LaterInFlight;
    if m.Send? {
      SendOrdered(q, m.number, m.delivered, m.at, m.jitter, m.written, ex);
    } else if m.ReadDue? {
      ReadOrdered(q, m.now, m.limit, m.cap, m.due, ex);
    } else if m.Resend? {
      if PutsBack(q, m.number) {
        ResendOrdered(q, m.number, m.at, ex);
      }
    } else {
      ChangeSettles(q, m);
      SettlingOrdered(q, AfterChange(q, m), ex);
    }
  }

  lemma {:induction false} OrderedRun(qs: seq<Queue>, ms: seq<Move>, i: nat)
    requires Run(qs, ms) && i < |qs|
    requires forall k :: 0 <= k < i ==> LoneMove(qs[k], ms[k])
    ensures Ordered(qs[i], {})
  {
    hide Next, LoneMove;
    if i > 0 {
      hide Ordered;
      OrderedRun(qs, ms, i - 1);
      OrderedStep(qs[i - 1], ms[i - 1], qs[i], {});
    }
  }

  /**
   Over every run with one worker at a time, and nothing put back on its way that
   what follows it has overtaken: of all the sends ever made, those to one endpoint
   about one payment are in the order the deliveries were made in, whatever failed,
   expired, was resent, was disabled or was deleted.
   */
  lemma OrderTheorem(qs: seq<Queue>, ms: seq<Move>, i: nat)
    requires Run(qs, ms) && i < |qs|
    requires forall k :: 0 <= k < i ==> LoneMove(qs[k], ms[k])
    ensures InOrder(qs[i].sends)
  {
    hide Next, LoneMove;
    OrderedRun(qs, ms, i);
  }

  /** No attempt is made at a delivery an earlier one of its line is pending before, unless its endpoint is gone. */
  lemma NoneOvertakes(qs: seq<Queue>, ms: seq<Move>, i: nat, n: nat, earlier: nat)
    requires Run(qs, ms) && i < |ms|
    requires forall k :: 0 <= k < i ==> LoneMove(qs[k], ms[k])
    requires ms[i].Other? && ms[i].change.Send? && ms[i].change.number == n
    requires earlier in qs[i].deliveries && n in qs[i].deliveries && earlier < n
    requires SameLine(qs[i].deliveries[earlier], qs[i].deliveries[n])
    ensures qs[i].deliveries[earlier].state != Pending || EndpointGone(qs[i], qs[i].deliveries[earlier].endpoint)
  {
    hide LoneMove;
    OrderedRun(qs, ms, i);
    assert Next(qs[i], ms[i], qs[i + 1]);
    assert Ready(qs[i], n, {});
  }

  // ---- exactly which resends keep the order

  /** From a resend on, until its delivery is sent again: the order holds but for that delivery. */
  lemma {:induction false} ExcusedRun(qs: seq<Queue>, ms: seq<Move>, i: nat, n: nat, at: Time, j: nat)
    requires Run(qs, ms) && i < j <= |ms| && ms[i] == Other(Resend(n, at))
    requires forall k :: 0 <= k < j && k != i ==> LoneMove(qs[k], ms[k])
    requires forall k :: i < k < j && ms[k].Other? && ms[k].change.Send? ==> ms[k].change.number != n
    requires Changes(qs[i], Resend(n, at)) && PutsBack(qs[i], n)
    ensures Ordered(qs[j], {n})
    decreases j
  {
    hide LoneMove, Ordered;
    if j == i + 1 {
      OrderedRun(qs, ms, i);
      assert Next(qs[i], ms[i], qs[i + 1]);
      ResendOrdered(qs[i], n, at, {});
      assert {} + {n} == {n};
    } else {
      ExcusedRun(qs, ms, i, n, at, j - 1);
      OrderedStep(qs[j - 1], ms[j - 1], qs[j], {n});
    }
  }

  ghost predicate LaterOfLine(q: Queue, n: nat, d: Delivery) {
    exists i :: 0 <= i < |q.sends| && OfLine(q.sends[i], d) && q.sends[i].number > n
  }

  /** A delivery on its way holds back what comes after it in its line, and none of that is in flight. */
  ghost predicate HoldsBack(q: Queue, n: nat, d: Delivery) {
    && Below(q, n) && (n in q.deliveries ==> SameLine(q.deliveries[n], d))
    && (EndpointGone(q, d.endpoint) || (n in q.deliveries && SameLine(q.deliveries[n], d) && q.deliveries[n].state == Pending))
    && (q.sending.Some? ==> forall m :: m in q.sending.value && m in q.deliveries && SameLine(q.deliveries[m], d) ==> m <= n)
  }

  lemma SendHoldsBack(q: Queue, m: Change, n: nat, d: Delivery)
    requires Changes(q, m) && m.Send? && m.number != n && HoldsBack(q, n, d)
    ensures var p := AfterChange(q, m); HoldsBack(p, n, d) && (LaterOfLine(p, n, d) <==> LaterOfLine(q, n, d))
  {
    var p := AfterChange(q, m);
    DropLeaves(q.sending.value, m.number);
    assert p.sends == q.sends + [Sent(m.number, q.deliveries[m.number].endpoint, q.deliveries[m.number].payment)];
    forall i | 0 <= i < |p.sends| && OfLine(p.sends[i], d) && p.sends[i].number > n ensures i < |q.sends| {
      assert i == |q.sends| ==> SameLine(q.deliveries[m.number], d);
    }
    if LaterOfLine(q, n, d) {
      var i :| 0 <= i < |q.sends| && OfLine(q.sends[i], d) && q.sends[i].number > n;
      assert p.sends[i] == q.sends[i];
    }
  }

  lemma ReadHoldsBack(q: Queue, m: Change, n: nat, d: Delivery)
    requires Changes(q, m) && m.ReadDue? && HoldsBack(q, n, d)
    ensures HoldsBack(AfterChange(q, m), n, d)
  {
    forall k | k in m.due && k in q.deliveries && SameLine(q.deliveries[k], d) ensures k <= n {
      var i :| 0 <= i < |m.due| && m.due[i] == k;
      assert WithinCap(q.deliveries, q.endpoints, m.now, m.cap, m.due[i]);
      assert !Waits(q.deliveries, k);
    }
  }

  lemma ChangeHoldsBack(q: Queue, m: Change, n: nat, d: Delivery)
    requires Changes(q, m) && !m.Send? && !m.ReadDue? && HoldsBack(q, n, d)
    ensures var p := AfterChange(q, m); HoldsBack(p, n, d) && p.sends == q.sends
  {
  }

  lemma CommitHoldsBack(q: Queue, x: nat, now: Time, n: nat, d: Delivery)
    requires Expands(q, x, Commit) && HoldsBack(q, n, d) && AllBelow(q)
    ensures var p := AfterExpansion(q, x, Commit, now); HoldsBack(p, n, d) && p.sends == q.sends
  {
    var p := AfterExpansion(q, x, Commit, now);
    CommitRows(q, x, now);
    hide AfterExpansion, Expands;
    if n in q.deliveries {
      assert n in p.deliveries by { CommitKeeps(q, x, now, n); }
    }
    if q.sending.Some? {
      forall m | m in p.sending.value && m in p.deliveries && SameLine(p.deliveries[m], d) ensures m <= n {
        var i :| 0 <= i < |q.sending.value| && q.sending.value[i] == m;
        assert Below(q, m);
      }
    }
  }

  lemma CommitKeeps(q: Queue, x: nat, now: Time, n: nat)
    requires Expands(q, x, Commit) && n in q.deliveries
    ensures n in AfterExpansion(q, x, Commit, now).deliveries
  {
  }

  lemma HoldsBackStep(q: Queue, m: Move, p: Queue, n: nat, d: Delivery)
    requires Next(q, m, p) && AllBelow(q) && HoldsBack(q, n, d)
    requires m.Other? && m.change.Send? ==> m.change.number != n
    ensures HoldsBack(p, n, d) && (LaterOfLine(p, n, d) <==> LaterOfLine(q, n, d))
  {
    hide HoldsBack, AllBelow;
    match m
    case Emit(event) => EmitHoldsBack(q, event, n, d);
    case Expand(x, expansion, now) =>
      if expansion.Commit? {
        CommitHoldsBack(q, x, now, n, d);
      } else {
        ExpansionHoldsBack(q, x, expansion, now, n, d);
      }
    case Other(change) =>
      hide AfterChange, Changes;
      if change.Send? {
        SendHoldsBack(q, change, n, d);
      } else if change.ReadDue? {
        ReadHoldsBack(q, change, n, d);
        assert AfterChange(q, change).sends == q.sends by { ReadSendsNone(q, change); }
      } else {
        ChangeHoldsBack(q, change, n, d);
      }
  }

  lemma ReadSendsNone(q: Queue, m: Change)
    requires Changes(q, m) && m.ReadDue?
    ensures AfterChange(q, m).sends == q.sends
  {
  }

  lemma EmitHoldsBack(q: Queue, event: Row, n: nat, d: Delivery)
    requires HoldsBack(q, n, d)
    ensures HoldsBack(Apply(q, Emit(event)), n, d)
  {
  }

  lemma ExpansionHoldsBack(q: Queue, x: nat, m: Expansion, now: Time, n: nat, d: Delivery)
    requires Expands(q, x, m) && !m.Commit? && HoldsBack(q, n, d)
    ensures var p := AfterExpansion(q, x, m, now); HoldsBack(p, n, d) && p.sends == q.sends
  {
  }

  lemma BelowOf(q: Queue, ex: set<nat>)
    requires Ordered(q, ex)
    ensures AllBelow(q)
  {
  }

  lemma PutBackHolds(q: Queue, n: nat, at: Time)
    requires Changes(q, Resend(n, at)) && PutsBack(q, n) && !LaterInFlight(q, n) && Below(q, n)
    ensures HoldsBack(AfterChange(q, Resend(n, at)), n, q.deliveries[n])
  {
  }

  lemma {:induction false} HeldBackRun(qs: seq<Queue>, ms: seq<Move>, i: nat, n: nat, at: Time, j: nat)
    requires Run(qs, ms) && i < j <= |ms| && ms[i] == Other(Resend(n, at))
    requires forall k :: 0 <= k < j && k != i ==> LoneMove(qs[k], ms[k])
    requires forall k :: i < k < j && ms[k].Other? && ms[k].change.Send? ==> ms[k].change.number != n
    requires Changes(qs[i], Resend(n, at)) && PutsBack(qs[i], n) && !LaterInFlight(qs[i], n)
    ensures HoldsBack(qs[j], n, qs[i].deliveries[n])
    ensures LaterOfLine(qs[j], n, qs[i].deliveries[n]) <==> LaterOfLine(qs[i], n, qs[i].deliveries[n])
    decreases j
  {
    hide LoneMove, Ordered, HoldsBack, LaterInFlight, LaterOfLine;
    if j == i + 1 {
      assert Next(qs[i], ms[i], qs[i + 1]);
      OrderedRun(qs, ms, i);
      BelowOf(qs[i], {});
      PutBackHolds(qs[i], n, at);
      PutBackIs(qs[i], n, at);
      SameSends(qs[i], qs[j], n, qs[i].deliveries[n]);
    } else {
      HeldBackRun(qs, ms, i, n, at, j - 1);
      ExcusedRun(qs, ms, i, n, at, j - 1);
      BelowOf(qs[j - 1], {n});
      assert Next(qs[j - 1], ms[j - 1], qs[j]);
      hide Next;
      HoldsBackStep(qs[j - 1], ms[j - 1], qs[j], n, qs[i].deliveries[n]);
    }
  }

  lemma SameSends(q: Queue, p: Queue, n: nat, d: Delivery)
    requires p.sends == q.sends
    ensures LaterOfLine(p, n, d) <==> LaterOfLine(q, n, d)
  {
  }

  /**
   A delivery is put back on its way and is next sent at some later step, with
   nothing else out of turn. The sends are then in order if and only if nothing
   after it in its line was sent by then; and with nothing of that in flight when it
   was put back, if and only if nothing was sent by the time it was put back.
   */
  lemma ResendTheorem(qs: seq<Queue>, ms: seq<Move>, i: nat, n: nat, at: Time, j: nat)
    requires Run(qs, ms) && i < j < |ms| && ms[i] == Other(Resend(n, at)) && PutsBack(qs[i], n)
    requires ms[j].Other? && ms[j].change.Send? && ms[j].change.number == n
    requires forall k :: 0 <= k < j && k != i ==> LoneMove(qs[k], ms[k])
    requires forall k :: i < k < j && ms[k].Other? && ms[k].change.Send? ==> ms[k].change.number != n
    ensures n in qs[j].deliveries && (InOrder(qs[j + 1].sends) <==> !LaterSent(qs[j], n))
    ensures !LaterInFlight(qs[i], n) ==> (InOrder(qs[j + 1].sends) <==> !LaterSent(qs[i], n))
  {
    assert Next(qs[i], ms[i], qs[i + 1]) && Next(qs[j], ms[j], qs[j + 1]);
    hide LoneMove, Ordered;
    ExcusedRun(qs, ms, i, n, at, j);
    assert InOrder(qs[j].sends) by { OrderOf(qs[j], {n}); }
    SendsExactly(qs[j], n);
    if !LaterInFlight(qs[i], n) {
      HeldBackRun(qs, ms, i, n, at, j);
      hide LaterInFlight;
      assert LaterSent(qs[j], n) <==> LaterOfLine(qs[j], n, qs[i].deliveries[n]);
      assert LaterSent(qs[i], n) <==> LaterOfLine(qs[i], n, qs[i].deliveries[n]);
    }
  }

  lemma OrderOf(q: Queue, ex: set<nat>)
    requires Ordered(q, ex)
    ensures InOrder(q.sends)
  {
  }
}
