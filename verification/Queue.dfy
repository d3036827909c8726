/** The outbox turned into deliveries and the deliveries sent, over every run. */
module Queue {
  import opened Basics
  import opened Delivery

  /** A row of the outbox. */
  datatype Row = Row(account: nat, payment: Option<nat>, event: nat)

  /** How far one expander has got with the row it holds the lock on. */
  datatype Phase =
    | Locked(row: nat)
    | Listed(row: nat, to: seq<nat>)
    | Inserted(row: nat, to: seq<nat>, first: nat)

  /** One send: of which delivery, and what line it is in. */
  datatype Sent = Sent(number: nat, endpoint: nat, payment: Option<nat>)

  /** Which row a delivery was made of, and to which endpoint. */
  datatype Made = Made(row: nat, endpoint: nat)

  /**
   The queue. Beside the tables and what is under way it keeps two records nothing
   reads: what every row was turned into, and every send in its order.
   */
  datatype Queue = Queue(
    outbox: map<nat, Row>,
    nextRow: nat,
    deliveries: Deliveries,
    nextNumber: nat,
    endpoints: map<nat, Endpoint>,
    expanders: map<nat, Phase>,
    sending: Option<seq<nat>>,
    took: map<nat, set<nat>>,
    made: map<nat, Made>,
    sends: seq<Sent>)

  predicate Receives(endpoints: map<nat, Endpoint>, e: nat, row: Row) {
    && Reachable(endpoints, e)
    && (endpoints[e].account == Some(row.account) || endpoints[e].account.None?)
    && (endpoints[e].events.None? || row.event in endpoints[e].events.value)
  }

  /** Every endpoint a row goes to, each once. */
  ghost predicate IsReceiving(endpoints: map<nat, Endpoint>, row: Row, to: seq<nat>) {
    && (forall i, j :: 0 <= i < j < |to| ==> to[i] != to[j])
    && (forall e :: e in to <==> Receives(endpoints, e, row))
  }

  predicate Held(q: Queue, row: nat) { exists x :: x in q.expanders && q.expanders[x].row == row }

  /** The statements of the transaction that takes one row. */
  datatype Expansion =
    | Lock(row: nat)
    | List(to: seq<nat>)
    | Insert
    | Commit
    | Abort

  datatype Change =
    | ReadDue(now: Time, limit: nat, cap: nat, due: seq<nat>)
    | Send(number: nat, delivered: bool, at: Time, jitter: int, written: bool)
    | EndRound
    | Sweep(gone: set<nat>)
    | Register(endpoint: nat, account: Option<nat>, events: Option<set<nat>>)
    | Enable(endpoint: nat, enabled: bool)
    | Delete(endpoint: nat)
    | Resend(number: nat, at: Time)

  datatype Move =
    | Emit(event: Row)
    | Expand(x: nat, expansion: Expansion, now: Time)
    | Other(change: Change)

  ghost predicate Expands(q: Queue, x: nat, m: Expansion) {
    match m
    case Lock(row) =>
      && x !in q.expanders && row in q.outbox && !Held(q, row)
      && forall other :: other in q.outbox && !Held(q, other) ==> row <= other
    case List(to) =>
      && x in q.expanders && q.expanders[x].Locked? && q.expanders[x].row in q.outbox
      && IsReceiving(q.endpoints, q.outbox[q.expanders[x].row], to)
    case Insert => x in q.expanders && q.expanders[x].Listed?
    case Commit => x in q.expanders && q.expanders[x].Inserted? && q.expanders[x].row in q.outbox
    case Abort => x in q.expanders
  }

  ghost predicate Changes(q: Queue, m: Change) {
    match m
    case ReadDue(now, limit, cap, due) => q.sending.None? && IsDueRead(q.deliveries, q.endpoints, now, limit, cap, due)
    case Send(n, _, _, _, _) => q.sending.Some? && n in q.sending.value && n in q.deliveries
    case EndRound => true
    case Sweep(gone) => forall n :: n in gone && n in q.deliveries ==> q.deliveries[n].state != Pending
    case Register(e, _, _) => e !in q.endpoints
    case Enable(e, _) => e in q.endpoints
    case Delete(e) => e in q.endpoints
    case Resend(n, at) => n in q.deliveries && q.deliveries[n].endpoint in q.endpoints
  }

  ghost predicate Enabled(q: Queue, m: Move) {
    match m
    case Emit(_) => true
    case Expand(x, expansion, _) => Expands(q, x, expansion)
    case Other(change) => Changes(q, change)
  }

  /** The deliveries one row makes, numbered in the order of the endpoints. */
  function MadeOf(row: Row, to: seq<nat>, first: nat, now: Time): (made: Deliveries)
    ensures forall n :: n in made <==> first <= n < first + |to|
    ensures forall n :: n in made ==> made[n] == Delivery(to[n - first], row.payment, row.event, Pending, 0, Some(now))
  {
    if to == [] then map[]
    else
      var n := |to| - 1;
      MadeOf(row, to[..n], first, now)[first + n := Delivery(to[n], row.payment, row.event, Pending, 0, Some(now))]
  }

  function RecordOf(row: nat, to: seq<nat>, first: nat): (record: map<nat, Made>)
    ensures forall n :: n in record <==> first <= n < first + |to|
    ensures forall n :: n in record ==> record[n] == Made(row, to[n - first])
  {
    if to == [] then map[]
    else
      var n := |to| - 1;
      RecordOf(row, to[..n], first)[first + n := Made(row, to[n])]
  }

  function Among(to: seq<nat>): set<nat> { set e | e in to }

  /** A list without the first place a number stands at. */
  function Drop(due: seq<nat>, n: nat): seq<nat> {
    if due == [] then [] else if due[0] == n then due[1..] else [due[0]] + Drop(due[1..], n)
  }

  function AfterExpansion(q: Queue, x: nat, m: Expansion, now: Time): Queue
    requires Expands(q, x, m)
  {
    match m
    case Lock(row) => q.(expanders := q.expanders[x := Locked(row)])
    case List(to) => q.(expanders := q.expanders[x := Listed(q.expanders[x].row, to)])
    case Insert =>
      q.(expanders := q.expanders[x := Inserted(q.expanders[x].row, q.expanders[x].to, q.nextNumber)],
         nextNumber := q.nextNumber + |q.expanders[x].to|)
    case Commit =>
      var p := q.expanders[x];
      q.(outbox := q.outbox - {p.row},
         deliveries := q.deliveries + MadeOf(q.outbox[p.row], p.to, p.first, now),
         took := q.took[p.row := Among(p.to)],
         made := q.made + RecordOf(p.row, p.to, p.first),
         expanders := q.expanders - {x})
    case Abort => q.(expanders := q.expanders - {x})
  }

  function AfterChange(q: Queue, m: Change): Queue
    requires Changes(q, m)
  {
    match m
    case ReadDue(_, _, _, due) => q.(sending := Some(due))
    case Send(n, delivered, at, jitter, written) =>
      q.(sending := Some(Drop(q.sending.value, n)),
         sends := q.sends + [Sent(n, q.deliveries[n].endpoint, q.deliveries[n].payment)],
         deliveries := if written then q.deliveries[n := Attempted(q.deliveries[n], delivered, at, jitter)] else q.deliveries)
    case EndRound => q.(sending := None)
    case Sweep(gone) => q.(deliveries := q.deliveries - gone)
    case Register(e, account, events) => q.(endpoints := q.endpoints[e := Endpoint(account, events, true, false)])
    case Enable(e, enabled) =>
      q.(endpoints := q.endpoints[e := q.endpoints[e].(enabled := enabled && !q.endpoints[e].deleted)])
    case Delete(e) =>
      q.(endpoints := q.endpoints[e := q.endpoints[e].(enabled := false, deleted := true)],
         deliveries := map n | n in q.deliveries ::
           if q.deliveries[n].endpoint == e && q.deliveries[n].state == Pending
           then q.deliveries[n].(state := Failed, nextAt := None) else q.deliveries[n])
    case Resend(n, at) =>
      if q.endpoints[q.deliveries[n].endpoint].deleted then q
      else
        match Resent(q.deliveries[n], at)
        case None => q
        case Some(d) => q.(deliveries := q.deliveries[n := d])
  }

  function Apply(q: Queue, m: Move): Queue
    requires Enabled(q, m)
  {
    match m
    case Emit(event) => q.(outbox := q.outbox[q.nextRow := event], nextRow := q.nextRow + 1)
    case Expand(x, expansion, now) => AfterExpansion(q, x, expansion, now)
    case Other(change) => AfterChange(q, change)
  }

  ghost predicate Next(q: Queue, m: Move, p: Queue) { Enabled(q, m) && p == Apply(q, m) }

  ghost predicate Initial(q: Queue) {
    && q.outbox == map[] && q.nextRow == 0 && q.deliveries == map[] && q.nextNumber == 0
    && q.expanders == map[] && q.sending == None
    && q.took == map[] && q.made == map[] && q.sends == []
  }

  ghost predicate Run(qs: seq<Queue>, ms: seq<Move>) {
    && |qs| == |ms| + 1 && Initial(qs[0])
    && forall i :: 0 <= i < |ms| ==> Next(qs[i], ms[i], qs[i + 1])
  }

  // ---- conservation

  /** No two expanders hold one row, and each row held is there; deliveries to be are numbered apart. */
  predicate Apart(p: Phase, o: Phase) {
    && p.row != o.row
    && (p.Inserted? && o.Inserted? ==> p.first + |p.to| <= o.first || o.first + |o.to| <= p.first)
  }

  predicate EachOnce(to: seq<nat>) { forall i, j :: 0 <= i < j < |to| ==> to[i] != to[j] }

  predicate PhaseSound(q: Queue, p: Phase) {
    && p.row in q.outbox
    && (!p.Locked? ==> EachOnce(p.to))
    && (p.Inserted? ==> p.first + |p.to| <= q.nextNumber && forall n :: p.first <= n < p.first + |p.to| ==> n !in q.made)
  }

  ghost predicate HoldsApart(q: Queue) {
    && (forall x :: x in q.expanders ==> PhaseSound(q, q.expanders[x]))
    && (forall x, y :: x in q.expanders && y in q.expanders && x != y ==> Apart(q.expanders[x], q.expanders[y]))
    && (forall n :: n in q.made ==> n < q.nextNumber)
  }

  /** Every row emitted is there or was taken, never both. */
  ghost predicate RowsConserved(q: Queue) {
    && (forall id :: id in q.outbox ==> id < q.nextRow && id !in q.took)
    && (forall id :: id in q.took ==> id < q.nextRow)
    && (forall id :: 0 <= id < q.nextRow ==> id in q.outbox || id in q.took)
  }

  ghost predicate MadeFor(q: Queue, id: nat, e: nat) { exists n :: n in q.made && q.made[n] == Made(id, e) }

  /** What was taken was made into one delivery to each endpoint it was taken for, and nothing else was made. */
  ghost predicate MadeConserved(q: Queue) {
    && (forall n :: n in q.made ==> q.made[n].row in q.took && q.made[n].endpoint in q.took[q.made[n].row])
    && (forall id, e :: id in q.took && e in q.took[id] ==> MadeFor(q, id, e))
    && (forall m, n :: m in q.made && n in q.made && q.made[m] == q.made[n] ==> m == n)
  }

  /** Every delivery there is was made, to the endpoint it is to. */
  ghost predicate DeliveriesMade(q: Queue) {
    forall n :: n in q.deliveries ==> n in q.made && q.made[n].endpoint == q.deliveries[n].endpoint
  }

  ghost predicate Conserved(q: Queue) { HoldsApart(q) && RowsConserved(q) && MadeConserved(q) && DeliveriesMade(q) }

  /** What does not expand leaves what is being expanded, and what was, alone. */
  lemma ChangeLeaves(q: Queue, m: Change)
    requires Changes(q, m)
    ensures var p := AfterChange(q, m);
            && p.outbox == q.outbox && p.nextRow == q.nextRow && p.nextNumber == q.nextNumber && p.expanders == q.expanders
            && p.took == q.took && p.made == q.made
            && p.deliveries.Keys <= q.deliveries.Keys
            && (forall n :: n in p.deliveries ==>
                  SameLine(p.deliveries[n], q.deliveries[n]) && p.deliveries[n].event == q.deliveries[n].event)
            && (forall e :: e in q.endpoints && q.endpoints[e].deleted ==> e in p.endpoints && p.endpoints[e].deleted)
  {
  }

  lemma PhaseKept(q: Queue, o: Queue, p: Phase)
    requires PhaseSound(q, p) && p.row in o.outbox && q.nextNumber <= o.nextNumber
    requires p.Inserted? ==> forall n :: n in o.made && n !in q.made ==> !(p.first <= n < p.first + |p.to|)
    ensures PhaseSound(o, p)
  {
  }

  lemma CommitHolds(q: Queue, x: nat, now: Time)
    requires Expands(q, x, Commit) && HoldsApart(q)
    ensures HoldsApart(AfterExpansion(q, x, Commit, now))
  {
    var p := AfterExpansion(q, x, Commit, now);
    assert PhaseSound(q, q.expanders[x]);
    forall y | y in p.expanders ensures PhaseSound(p, p.expanders[y]) {
      assert Apart(q.expanders[x], q.expanders[y]);
      PhaseKept(q, p, q.expanders[y]);
    }
  }

  lemma InsertHolds(q: Queue, x: nat, now: Time)
    requires Expands(q, x, Insert) && HoldsApart(q)
    ensures HoldsApart(AfterExpansion(q, x, Insert, now))
  {
    var p := AfterExpansion(q, x, Insert, now);
    forall y | y in p.expanders && y != x ensures PhaseSound(p, p.expanders[y]) && Apart(p.expanders[x], p.expanders[y]) {
      assert PhaseSound(q, q.expanders[y]) && Apart(q.expanders[x], q.expanders[y]);
    }
    assert PhaseSound(q, q.expanders[x]);
  }

  lemma LockHolds(q: Queue, x: nat, row: nat, now: Time)
    requires Expands(q, x, Lock(row)) && HoldsApart(q)
    ensures HoldsApart(AfterExpansion(q, x, Lock(row), now))
  {
    var p := AfterExpansion(q, x, Lock(row), now);
    forall y | y in p.expanders && y != x ensures PhaseSound(p, p.expanders[y]) && Apart(p.expanders[x], p.expanders[y]) {
      assert PhaseSound(q, q.expanders[y]);
    }
  }

  lemma ListHolds(q: Queue, x: nat, to: seq<nat>, now: Time)
    requires Expands(q, x, List(to)) && HoldsApart(q)
    ensures HoldsApart(AfterExpansion(q, x, List(to), now))
  {
    var p := AfterExpansion(q, x, List(to), now);
    assert PhaseSound(q, q.expanders[x]);
    forall y | y in p.expanders && y != x ensures PhaseSound(p, p.expanders[y]) && Apart(p.expanders[x], p.expanders[y]) {
      assert PhaseSound(q, q.expanders[y]) && Apart(q.expanders[x], q.expanders[y]);
    }
  }

  lemma QuietHolds(q: Queue, p: Queue)
    requires HoldsApart(q) && p.nextNumber == q.nextNumber && p.made == q.made
    requires forall y :: y in p.expanders ==> y in q.expanders && p.expanders[y] == q.expanders[y]
    requires forall row :: row in q.outbox ==> row in p.outbox
    ensures HoldsApart(p)
  {
    forall y | y in p.expanders ensures PhaseSound(p, p.expanders[y]) {
      PhaseKept(q, p, q.expanders[y]);
    }
  }

  lemma HoldsStep(q: Queue, m: Move, p: Queue)
    requires Next(q, m, p) && HoldsApart(q)
    ensures HoldsApart(p)
  {
    hide HoldsApart;
    match m
    case Emit(event) => QuietHolds(q, p);
    case Other(change) => ChangeLeaves(q, change); QuietHolds(q, p);
    case Expand(x, expansion, now) =>
      match expansion {
        case Lock(row) => LockHolds(q, x, row, now);
        case List(to) => ListHolds(q, x, to, now);
        case Insert => InsertHolds(q, x, now);
        case Commit => CommitHolds(q, x, now);
        case Abort => QuietHolds(q, p);
      }
  }

  lemma RowsStep(q: Queue, m: Move, p: Queue)
    requires Next(q, m, p) && RowsConserved(q)
    ensures RowsConserved(p)
  {
    if m.Other? {
      ChangeLeaves(q, m.change);
      hide AfterChange, Changes;
    } else if m.Expand? {
      ExpansionRows(q, m.x, m.expansion, m.now);
      hide AfterExpansion, Expands;
    }
  }

  /** An expansion takes the row it commits, and no other. */
  lemma ExpansionRows(q: Queue, x: nat, m: Expansion, now: Time)
    requires Expands(q, x, m)
    ensures var p := AfterExpansion(q, x, m, now);
            && p.nextRow == q.nextRow
            && if m.Commit? then
                 && p.outbox == q.outbox - {q.expanders[x].row}
                 && p.took == q.took[q.expanders[x].row := Among(q.expanders[x].to)]
                 && q.expanders[x].row in q.outbox
               else p.outbox == q.outbox && p.took == q.took && p.made == q.made && p.deliveries == q.deliveries
  {
  }

  /** A record makes one delivery to each endpoint, beside what was made before. */
  lemma RecordMakes(made: map<nat, Made>, row: nat, to: seq<nat>, first: nat, id: nat, e: nat)
    requires forall n :: n in made ==> !(first <= n < first + |to|)
    requires (id == row && e in to) || exists n :: n in made && made[n] == Made(id, e)
    ensures exists n :: n in made + RecordOf(row, to, first) && (made + RecordOf(row, to, first))[n] == Made(id, e)
  {
    var all := made + RecordOf(row, to, first);
    if n :| n in made && made[n] == Made(id, e) {
      assert all[n] == Made(id, e);
    } else {
      var i :| 0 <= i < |to| && to[i] == e;
      assert first + i in RecordOf(row, to, first);
      assert all[first + i] == Made(row, to[i]);
    }
  }

  lemma CommitMadeFor(q: Queue, x: nat, now: Time, id: nat, e: nat)
    requires Expands(q, x, Commit) && Conserved(q)
    requires var p := AfterExpansion(q, x, Commit, now); id in p.took && e in p.took[id]
    ensures MadeFor(AfterExpansion(q, x, Commit, now), id, e)
  {
    var ph := q.expanders[x];
    assert PhaseSound(q, ph);
    assert id != ph.row ==> MadeFor(q, id, e);
    RecordMakes(q.made, ph.row, ph.to, ph.first, id, e);
    assert AfterExpansion(q, x, Commit, now).made == q.made + RecordOf(ph.row, ph.to, ph.first);
  }

  /** One row's deliveries are to endpoints apart, and of no row that was taken before. */
  lemma RecordOnce(made: map<nat, Made>, row: nat, to: seq<nat>, first: nat, a: nat, b: nat)
    requires EachOnce(to)
    requires forall n :: n in made ==> made[n].row != row && !(first <= n < first + |to|)
    requires forall m, n :: m in made && n in made && made[m] == made[n] ==> m == n
    requires var all := made + RecordOf(row, to, first); a in all && b in all && all[a] == all[b]
    ensures a == b
  {
    var record := RecordOf(row, to, first);
    if a in record && b in record {
      assert record[a] == Made(row, to[a - first]) && record[b] == Made(row, to[b - first]);
    } else {
      assert a !in record && b !in record;
    }
  }

  lemma CommitMadeOnce(q: Queue, x: nat, now: Time, a: nat, b: nat)
    requires Expands(q, x, Commit) && Conserved(q)
    requires var p := AfterExpansion(q, x, Commit, now); a in p.made && b in p.made && p.made[a] == p.made[b]
    ensures a == b
  {
    var ph := q.expanders[x];
    assert PhaseSound(q, ph);
    assert ph.row !in q.took;
    RecordOnce(q.made, ph.row, ph.to, ph.first, a, b);
  }

  lemma CommitMade(q: Queue, x: nat, now: Time)
    requires Expands(q, x, Commit) && Conserved(q)
    ensures var p := AfterExpansion(q, x, Commit, now); MadeConserved(p) && DeliveriesMade(p)
  {
    var ph := q.expanders[x];
    var p := AfterExpansion(q, x, Commit, now);
    assert PhaseSound(q, ph);
    forall n | n in p.made ensures p.made[n].row in p.took && p.made[n].endpoint in p.took[p.made[n].row] {
      if n in q.made {
        assert q.made[n].row in q.took;
      } else {
        assert ph.to[n - ph.first] in ph.to;
      }
    }
    forall id, e | id in p.took && e in p.took[id] ensures MadeFor(p, id, e) {
      hide Conserved, AfterExpansion, Expands;
      CommitMadeFor(q, x, now, id, e);
    }
    forall a, b | a in p.made && b in p.made && p.made[a] == p.made[b] ensures a == b {
      hide Conserved, AfterExpansion, Expands;
      CommitMadeOnce(q, x, now, a, b);
    }
    CommitDeliveries(q, x, now);
  }

  lemma CommitDeliveries(q: Queue, x: nat, now: Time)
    requires Expands(q, x, Commit) && HoldsApart(q) && DeliveriesMade(q)
    ensures DeliveriesMade(AfterExpansion(q, x, Commit, now))
  {
    assert PhaseSound(q, q.expanders[x]);
  }

  lemma MadeStep(q: Queue, m: Move, p: Queue)
    requires Next(q, m, p) && Conserved(q)
    ensures MadeConserved(p) && DeliveriesMade(p)
  {
    hide HoldsApart, RowsConserved;
    if m.Expand? && m.expansion.Commit? {
      hide MadeConserved, DeliveriesMade;
      CommitMade(q, m.x, m.now);
    } else {
      if m.Other? {
        ChangeLeaves(q, m.change);
        hide AfterChange, Changes;
      }
      if m.Expand? {
        ExpansionRows(q, m.x, m.expansion, m.now);
        hide AfterExpansion, Expands;
      }
      SameMade(q, p);
    }
  }

  lemma SameMade(q: Queue, p: Queue)
    requires MadeConserved(q) && p.made == q.made && p.took == q.took
    ensures MadeConserved(p)
  {
    forall id, e | id in p.took && e in p.took[id] ensures MadeFor(p, id, e) {
      assert MadeFor(q, id, e);
    }
  }

  lemma {:induction false} ConservedRun(qs: seq<Queue>, ms: seq<Move>, i: nat)
    requires Run(qs, ms) && i < |qs|
    ensures Conserved(qs[i])
  {
    if i > 0 {
      ConservedRun(qs, ms, i - 1);
      hide Next, HoldsApart, RowsConserved, MadeConserved, DeliveriesMade;
      HoldsStep(qs[i - 1], ms[i - 1], qs[i]);
      RowsStep(qs[i - 1], ms[i - 1], qs[i]);
      MadeStep(qs[i - 1], ms[i - 1], qs[i]);
    }
  }

  // ---- what a row was taken for, and what was made of it

  /** Those recorded for a row are those that receive it. */
  ghost predicate ReadFor(q: Queue, id: nat, to: set<nat>) {
    id in q.outbox && forall e :: e in to <==> Receives(q.endpoints, e, q.outbox[id])
  }

  /** Once in the run, up to a step, those receiving a row were these. */
  ghost predicate WasReadFor(qs: seq<Queue>, i: nat, id: nat, to: set<nat>) {
    exists j :: 0 <= j <= i && j < |qs| && ReadFor(qs[j], id, to)
  }

  ghost predicate AllReadFor(qs: seq<Queue>, i: nat)
    requires i < |qs|
  {
    && (forall x :: x in qs[i].expanders && !qs[i].expanders[x].Locked? ==>
          WasReadFor(qs, i, qs[i].expanders[x].row, Among(qs[i].expanders[x].to)))
    && (forall id :: id in qs[i].took ==> WasReadFor(qs, i, id, qs[i].took[id]))
  }

  lemma ListReads(q: Queue, id: nat, to: seq<nat>)
    requires id in q.outbox && IsReceiving(q.endpoints, q.outbox[id], to)
    ensures ReadFor(q, id, Among(to))
  {
  }

  /** The list a phase holds is the one it held, or of those read just now. */
  ghost predicate ListedFrom(q: Queue, x: nat, ph: Phase) {
    || ph.Locked?
    || (x in q.expanders && !q.expanders[x].Locked? && q.expanders[x].row == ph.row && q.expanders[x].to == ph.to)
    || ReadFor(q, ph.row, Among(ph.to))
  }

  lemma ExpansionPhase(q: Queue, x: nat, m: Expansion, now: Time, y: nat)
    requires Expands(q, x, m) && y in AfterExpansion(q, x, m, now).expanders
    ensures ListedFrom(q, y, AfterExpansion(q, x, m, now).expanders[y])
  {
    hide IsReceiving, ReadFor, Among;
    match m
    case List(to) => ListReads(q, q.expanders[x].row, to);
    case _ =>
  }

  lemma PhaseFrom(q: Queue, m: Move, x: nat)
    requires Enabled(q, m) && x in Apply(q, m).expanders
    ensures ListedFrom(q, x, Apply(q, m).expanders[x])
  {
    hide ReadFor, Among, Expands, Changes, AfterExpansion, AfterChange;
    match m
    case Emit(_) =>
    case Expand(y, expansion, now) => ExpansionPhase(q, y, expansion, now, x);
    case Other(change) => ChangeLeaves(q, change);
  }

  lemma TookFrom(q: Queue, m: Move, id: nat)
    requires Enabled(q, m) && id in Apply(q, m).took
    ensures var p := Apply(q, m);
            || (id in q.took && q.took[id] == p.took[id])
            || exists x ::
                 && x in q.expanders && q.expanders[x].Inserted? && q.expanders[x].row == id
                 && p.took[id] == Among(q.expanders[x].to)
  {
    if m.Other? {
      ChangeLeaves(q, m.change);
      hide AfterChange, Changes;
    }
  }

  lemma {:induction false} ReadForRun(qs: seq<Queue>, ms: seq<Move>, i: nat)
    requires Run(qs, ms) && i < |qs|
    ensures AllReadFor(qs, i)
  {
    if i > 0 {
      ReadForRun(qs, ms, i - 1);
      var q, m := qs[i - 1], ms[i - 1];
      assert Next(q, m, qs[i]);
      hide Enabled, Apply, ReadFor;
      forall x | x in qs[i].expanders && !qs[i].expanders[x].Locked?
        ensures WasReadFor(qs, i, qs[i].expanders[x].row, Among(qs[i].expanders[x].to))
      {
        PhaseFrom(q, m, x);
      }
      forall id | id in qs[i].took ensures WasReadFor(qs, i, id, qs[i].took[id]) {
        TookFrom(q, m, id);
        hide Among;
      }
    }
  }

  /** A row that stays in the outbox stays what it was emitted as. */
  lemma RowStep(q: Queue, m: Move, p: Queue)
    requires Next(q, m, p)
    ensures q.nextRow <= p.nextRow
    ensures forall id :: id in p.outbox && id < q.nextRow ==> id in q.outbox && p.outbox[id] == q.outbox[id]
  {
    if m.Other? {
      ChangeLeaves(q, m.change);
      hide AfterChange, Changes;
    }
  }

  lemma {:induction false} RowStays(qs: seq<Queue>, ms: seq<Move>, j: nat, i: nat, id: nat)
    requires Run(qs, ms) && j <= i < |qs| && id in qs[j].outbox
    ensures id < qs[i].nextRow
    ensures id in qs[i].outbox ==> qs[i].outbox[id] == qs[j].outbox[id]
    decreases i
  {
    hide Next;
    if i == j {
      ConservedRun(qs, ms, j);
    } else {
      RowStays(qs, ms, j, i - 1, id);
      RowStep(qs[i - 1], ms[i - 1], qs[i]);
    }
  }

  /** A delivery tells what the row it was made of told. */
  predicate TellsOf(row: Row, d: Delivery) { d.payment == row.payment && d.event == row.event }

  lemma MadeNow(q: Queue, m: Move, p: Queue, n: nat)
    requires Next(q, m, p) && Conserved(q) && n in p.deliveries && n in p.made
    ensures || (n in q.deliveries && n in q.made && p.made[n] == q.made[n]
                && p.deliveries[n].payment == q.deliveries[n].payment && p.deliveries[n].event == q.deliveries[n].event)
            || (p.made[n].row in q.outbox && TellsOf(q.outbox[p.made[n].row], p.deliveries[n]))
  {
    if m.Other? {
      ChangeLeaves(q, m.change);
    } else if m.Expand? {
      if m.expansion.Commit? {
        assert PhaseSound(q, q.expanders[m.x]);
      } else {
        ExpansionRows(q, m.x, m.expansion, m.now);
      }
    }
  }

  /** Whenever in the run the row of a delivery was in the outbox, it told what the delivery tells. */
  lemma {:induction false} DeliveryTells(qs: seq<Queue>, ms: seq<Move>, j: nat, i: nat, n: nat)
    requires Run(qs, ms) && j <= i < |qs|
    requires n in qs[i].deliveries && n in qs[i].made && qs[i].made[n].row in qs[j].outbox
    ensures TellsOf(qs[j].outbox[qs[i].made[n].row], qs[i].deliveries[n])
    decreases i
  {
    hide Next, Conserved;
    var id := qs[i].made[n].row;
    ConservedRun(qs, ms, i);
    if i == j {
      TakenIsGone(qs[i], n);
      assert false;
    } else {
      ConservedRun(qs, ms, i - 1);
      MadeNow(qs[i - 1], ms[i - 1], qs[i], n);
      if id in qs[i - 1].outbox && TellsOf(qs[i - 1].outbox[id], qs[i].deliveries[n]) {
        RowStays(qs, ms, j, i - 1, id);
      } else {
        DeliveryTells(qs, ms, j, i - 1, n);
      }
    }
  }

  lemma TakenIsGone(q: Queue, n: nat)
    requires Conserved(q) && n in q.made
    ensures q.made[n].row !in q.outbox
  {
  }

  /**
   What a taken row became, by the row and the endpoints as they were at one step:
   it was taken for those that receive it, and each delivery of it that is kept
   tells what it told.
   */
  ghost predicate BecameAs(q: Queue, p: Queue, id: nat)
    requires id in p.took
  {
    && ReadFor(q, id, p.took[id])
    && forall n :: n in p.deliveries && n in p.made && p.made[n].row == id ==> TellsOf(q.outbox[id], p.deliveries[n])
  }

  /**
   Over every run, with any number of expanders: a row of the outbox is there, or
   was turned into exactly one delivery to each endpoint that received it at one
   step before, each telling what the row told, and no delivery was made of
   anything else.
   */
  lemma ConservationTheorem(qs: seq<Queue>, ms: seq<Move>, i: nat, id: nat, e: nat)
    requires Run(qs, ms) && i < |qs| && id < qs[i].nextRow
    ensures id in qs[i].outbox <==> id !in qs[i].took
    ensures id in qs[i].took ==> exists j :: 0 <= j <= i && BecameAs(qs[j], qs[i], id)
    ensures MadeFor(qs[i], id, e) <==> id in qs[i].took && e in qs[i].took[id]
    ensures forall m, n :: m in qs[i].made && n in qs[i].made && qs[i].made[m] == qs[i].made[n] ==> m == n
    ensures forall n :: n in qs[i].deliveries ==> n in qs[i].made && qs[i].made[n].endpoint == qs[i].deliveries[n].endpoint
  {
    hide Next;
    ConservedRun(qs, ms, i);
    if id in qs[i].took {
      hide Conserved, Receives;
      ReadForRun(qs, ms, i);
      var j :| 0 <= j <= i && ReadFor(qs[j], id, qs[i].took[id]);
      forall n | n in qs[i].deliveries && n in qs[i].made && qs[i].made[n].row == id
        ensures TellsOf(qs[j].outbox[id], qs[i].deliveries[n])
      {
        DeliveryTells(qs, ms, j, i, n);
      }
    }
  }
}
