/**
 The shared rows of one network, and what each database transaction makes of
 them. A transaction that reports an error leaves the rows as they were, which
 is None here.
 */
module Tables {
  import opened Basics
  import opened Lifecycle
  import opened Records
  import opened Evidence

  /** What an observation is keyed by, on the one network. */
  datatype Ref = Ref(key: Key, tx: Tx)

  /** What an observation stands against: exactly one attempt or one refund. */
  datatype Subject = ForAttempt(attempt: AttemptId) | ForRefund(refund: RefundId)

  datatype Observation = Observation(
    payment: PaymentId,
    against: Subject,
    place: Place,
    transfer: Transfer,
    reason: Reason,
    final: bool)

  /** A block the network has been read up to. */
  datatype Position = Position(height: nat, hash: Hash, time: Time)

  datatype Event =
    | PaymentMoved(payment: PaymentId, status: Status)
    | AttemptConfirming(payment: PaymentId)
    | RefundMoved(refund: RefundId, to: RefundStatus)

  datatype Rows = Rows(
    payments: map<PaymentId, Payment>,
    attempts: map<AttemptId, Attempt>,
    refunds: map<RefundId, Refund>,
    observations: map<Ref, Observation>,
    cursor: Option<Position>,
    outbox: seq<Event>)

  /** A judged transfer of an attempt's key, with the attempt as it was read. */
  datatype Seen = Seen(
    attempt: AttemptId, read: Attempt, payment: PaymentId,
    tx: Tx, place: Place, transfer: Transfer, reason: Reason)

  /** A judged transfer of a refund's key. */
  datatype Sent = Sent(
    refund: RefundId, payment: PaymentId,
    tx: Tx, place: Place, transfer: Transfer, reason: Reason)

  /** What either writes: the row of one judged transfer. */
  datatype Entry = Entry(ref: Ref, payment: PaymentId, against: Subject, place: Place, transfer: Transfer, reason: Reason)

  function SeenEntry(s: Seen): Entry {
    Entry(Ref(s.transfer.key, s.tx), s.payment, ForAttempt(s.attempt), s.place, s.transfer, s.reason)
  }

  function SentEntry(s: Sent): Entry {
    Entry(Ref(s.transfer.key, s.tx), s.payment, ForRefund(s.refund), s.place, s.transfer, s.reason)
  }

  function Entries(seen: seq<Seen>, sent: seq<Sent>): (es: seq<Entry>)
    ensures |es| == |seen| + |sent|
    ensures forall i :: 0 <= i < |seen| ==> es[i] == SeenEntry(seen[i])
    ensures forall i :: 0 <= i < |sent| ==> es[|seen| + i] == SentEntry(sent[i])
  {
    seq(|seen|, i requires 0 <= i < |seen| => SeenEntry(seen[i]))
    + seq(|sent|, i requires 0 <= i < |sent| => SentEntry(sent[i]))
  }

  // ---- the rows of what was seen

  /** One row written over the one it already has: what it stands against stays, and so does having been final. */
  function PutOne(rows: map<Ref, Observation>, e: Entry, final: bool): map<Ref, Observation> {
    rows[e.ref :=
      if e.ref in rows then
        rows[e.ref].(place := e.place, transfer := e.transfer, reason := e.reason,
                     final := rows[e.ref].final || final)
      else Observation(e.payment, e.against, e.place, e.transfer, e.reason, final)]
  }

  function Put(rows: map<Ref, Observation>, es: seq<Entry>, final: bool): map<Ref, Observation> {
    if es == [] then rows
    else PutOne(Put(rows, es[..|es| - 1], final), es[|es| - 1], final)
  }

  // ---- a transfer that is no longer on the chain

  predicate Stands(o: Observation) { o.reason != Vanished }

  /** The rows a final pass over a span of heights no longer finds. */
  predicate Lost(o: Observation, ref: Ref, first: nat, last: nat, txs: set<Tx>) {
    first <= o.place.height <= last && ref.tx !in txs && Stands(o)
  }

  function Mark(rows: map<Ref, Observation>, lost: set<Ref>): map<Ref, Observation> {
    map ref | ref in rows :: if ref in lost then rows[ref].(reason := Vanished) else rows[ref]
  }

  predicate AttemptMatched(rows: map<Ref, Observation>, a: AttemptId) {
    exists ref :: ref in rows && rows[ref].against == ForAttempt(a) && rows[ref].reason == Matched
  }

  predicate ArrivalStands(rows: map<Ref, Observation>, p: PaymentId) {
    exists ref :: ref in rows && rows[ref].payment == p && (rows[ref].reason == Matched || rows[ref].reason == Short)
  }

  /** The attempts and the payments the rows that were lost stood for. */
  function LostAttempts(rows: map<Ref, Observation>, lost: set<Ref>): set<AttemptId> {
    set ref | ref in lost && ref in rows && rows[ref].against.ForAttempt? :: rows[ref].against.attempt
  }

  function LostPayments(rows: map<Ref, Observation>, lost: set<Ref>): set<PaymentId> {
    set ref | ref in lost && ref in rows && rows[ref].against.ForAttempt? :: rows[ref].payment
  }

  ghost predicate TakesAttempt(db: Rows, lost: set<AttemptId>, a: AttemptId)
    requires a in db.attempts
  {
    a in lost && db.attempts[a].Unconfirm().Some? && !AttemptMatched(db.observations, a)
  }

  ghost predicate TakesPayment(db: Rows, lost: set<PaymentId>, p: PaymentId)
    requires p in db.payments
  {
    p in lost && db.payments[p].Unreceive().Some? && !ArrivalStands(db.observations, p)
  }

  function Bumped(a: Attempt): Attempt { a.(revision := a.revision + 1) }

  function Saved(p: Payment): Payment { p.(version := p.version + 1) }

  /** Attempts nothing matches any more go back to issued, and payments nothing stands for give back what arrived. */
  ghost function Take(db: Rows, attempts: set<AttemptId>, payments: set<PaymentId>): Rows {
    db.(attempts := map a | a in db.attempts ::
          if TakesAttempt(db, attempts, a) then Bumped(db.attempts[a].Unconfirm().value) else db.attempts[a],
        payments := map p | p in db.payments ::
          if TakesPayment(db, payments, p) then Saved(db.payments[p].Unreceive().value) else db.payments[p])
  }

  ghost function Lose(db: Rows, lost: set<Ref>): Rows {
    Take(db.(observations := Mark(db.observations, lost)),
         LostAttempts(db.observations, lost), LostPayments(db.observations, lost))
  }

  function LostIn(rows: map<Ref, Observation>, first: nat, last: nat, txs: set<Tx>): set<Ref> {
    set ref | ref in rows && Lost(rows[ref], ref, first, last, txs)
  }

  // ---- what a transfer tells a payment and an attempt

  predicate Arrives(s: Seen, payments: map<PaymentId, Payment>) {
    && (s.reason == Matched || s.reason == Short)
    && s.payment in payments
    && s.transfer.value.Some?
    && payments[s.payment].Receive(s.transfer.value.value).Some?
  }

  function ArriveOne(payments: map<PaymentId, Payment>, s: Seen): map<PaymentId, Payment> {
    if Arrives(s, payments) then
      payments[s.payment := Saved(payments[s.payment].Receive(s.transfer.value.value).value)]
    else payments
  }

  function Arrive(payments: map<PaymentId, Payment>, seen: seq<Seen>): map<PaymentId, Payment> {
    if seen == [] then payments
    else ArriveOne(Arrive(payments, seen[..|seen| - 1]), seen[|seen| - 1])
  }

  function SaveAttempt(db: Rows, id: AttemptId, moved: Attempt, at: nat): Option<Rows> {
    if id !in db.attempts || db.attempts[id].revision != at then None
    else
      Some(db.(attempts := db.attempts[id := Bumped(db.attempts[id].(status := moved.status, authorizer := moved.authorizer))]))
  }

  /** A matched transfer confirms the attempt it was read with, unless the row moved on: then the whole round is stale. */
  function ConfirmOne(db: Rows, s: Seen): Option<Rows> {
    if s.reason != Matched || s.read.Confirm(s.transfer.authorizer).None? then Some(db)
    else
      match SaveAttempt(db, s.attempt, s.read.Confirm(s.transfer.authorizer).value, s.read.revision)
      case None => None
      case Some(after) => Some(after.(outbox := after.outbox + [AttemptConfirming(s.payment)]))
  }

  function Confirm(db: Rows, seen: seq<Seen>): Option<Rows> {
    if seen == [] then Some(db)
    else
      match Confirm(db, seen[..|seen| - 1])
      case None => None
      case Some(before) => ConfirmOne(before, seen[|seen| - 1])
  }

  function TxsOf(es: seq<Entry>): set<Tx> {
    set i | 0 <= i < |es| :: es[i].ref.tx
  }

  predicate Storable(es: seq<Entry>) { forall i :: 0 <= i < |es| ==> es[i].transfer.storable }

  /** The rows of what a round saw; a round over the finalised range also loses what it no longer finds there. */
  ghost function Written(db: Rows, first: nat, last: nat, final: bool, es: seq<Entry>): Rows {
    var put := db.(observations := Put(db.observations, es, final));
    if final then Lose(put, LostIn(put.observations, first, last, TxsOf(es))) else put
  }

  function Credited(db: Rows, seen: seq<Seen>): Rows { db.(payments := Arrive(db.payments, seen)) }

  /** What a round saw, written down with what it means for the payments and the attempts. */
  ghost function Record(db: Rows, first: nat, last: nat, final: bool, seen: seq<Seen>, sent: seq<Sent>): Option<Rows> {
    var es := Entries(seen, sent);
    if !Storable(es) then None
    else Confirm(Credited(Written(db, first, last, final, es), seen), seen)
  }

  /** The cursor moves only from where the caller read it. */
  predicate AdvancesFrom(db: Rows, from: Position) {
    db.cursor.Some? && db.cursor.value.height == from.height && db.cursor.value.hash == from.hash
  }

  /** What was found in a finalised range and the position it was read to, in one transaction. */
  ghost function WriteRange(db: Rows, first: nat, last: nat, from: Position, to: Position, seen: seq<Seen>, sent: seq<Sent>)
    : Option<Rows>
  {
    match Record(db, first, last, true, seen, sent)
    case None => None
    case Some(after) => if AdvancesFrom(after, from) then Some(after.(cursor := Some(to))) else None
  }

  /** One recorded transfer given up on. */
  ghost function GiveUp(db: Rows, ref: Ref): Rows {
    if ref in db.observations && Stands(db.observations[ref]) then Lose(db, {ref}) else db
  }

  // ---- conditional saves

  /** A payment written back with the event its move produced, if the row is still the one that was read. */
  function SavePayment(db: Rows, id: PaymentId, moved: Payment, at: nat): Option<Rows> {
    if id !in db.payments || db.payments[id].version != at then None
    else
      Some(db.(payments := db.payments[id := Saved(db.payments[id].(status := moved.status, received := moved.received))],
               outbox := db.outbox + [PaymentMoved(id, moved.status)]))
  }

  /** A refund written back; only its final statuses are told. */
  function SaveRefund(db: Rows, id: RefundId, to: RefundStatus, at: nat): Option<Rows> {
    if id !in db.refunds || db.refunds[id].version != at then None
    else
      var row := db.refunds[id];
      Some(db.(refunds := db.refunds[id := row.(status := to, version := row.version + 1)],
               outbox := if RefundFinal(to) then db.outbox + [RefundMoved(id, to)] else db.outbox))
  }

  // ---- attempts and refunds of one payment

  function AttemptsOf(db: Rows, p: PaymentId): set<AttemptId> {
    set a | a in db.attempts && db.attempts[a].payment == p
  }

  predicate HasLive(db: Rows, p: PaymentId) {
    exists a :: a in AttemptsOf(db, p) && Live(db.attempts[a].status)
  }

  /** An attempt stored: its key is nobody else's, and its payment has no other live one. */
  function IssueAttempt(db: Rows, id: AttemptId, a: Attempt): Option<Rows> {
    if id in db.attempts || (exists b :: b in db.attempts && db.attempts[b].key == a.key) || HasLive(db, a.payment)
    then None
    else Some(db.(attempts := db.attempts[id := a]))
  }

  /** The refunds of a payment that hold their amount against what can be refunded. */
  function Holding(db: Rows, p: PaymentId): set<RefundId> {
    set r | r in db.refunds && db.refunds[r].payment == p && db.refunds[r].Holds()
  }

  ghost function Sum(refunds: map<RefundId, Refund>, ids: set<RefundId>): nat
    requires ids <= refunds.Keys
  {
    if ids == {} then 0
    else
      var r :| r in ids;
      refunds[r].amount + Sum(refunds, ids - {r})
  }

  ghost function Held(db: Rows, p: PaymentId): nat {
    Sum(db.refunds, Holding(db, p))
  }
}
