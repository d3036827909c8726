/**
 The protocol of one network: a chain that moves, any number of observers
 reading it, workers deciding from the rows, and requests, each a sequence of
 statements that anything else may run between.
 */
module Protocol {
  import opened Basics
  import opened Lifecycle
  import opened Records
  import opened Evidence
  import opened Tables
  import opened Chains
  import opened Reading

  /** What does not change over a run: what transactions carry, and the assets watched. */
  datatype Env = Env(ledger: Ledger, watched: set<Asset>)

  /** How far the reading of one range has got. */
  datatype Work =
    | Scanning
    | Looking(consumed: seq<Consumed>)
    | Receiving(against: map<Key, Hit>, back: map<Key, Back>, todo: seq<Tx>, seen: seq<Seen>, sent: seq<Sent>)

  /** One observer's round, with the final and the latest height the chain answered at its start. */
  datatype Round =
    | Standing(from: Position, final: nat, latest: nat)
    | Settling(from: Position, to: Position, final: nat, latest: nat, first: nat, last: nat, work: Work)
    | Between(final: nat, latest: nat)
    | Ahead(final: nat, first: nat, last: nat, work: Work)

  /** A move of a payment somebody decided on from rows they read, not yet written. */
  datatype Decision = Decision(id: PaymentId, read: Payment, moved: Payment)

  datatype Return = Return(id: RefundId, read: Refund, to: RefundStatus)

  /** A request part way through, between two of its statements. */
  datatype Call =
    | IssueFound(payment: PaymentId, expiresAt: Time)
    | IssueFree(payment: PaymentId, expiresAt: Time)
    | IssueWatched(payment: PaymentId, expiresAt: Time)
    | SupersedeFound(payment: PaymentId, attempt: AttemptId)
    | SupersedeLive(attempt: AttemptId, read: Attempt)
    | SupersedeCounted(attempt: AttemptId, read: Attempt)
    | RefundAsked(id: RefundId, refund: Refund)
    | RefundLocked(id: RefundId, refund: Refund, received: nat)
    | RefundMeasured(id: RefundId, refund: Refund)
    | RefundInserted(id: RefundId, refund: Refund)
  {
    /** The call's transaction holds the lock on a payment's row. */
    predicate Locks(p: PaymentId) {
      (RefundLocked? || RefundMeasured? || RefundInserted?) && refund.payment == p
    }
  }

  datatype Range = Range(first: nat, last: nat)

  /** The chain and every transaction ever on it, the rows, and everything part way through. */
  datatype World = World(
    chain: Chain,
    landed: set<Tx>,
    db: Rows,
    rounds: map<nat, Round>,
    decisions: set<Decision>,
    returning: set<Return>,
    calls: map<nat, Call>,
    start: nat,
    ranges: seq<Range>)

  datatype ChainMove =
    | Mine(block: Block)
    | Finalize(height: nat)
    | Reorg(from: nat, block: Block)

  /** Payments and refunds decided on, saved, and transfers given up on. */
  datatype WorkerMove =
    | Decide(payment: PaymentId, to: Status, now: Time, evidence: Ref)
    | Save(decision: Decision)
    | DecideRefund(refund: RefundId, next: RefundStatus, now: Time, evidence: Ref)
    | SaveReturn(sending: Return)
    | GiveUpOn(ref: Ref)

  datatype RequestMove =
    | Open(payment: PaymentId, row: Payment)
    | AskIssue(call: nat, payment: PaymentId)
    | AskSupersede(call: nat, payment: PaymentId, attempt: AttemptId)
    | AskRefund(call: nat, payment: PaymentId, refund: RefundId, amount: nat, destination: Address, key: Key, now: Time)
    | Proceed(call: nat, now: Time, id: AttemptId, key: Key)
    | Abandon(call: nat)

  datatype ObserverMove =
    | Init(height: nat)
    | Begin(observer: nat, final: nat, latest: nat, width: nat)
    | Stand(observer: nat)
    | GoAhead(observer: nat, width: nat)
    | Scan(observer: nat)
    | Look(observer: nat)
    | Receipt(observer: nat)
    | Write(observer: nat)
    | Quit(observer: nat)

  datatype Step =
    | ByChain(chain: ChainMove)
    | ByWorker(worker: WorkerMove)
    | ByRequest(request: RequestMove)
    | ByObserver(observer: ObserverMove)

  // ---- what a worker reads before it decides

  ghost predicate MatchedAgainst(db: Rows, p: PaymentId) {
    exists ref :: ref in db.observations && db.observations[ref].payment == p && db.observations[ref].reason == Matched
  }

  /** The network has been read past a deadline: by the block the cursor sits on, not by the clock. */
  predicate ReadPast(db: Rows, deadline: Time) { db.cursor.Some? && db.cursor.value.time >= deadline }

  predicate Candidate(db: Rows, p: PaymentId, ref: Ref) {
    && ref in db.observations && p in db.payments
    && db.observations[ref].payment == p
    && db.observations[ref].reason == Matched && db.observations[ref].final
    && db.payments[p].Open()
  }

  ghost predicate Unsettled(db: Rows, p: PaymentId) {
    && p in db.payments && db.payments[p].status == AwaitingFinality
    && ReadPast(db, db.payments[p].expiresAt)
    && !MatchedAgainst(db, p)
  }

  ghost predicate Grounds(db: Rows, p: PaymentId, to: Status, now: Time, ref: Ref)
    requires p in db.payments
  {
    match to
    case AwaitingPayment => true
    case AwaitingFinality => db.payments[p].status == AwaitingPayment && db.payments[p].expiresAt <= now
    case Succeeded => Candidate(db, p, ref)
    case Expired => Unsettled(db, p)
    case _ => false
  }

  /** The move itself, on the payment as it was read. */
  function Move(p: Payment, to: Status, now: Time): Option<Payment> {
    match to
    case AwaitingFinality => p.AwaitFinality(now)
    case Succeeded => p.Succeed()
    case _ => p.MoveTo(to)
  }

  predicate RefundCandidate(db: Rows, r: RefundId, ref: Ref) {
    && ref in db.observations && r in db.refunds
    && db.observations[ref].payment == db.refunds[r].payment && db.observations[ref].against == ForRefund(r)
    && db.observations[ref].reason == Matched && db.observations[ref].final
    && (db.refunds[r].status == RefundCreated || db.refunds[r].status == RefundAwaitingFinality)
  }

  /** A transfer of the refund's key out of the wallet it comes from, whatever the rules made of it. */
  ghost predicate SpentFromWallet(db: Rows, r: RefundId)
    requires r in db.refunds && db.refunds[r].payment in db.payments
  {
    exists ref ::
      && ref in db.observations
      && db.observations[ref].payment == db.refunds[r].payment && db.observations[ref].against == ForRefund(r)
      && Stands(db.observations[ref])
      && db.observations[ref].transfer.from == db.payments[db.refunds[r].payment].destination
  }

  ghost predicate UnsettledRefund(db: Rows, r: RefundId) {
    && r in db.refunds && db.refunds[r].payment in db.payments
    && db.refunds[r].status == RefundAwaitingFinality
    && ReadPast(db, db.refunds[r].expiresAt)
    && !SpentFromWallet(db, r)
  }

  ghost predicate RefundGrounds(db: Rows, r: RefundId, to: RefundStatus, now: Time, ref: Ref)
    requires r in db.refunds
  {
    match to
    case RefundAwaitingFinality => db.refunds[r].status == RefundCreated && db.refunds[r].expiresAt <= now
    case RefundSucceeded => RefundCandidate(db, r, ref)
    case RefundExpired => UnsettledRefund(db, r)
    case RefundCreated => false
  }

  // ---- what is assumed of keys

  /** A key as it is minted: no transaction that has been on the chain spends it, and nothing here holds it. */
  ghost predicate FreshKey(env: Env, w: World, k: Key) {
    && (forall x :: x in w.landed ==> !Spends(env.ledger, x, k))
    && (forall a :: a in w.db.attempts ==> w.db.attempts[a].key != k)
    && (forall r :: r in w.db.refunds ==> w.db.refunds[r].key != k)
  }

  ghost predicate Locked(w: World, p: PaymentId) { exists c :: c in w.calls && w.calls[c].Locks(p) }

  // ---- which steps a world can take

  ghost predicate ChainMoves(env: Env, w: World, m: ChainMove) {
    match m
    case Mine(b) => ValidChain(Mined(w.chain, b), env.ledger)
    case Finalize(h) => w.chain.final <= h < |w.chain.blocks|
    case Reorg(from, b) =>
      w.chain.final < from <= |w.chain.blocks| && ValidChain(Reorged(w.chain, from, b), env.ledger)
  }

  ghost predicate WorkerMoves(w: World, m: WorkerMove) {
    match m
    case Decide(p, to, now, ref) =>
      p in w.db.payments && Grounds(w.db, p, to, now, ref) && Move(w.db.payments[p], to, now).Some?
    case Save(d) => d in w.decisions
    case DecideRefund(r, to, now, ref) =>
      r in w.db.refunds && RefundGrounds(w.db, r, to, now, ref) && w.db.refunds[r].MoveTo(to).Some?
    case SaveReturn(d) => d in w.returning
    case GiveUpOn(ref) => true
  }

  predicate Payable(db: Rows, p: PaymentId) { p in db.payments && db.payments[p].status == AwaitingPayment }

  ghost predicate RequestMoves(env: Env, w: World, m: RequestMove) {
    match m
    case Open(p, row) =>
      && p !in w.db.payments && row.status == Created && row.received.None?
      && row.amount > 0 && row.asset in env.watched
    case AskIssue(c, p) => c !in w.calls && Payable(w.db, p)
    case AskSupersede(c, p, a) => c !in w.calls && Payable(w.db, p)
    case AskRefund(c, p, r, amount, to, key, now) =>
      c !in w.calls && p in w.db.payments && NewRefund(p, w.db.payments[p], amount, to, key, now).Some?
    case Proceed(c, now, id, key) => c in w.calls && Runs(env, w, w.calls[c], id, key)
    case Abandon(c) => c in w.calls
  }

  /** A call's next statement can run: it waits for a lock, and what it mints is fresh. */
  ghost predicate Runs(env: Env, w: World, c: Call, id: AttemptId, key: Key) {
    match c
    case IssueWatched(_, _) => id !in w.db.attempts && FreshKey(env, w, key)
    case RefundAsked(r, refund) => !Locked(w, refund.payment)
    case RefundInserted(r, refund) => r !in w.db.refunds && FreshKey(env, w, refund.key)
    case _ => true
  }

  ghost predicate ObserverMoves(w: World, m: ObserverMove) {
    match m
    case Init(h) => h <= w.chain.final < |w.chain.blocks|
    case Begin(i, f, l, width) =>
      && i !in w.rounds && f <= w.chain.final < |w.chain.blocks| && width >= 1
      && w.db.cursor.Some? && w.db.cursor.value.height <= f
      && w.chain.blocks[w.db.cursor.value.height].hash == w.db.cursor.value.hash
    case Stand(i) => i in w.rounds && w.rounds[i].Standing?
    case GoAhead(i, width) => i in w.rounds && w.rounds[i].Between? && width >= 1
    case Scan(i) => Reads(w, i) && w.rounds[i].work.Scanning?
    case Look(i) => Reads(w, i) && w.rounds[i].work.Looking?
    case Receipt(i) => Reads(w, i) && w.rounds[i].work.Receiving? && w.rounds[i].work.todo != []
    case Write(i) => Reads(w, i) && w.rounds[i].work.Receiving? && w.rounds[i].work.todo == []
    case Quit(i) => i in w.rounds
  }

  ghost predicate Enabled(env: Env, w: World, s: Step) {
    match s
    case ByChain(m) => ChainMoves(env, w, m)
    case ByWorker(m) => WorkerMoves(w, m)
    case ByRequest(m) => RequestMoves(env, w, m)
    case ByObserver(m) => ObserverMoves(w, m)
  }

  predicate Reads(w: World, i: nat) { i in w.rounds && (w.rounds[i].Settling? || w.rounds[i].Ahead?) }

  // ---- what a step makes of a world

  function PositionAt(c: Chain, h: nat): Position
    requires h < |c.blocks|
  {
    Position(h, c.blocks[h].hash, c.blocks[h].time)
  }

  function Landed(w: World, b: Block): set<Tx> { w.landed + set x | x in b.txs }

  /** The range a round over the finalised blocks reads. */
  function RangeEnd(from: Position, final: nat, width: nat): nat {
    if final > from.height + width then from.height + width else final
  }

  function BeginRound(w: World, f: nat, l: nat, width: nat): Round
    requires w.db.cursor.Some? && w.db.cursor.value.height <= f < |w.chain.blocks|
  {
    var from := w.db.cursor.value;
    if f == from.height then Standing(from, f, l)
    else
      var last := RangeEnd(from, f, width);
      Settling(from, PositionAt(w.chain, last), f, l, from.height + 1, last, Scanning)
  }

  function AheadRound(f: nat, l: nat, width: nat): Round
    requires l > f && width >= 1
  {
    Ahead(f, if l - f > width then l - width + 1 else f + 1, l, Scanning)
  }

  function Dropped<T>(m: map<nat, T>, i: nat): map<nat, T> { m - {i} }

  function WithWork(w: World, i: nat, work: Work): World
    requires Reads(w, i)
  {
    w.(rounds := w.rounds[i := w.rounds[i].(work := work)])
  }

  function DoStand(w: World, i: nat): World
    requires i in w.rounds && w.rounds[i].Standing?
  {
    var r := w.rounds[i];
    if AdvancesFrom(w.db, r.from) then
      w.(db := w.db.(cursor := Some(r.from)), rounds := w.rounds[i := Between(r.final, r.latest)])
    else w.(rounds := Dropped(w.rounds, i))
  }

  function DoGoAhead(w: World, i: nat, width: nat): World
    requires i in w.rounds && w.rounds[i].Between? && width >= 1
  {
    var r := w.rounds[i];
    if r.latest <= r.final then w.(rounds := Dropped(w.rounds, i))
    else w.(rounds := w.rounds[i := AheadRound(r.final, r.latest, width)])
  }

  function DoScan(env: Env, w: World, i: nat): World
    requires Reads(w, i)
  {
    WithWork(w, i, Looking(KeysIn(w.chain, w.rounds[i].first, w.rounds[i].last, env.ledger, env.watched)))
  }

  ghost function DoLook(w: World, i: nat): World
    requires Reads(w, i) && w.rounds[i].work.Looking?
  {
    var consumed := w.rounds[i].work.consumed;
    var against, back := Against(w.db, consumed), Backs(w.db, consumed);
    WithWork(w, i, Receiving(against, back, Transactions(consumed, against.Keys + back.Keys), [], []))
  }

  function DoReceipt(env: Env, w: World, i: nat): World
    requires Reads(w, i) && w.rounds[i].work.Receiving? && w.rounds[i].work.todo != []
  {
    var work := w.rounds[i].work;
    var x := work.todo[0];
    match Find(w.chain, x)
    case None => w.(rounds := Dropped(w.rounds, i))
    case Some(at) =>
      var ts := if x in env.ledger then env.ledger[x] else [];
      WithWork(w, i, work.(
        todo := work.todo[1..],
        seen := work.seen + SeenIn(ts, x, at, work.against),
        sent := work.sent + SentIn(ts, x, at, work.against, work.back)))
  }

  /** A finalised range commits with its cursor or not at all; what was read ahead of it moves no cursor. */
  ghost function DoWrite(w: World, i: nat): World
    requires Reads(w, i) && w.rounds[i].work.Receiving?
  {
    var r, work := w.rounds[i], w.rounds[i].work;
    if r.Settling? then
      match WriteRange(w.db, r.first, r.last, r.from, r.to, work.seen, work.sent)
      case None => w.(rounds := Dropped(w.rounds, i))
      case Some(after) =>
        w.(db := after, rounds := w.rounds[i := Between(r.final, r.latest)], ranges := w.ranges + [Range(r.first, r.last)])
    else if work.seen == [] && work.sent == [] then w.(rounds := Dropped(w.rounds, i))
    else
      match Record(w.db, r.first, r.last, false, work.seen, work.sent)
      case None => w.(rounds := Dropped(w.rounds, i))
      case Some(after) => w.(db := after, rounds := Dropped(w.rounds, i))
  }

  function Ended(w: World, c: nat): World { w.(calls := Dropped(w.calls, c)) }

  function Went(w: World, c: nat, next: Call): World { w.(calls := w.calls[c := next]) }

  /** The one statement of a call that runs next, and where it leaves the call. */
  ghost function DoProceed(w: World, c: nat, now: Time, id: AttemptId, key: Key): World
    requires c in w.calls
  {
    match w.calls[c]
    case IssueFound(p, expiresAt) =>
      if HasLive(w.db, p) then Ended(w, c) else Went(w, c, IssueFree(p, expiresAt))
    case IssueFree(p, expiresAt) =>
      if w.db.cursor.None? then Ended(w, c) else Went(w, c, IssueWatched(p, expiresAt))
    case IssueWatched(p, expiresAt) => DoIssue(w, c, NewAttempt(p, expiresAt, now, key), id)
    case SupersedeFound(p, a) =>
      if a in AttemptsOf(w.db, p) && Live(w.db.attempts[a].status) then
        Went(w, c, SupersedeLive(a, w.db.attempts[a]))
      else Ended(w, c)
    case SupersedeLive(a, read) =>
      if |AttemptsOf(w.db, read.payment)| >= MAX_ATTEMPTS || read.Supersede().None? then Ended(w, c)
      else Went(w, c, SupersedeCounted(a, read))
    case SupersedeCounted(a, read) => DoSupersede(w, c, a, read)
    case RefundAsked(r, refund) => DoLock(w, c, r, refund)
    case RefundLocked(r, refund, received) =>
      if received - Held(w.db, refund.payment) < refund.amount then Ended(w, c)
      else Went(w, c, RefundMeasured(r, refund))
    case RefundMeasured(r, refund) => Went(w, c, RefundInserted(r, refund))
    case RefundInserted(r, refund) => Ended(w.(db := w.db.(refunds := w.db.refunds[r := refund])), c)
  }

  /** How many attempts a payment may have: the first, and one reissue. */
  const MAX_ATTEMPTS: nat := 2

  function DoIssue(w: World, c: nat, attempt: Option<Attempt>, id: AttemptId): World {
    match attempt
    case None => Ended(w, c)
    case Some(a) =>
      match IssueAttempt(w.db, id, a)
      case None => Ended(w, c)
      case Some(after) => Ended(w.(db := after), c)
  }

  function DoSupersede(w: World, c: nat, a: AttemptId, read: Attempt): World {
    match read.Supersede()
    case None => Ended(w, c)
    case Some(moved) =>
      match SaveAttempt(w.db, a, moved, read.revision)
      case None => Ended(w, c)
      case Some(after) => Ended(w.(db := after), c)
  }

  function DoLock(w: World, c: nat, r: RefundId, refund: Refund): World {
    if refund.payment !in w.db.payments then Ended(w, c)
    else
      var p := w.db.payments[refund.payment];
      if p.status != Succeeded || p.received.None? then Ended(w, c)
      else Went(w, c, RefundLocked(r, refund, p.received.value))
  }

  function DoSave(w: World, d: Decision): World {
    var done := w.(decisions := w.decisions - {d});
    match SavePayment(w.db, d.id, d.moved, d.read.version)
    case None => done
    case Some(after) => done.(db := after)
  }

  function DoSaveReturn(w: World, d: Return): World {
    var done := w.(returning := w.returning - {d});
    match SaveRefund(w.db, d.id, d.to, d.read.version)
    case None => done
    case Some(after) => done.(db := after)
  }

  function DoInit(w: World, h: nat): World
    requires h < |w.chain.blocks|
  {
    if w.db.cursor.Some? then w
    else w.(db := w.db.(cursor := Some(PositionAt(w.chain, h))), start := h)
  }

  ghost function AfterChain(env: Env, w: World, m: ChainMove): World
    requires ChainMoves(env, w, m)
  {
    match m
    case Mine(b) => w.(chain := Mined(w.chain, b), landed := Landed(w, b))
    case Finalize(h) => w.(chain := w.chain.(final := h))
    case Reorg(from, b) => w.(chain := Reorged(w.chain, from, b), landed := Landed(w, b))
  }

  ghost function AfterWorker(w: World, m: WorkerMove): World
    requires WorkerMoves(w, m)
  {
    match m
    case Decide(p, to, now, ref) =>
      w.(decisions := w.decisions + {Decision(p, w.db.payments[p], Move(w.db.payments[p], to, now).value)})
    case Save(d) => DoSave(w, d)
    case DecideRefund(r, to, now, ref) => w.(returning := w.returning + {Return(r, w.db.refunds[r], to)})
    case SaveReturn(d) => DoSaveReturn(w, d)
    case GiveUpOn(ref) => w.(db := GiveUp(w.db, ref))
  }

  ghost function AfterRequest(env: Env, w: World, m: RequestMove): World
    requires RequestMoves(env, w, m)
  {
    match m
    case Open(p, row) => w.(db := w.db.(payments := w.db.payments[p := row]))
    case AskIssue(c, p) => Went(w, c, IssueFound(p, w.db.payments[p].expiresAt))
    case AskSupersede(c, p, a) => Went(w, c, SupersedeFound(p, a))
    case AskRefund(c, p, r, amount, to, key, now) =>
      Went(w, c, RefundAsked(r, NewRefund(p, w.db.payments[p], amount, to, key, now).value))
    case Proceed(c, now, id, key) => DoProceed(w, c, now, id, key)
    case Abandon(c) => Ended(w, c)
  }

  ghost function AfterObserver(env: Env, w: World, m: ObserverMove): World
    requires ObserverMoves(w, m)
  {
    match m
    case Init(h) => DoInit(w, h)
    case Begin(i, f, l, width) => w.(rounds := w.rounds[i := BeginRound(w, f, l, width)])
    case Stand(i) => DoStand(w, i)
    case GoAhead(i, width) => DoGoAhead(w, i, width)
    case Scan(i) => DoScan(env, w, i)
    case Look(i) => DoLook(w, i)
    case Receipt(i) => DoReceipt(env, w, i)
    case Write(i) => DoWrite(w, i)
    case Quit(i) => w.(rounds := Dropped(w.rounds, i))
  }

  ghost function Apply(env: Env, w: World, s: Step): World
    requires Enabled(env, w, s)
  {
    match s
    case ByChain(m) => AfterChain(env, w, m)
    case ByWorker(m) => AfterWorker(w, m)
    case ByRequest(m) => AfterRequest(env, w, m)
    case ByObserver(m) => AfterObserver(env, w, m)
  }

  // ---- runs

  /** Nothing has been opened and nothing has been read. */
  ghost predicate Initial(env: Env, w: World) {
    && ValidLedger(env.ledger)
    && ValidChain(w.chain, env.ledger)
    && (forall h, x :: On(w.chain, h, x) ==> x in w.landed)
    && w.db == Rows(map[], map[], map[], map[], None, [])
    && w.rounds == map[] && w.decisions == {} && w.returning == {} && w.calls == map[]
    && w.ranges == []
  }

  ghost predicate Next(env: Env, w: World, s: Step, v: World) {
    Enabled(env, w, s) && v == Apply(env, w, s)
  }

  /** A run: worlds, and the steps between them. */
  ghost predicate Run(env: Env, ws: seq<World>, ss: seq<Step>) {
    && |ws| == |ss| + 1
    && Initial(env, ws[0])
    && forall i :: 0 <= i < |ss| ==> Next(env, ws[i], ss[i], ws[i + 1])
  }

  /** A round starts only when no other is under way, which is what the lease is for. */
  predicate Lone(w: World, s: Step) { s.ByObserver? && s.observer.Begin? ==> w.rounds == map[] }

  /** What is given up on is not on the final chain, which is what the answers of the endpoints are for. */
  ghost predicate Truthful(w: World, s: Step) {
    s.ByWorker? && s.worker.GiveUpOn? ==> forall h: nat :: h <= w.chain.final ==> !On(w.chain, h, s.worker.ref.tx)
  }

  ghost predicate LoneRun(ws: seq<World>, ss: seq<Step>) {
    |ws| == |ss| + 1 && forall i :: 0 <= i < |ss| ==> Lone(ws[i], ss[i])
  }

  ghost predicate TruthfulRun(ws: seq<World>, ss: seq<Step>) {
    |ws| == |ss| + 1 && forall i :: 0 <= i < |ss| ==> Truthful(ws[i], ss[i])
  }
}
