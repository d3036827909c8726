# suco Pay: a verified model of settling payments

suco Pay watches a blockchain and decides, from a database and several endpoints
it does not trust, when a payment is paid, when it has expired, and how much of it
may be sent back. This project models that protocol in Dafny and proves what the
repository is for: the index of transfers agrees with the chain, a success is
sound, a paid payment never expires, a refund's money never goes out twice, the
cursor is linear without its lease, and the events told of a payment are its true
history. Three satellites are modelled beside it: how authorisations are paired
with transfers in a receipt, how amounts are read and printed, and the webhook
queue. `dafny verify dfyconfig.toml` checks everything.

## The protocol

`Protocol.World` is one network: a chain and every transaction that was ever on
it, the rows, and everything part way through. A step is one of the chain's (a
block on top, a later final block, a reorg above the final one), an observer's
(each of: read the head, scan a range, look the keys up, read one receipt, write),
a worker's (read and decide, save, give a transfer up), or a request's (each
statement of issuing, superseding and refunding, a refund's transaction holding
its payment's lock from its first statement to its commit). Between any two of
them anything else may run, with any number of observers, workers and requests,
and whatever was read may be stale by the time it is written. A database
transaction other than a refund's is one step; one that reports an error leaves
the rows as they were.

Theorems about the cursor, the refund ceiling, the attempts, the outbox and the
bookkeeping hold over every run. Those about the chain (`IndexAgrees`,
`Outcomes`, `Decidable`, `Payouts`, `Shortfall.StuckTheorem`) are over the runs
in which

- one observer reads at a time (`LoneRun`), which is what the lease is for, and
- nothing that is on the final chain is given up on (`TruthfulRun`), which is what
  the endpoints' answers are for. `TruthfulWorker.TruthfulTheorem` discharges it
  for workers whose misses outweigh their honest endpoints: such a worker gives up
  on no row recorded as final, so in those runs nothing is given up on at all, and
  giving up is left for what a reader got wrong. `GivingUp.GivingUpTheorem` says
  exactly when the setting is enough: misses times agreement have to exceed the
  endpoints. The smallest is enough for a node of the operator's own and for up to
  three third parties held to two; it is not for four. `Outcomes.SuccessTheorem`
  does without this hypothesis.

`Witness` has runs of this kind to a payment that succeeded, one that expired and
a refund that expired.

What is assumed of the world is in `Chains.ValidLedger`, `Chains.ValidChain`,
`Protocol.ChainMoves` and `Protocol.FreshKey`:

- there is one true final chain, and a reorg replaces nothing at or below it;
- a transaction carries the same transfers in whichever block it lands, and is in
  one block at a time;
- a key is spent once, by one transfer of one transaction. The code says so where
  it reads one transaction to a key (internal/observe/observer.go:1066-1073), and
  elsewhere that any wallet can spend the same nonce
  (internal/payment/postgres.go:1859-1863). `Reading.ReadExactly` says which
  transactions a scan reads without the hypothesis: with two of one key in one
  scan, the second is read only for another key it comes first with;
- block times never go back;
- a key reaches the chain only after the row that holds it was committed, and no
  two rows share one.

`Simulated` is the repository's own chain in memory, proved to be such a chain.
Time is in microseconds, block heights are natural numbers, and the readers of the
chain that write rows are taken to answer truthfully at the moment they are asked.

## How the files fit

- `Basics`, `Lifecycle`, `Records`, `Evidence`: identifiers, statuses, rows, and
  the rules a transfer is judged by.
- `Tables`: what each database transaction makes of the rows, as functions.
  `Store` is the database itself, a class whose methods loop over rows and change
  them in place, each proved to leave exactly what the function says, and
  everything as it was where it reports an error. `Service` holds the loaded
  payments, attempts and refunds as objects that move, and the requests with
  nothing between their statements.
- `Chains`, `Reading`, `Protocol`: the chain, what a round makes of what it reads,
  and the steps. `Reader` is a round's two loops.
- `RowFacts`, `Consistency`, `Reachable`: what every step keeps, whoever
  interleaves.
- `Linear`, `OneLive`, `Ceiling`, `History`, `Lifetimes`, `Bookkeeping`,
  `Arrivals`, `ReadOnce`, `Agreement`, `Confirmations`, `OnTime`, `Announced`,
  `Clocks`: the theorems over every run. `Progress` has what a range that commits
  holds, and that one nobody raced does commit; `Unraced` has which blocks a round
  reads, and what it leaves, where nothing moves under it. `Witness` reaches what
  they are about.
- `Index`, `Indexing`, `Observing`, `Writing`, `Watched`, `IndexAgrees`: the index.
  `Settlement`, `Outcomes`, `Payouts`: what success, expiry and refunds mean on
  the chain. `Decidable`: exactly when each of them can be decided, told by the
  chain. `Shortfall` and `ShortRun`: a payment that is paid and reaches neither.
- `Finality`, `GivingUp`, `Paging`, `Deciding`: agreement between endpoints, and
  a worker's round. `Rounds` and `Sparing` are over any run of rounds, and
  `TruthfulWorker` puts those beside a run of the protocol; `Settling` is what a
  final verdict rests on.
- `Pairing`, `Money`, `Delivery`, `Queue`, `Order`, `RowOrder`, `Timely`, `Overtaken`,
  `Webhook`, `Simulated`: the satellites. `Queue` is the queue's steps, with any number of
  expanders between whose statements anything may run; `Webhook` is its tables as a
  class.

## Where the code does not keep what its comments say

- The bookkeeping comment on taking an arrival back says nothing is taken back
  while something still stands for it. A short row whose value cannot be read is
  counted as standing although it never told the payment of anything
  (internal/payment/postgres.go:1272-1283), so what a payment received can outlive
  the row that told it: `Witness.UnreadableStrands`. The rules and the rows allow
  such a value; the EVM adapter writes none
  (internal/adapter/chain/evm/logs.go:278-284). A matched row that a reorg moves to
  a block at its deadline is called late when it is read again, and nothing takes
  back what it told: `Witness.LateStrands`. `Agreement.AgreementTheorem` says
  exactly which steps do this, and that no others do.
- An attempt is taken back to issued only for a row that is lost
  (internal/payment/postgres.go:1222-1254), so one can stay confirming with no row
  that matches it, after the row that did was read again as late:
  `Witness.LateStrands`. `Confirmations.ConfirmingTheorem` says exactly which steps
  do this. Where payers keep to the deadlines they were offered, neither happens:
  `OnTime.OnTimeTheorem`.
- The comment on the sweep says a matched transfer is one that may yet pay its
  payment (internal/payment/postgres.go:950-954). A payment holds one arrival, so
  where a short transfer came first the matched one neither settles it
  (internal/finality/worker.go:638-648) nor lets it expire:
  `ShortRun.StuckReached`. `Shortfall.SettlingTheorem` says exactly when a payment
  can be settled, and `Shortfall.StuckTheorem` that one that cannot never is.
- An endpoint is said to answer whether the block is one the chain will not replace
  (internal/finality/finality.go:126-132). It reads the receipt first and its final
  block after, so a block replaced in between by one that is then final is called
  final: `Settling.FinalCanBeRaced`. `Settling.SettledWasThere` says an answer is
  right exactly if the block was still there at the second reading. A worker asks
  only about rows recorded as final, and those are on the final chain
  (`IndexAgrees.IndexTheorem`), so it settles on none by this.
- Two candidates that share a height and a transaction can be parted by the end of
  a page, and the second is then passed over (internal/payment/postgres.go:752):
  `Paging.ReachedTheorem` says a row is reached in every pass exactly when it
  shares its spot with none.
- A delivery put back on its way can be sent after what followed it:
  `Overtaken.ResentOvertaken`. `Order.ResendTheorem` says exactly when it is, and
  `Order.OrderTheorem` allows every other resend.

## Model

| member | source | states |
|---|---|---|
| `IndexAgrees.IndexTheorem` | internal/payment/postgres.go:1030-1217 | Over every run with one observer at a time and nothing final given up on: the standing rows up to the cursor are, by key, transaction, block and content, exactly the transfers of issued keys the final chain carries there (both directions) |
| `Watched.WatchedTheorem` | internal/observe/observer.go:879-916 | Over every run, with any number of observers and whatever is given up on, no row is ever of an asset nobody watches |
| `Outcomes.SuccessTheorem` | internal/finality/worker.go:638-653 | A succeeded payment was paid on the final chain by a transfer the rules match to one of its attempts; what it received covers its amount and never changes in any later state, whatever the endpoints answered |
| `Outcomes.ExpiryTheorem` | internal/payment/postgres.go:957-978 | An expired payment is paid by no block of the chain, final or not, and the network was read past its deadline |
| `Decidable.SettlesTheorem` | internal/payment/postgres.go:737-755 | A payment can be settled on a row, payable or past its deadline alike, if and only if what it received covers it and the chain, in a block up to the cursor, carries a transfer of the row's key and transaction that pays it |
| `Decidable.ExpiresTheorem` | internal/payment/postgres.go:957-978 | A payment can expire, whatever it received, if and only if it waits for finality, the cursor's block is at or past its deadline, no block of the chain pays it, and no row above the cursor is matched to it; and it can be made to wait exactly once a clock has reached its deadline while it is payable |
| `Decidable.RefundSettlesTheorem` | internal/payment/postgres.go:1755-1768 | A refund can be settled on a row, signable or past its deadline alike, if and only if the chain, in a block up to the cursor, carries a transfer of the row's key and transaction that settles it |
| `Decidable.RefundExpiresTheorem` | internal/payment/postgres.go:1843-1866 | A refund can expire if and only if it waits for finality, the cursor's block is at or past its deadline, no block up to the cursor carries a transfer of its key out of the wallet it comes from, and no row above the cursor says one does |
| `Clocks.PayableTheorem` | internal/finality/worker.go:438-455 | Over every run a payment that waits for finality, or expired, stopped being payable by a decision whose clock had reached its deadline |
| `Clocks.SignableTheorem` | internal/finality/worker.go:481-497 | Over every run a refund that waits for finality, or expired, stopped being signable by a decision whose clock had reached its deadline |
| `Clocks.OfferTheorem` | internal/payment/attempt.go:82-100 | Over every run an attempt is good to its payment's deadline cut to the second, and was issued by a request whose clock left at least two minutes to it |
| `Clocks.RefundTheorem` | internal/payment/refund.go:133-185 | Over every run a refund is the one that was asked for: of that payment, for that amount, which is not nothing, to that destination, under that key, and good for half an hour from then |
| `Shortfall.SettlingTheorem` | internal/finality/worker.go:638-653 | Over every run a payment with a final matched row has received, is not one the sweep expires, and can be settled on the row if and only if what it received covers what it asked for |
| `Shortfall.StuckTheorem` | internal/payment/postgres.go:957-978 | A payment with a final matched row that cannot be settled on it stays so for the rest of the run: in every later state it is open, paid on the final chain, holds the same short amount, and can neither succeed nor expire |
| `ShortRun.StuckReached` | internal/finality/worker.go:638-653 | A run to such a payment: paid short, its attempt superseded, the second attempt paid in full, both in final blocks |
| `Payouts.PayoutTheorem` | internal/payment/postgres.go:1843-1866 | Everything the chain ever sent back for a payment, summed transfer by transfer as the rules match them to its refunds, is at most what the payment received |
| `Payouts.ExpiredRefundTheorem` | internal/finality/worker.go:481-510 | No block there is carries a transfer that settles a refund that expired |
| `Linear.CursorTheorem` | internal/observe/cursor.go:156-179 | For any number of observers and no lease: committed ranges lie end to end from the first position to the cursor, and the cursor and what was committed only go forward |
| `Progress.RangeCommitsWithAdvance` | internal/observe/observer.go:969-984 | Over every run a finalised range's rows are in the database exactly when its advance is: either no row moved, or the cursor was where the round read it and is where it read to, and every transfer the round saw has its row, final, with the place, the content and the verdict that were read |
| `Progress.UnracedCommits` | internal/observe/observer.go:969-984 | A finalised range does commit, every row it saw and its cursor together, whenever the cursor and the attempts it saw are still as they were read and a row can hold what it saw |
| `Unraced.AheadTheorem` | internal/observe/observer.go:838-860 | A round ahead with nothing moving under it leaves, of every issued key's transfer in the newest blocks above the final one, as many as the round is wide, a row with its place and content |
| `Unraced.RangeTheorem` | internal/observe/observer.go:799-817 | A round over finalised blocks with nothing moving under it commits, and the cursor is then the round's width further on, or on the final block where that is nearer |
| `Linear.RangesClimb` | internal/observe/observer.go:799-817 | Committed ranges are disjoint and in order, all above the first position |
| `Linear.EachHeightOnce` | internal/observe/observer.go:799-817 | Every height from the first position to the cursor is in a committed range, and by RangesClimb in one only |
| `Ceiling.CeilingTheorem` | internal/payment/postgres.go:1464-1557 | In every reachable state, statement by statement, the refunds of a payment that have not expired sum to at most what it received, and only a succeeded payment has any |
| `OneLive.AttemptTheorem` | internal/payment/service.go:149-177 | Under any interleaving of issuing, superseding, confirming and unconfirming: at most one live attempt and at most two attempts ever |
| `History.HistoryTheorem` | internal/payment/postgres.go:247-288 | The events told of one payment, in the outbox's order, are a repeat-free path through the lifecycle graph that ends at the status the payment is in, whoever raced |
| `Announced.RefundHistoryTheorem` | internal/payment/postgres.go:1901-1935 | Over every run, whoever raced, the events told of a refund are none until it has ended, and then exactly one, of how it ended |
| `Announced.ConfirmingsTheorem` | internal/payment/postgres.go:1061-1085 | Over every run a payment has as many events that an attempt at it is confirming as its attempts were confirmed, taken back or retired since or not |
| `Arrivals.BookkeepingTheorem` | internal/payment/postgres.go:345-383 | While a payment can receive: a matched or readable short row standing means it has received; having received means such a row or a doubtful one stands; a confirming attempt has a row that matches it or one that was judged late |
| `Arrivals.ReceivedExactly` | internal/payment/postgres.go:1272-1295 | Where no doubtful row stands, what an open payment received is set exactly while a row that tells of it stands; and a late row of one is in a block at or past its attempt's deadline |
| `Confirmations.ConfirmingTheorem` | internal/payment/postgres.go:1222-1254 | From a state in which an attempt confirms only while a row stands that matched it, a step of any run keeps it so if and only if it is not a round that goes through on a confirming attempt, keeps no row that matched it, sees none that does, and loses no row of it |
| `Confirmations.LosingKeeps` | internal/payment/postgres.go:1222-1254 | Taking back for lost rows, and so giving up, never leaves an attempt confirming that nothing matches |
| `Agreement.AgreementTheorem` | internal/payment/postgres.go:1272-1295 | From a state in which what a payment received is set exactly while a row that tells of it stands, a step of any run keeps it so if and only if it does not strand it: everything that told is lost or read again as something else, and an unreadable short row stands or nothing of the payment was lost |
| `OnTime.OnTimeTheorem` | internal/payment/postgres.go:345-383 | Over every run whose chain never carries an attempt's key at or past its deadline, or with an amount nobody can read: what an open payment received is set exactly while a row that tells of it stands, and its attempts confirm only while a row stands that matched them |
| `Agreement.RereadTellsOrLate` | internal/payment/evidence.go:136-138 | A row that told, read again, tells again or is in a block at or past its attempt's deadline |
| `Witness.LateStrands` | internal/payment/postgres.go:1171-1183 | A run to a state in which the bookkeeping does not follow the evidence: a reorg moves a payment into a block at its deadline, and what it received stays though nothing tells of it, as its attempt stays confirming though nothing matches it |
| `Witness.UnreadableStrands` | internal/payment/postgres.go:1272-1283 | A run to another: a transfer nobody can read takes the payment's place, counts as standing, and what was received stays |
| `Witness.OutcomesReached` | internal/finality/worker.go:638-653 | Runs of the kind the theorems are about reach a payment that succeeded, one that expired and a refund that expired |
| `Consistency.SameSubject` | internal/payment/postgres.go:1139-1147 | A key belongs to one attempt or one refund, so a row written over stands against what it stood against |
| `Reachable.ConsistentRun` | internal/payment/postgres.go:1030-1088 | In every state any run reaches, rows are linked, whatever was read is what the row says or is told apart by its revision, and every verdict still fits its transfer |
| `Lifetimes.LifetimeTheorem` | internal/payment/payment.go:440-537 | Over every run a payment, an attempt and a refund stay for what they were stored for; a payment's status only climbs, and one that has finished never moves again, in its status or in what it received; nor does a refund that has |
| `Lifetimes.AuthorisedTheorem` | internal/payment/attempt.go:162-172 | Over every run an attempt names who authorised it exactly while it is confirming, which is what a row is refused for when it is loaded |
| `Lifetimes.ReceiveAndBack` | internal/payment/payment.go:440-523 | A payment takes one arrival, giving it back leaves it as it was, and it succeeds exactly on what covers it and then gives nothing back |
| `Lifetimes.ConfirmAndBack` | internal/payment/attempt.go:190-235 | Confirming and taking back undo each other, and an attempt that was retired does neither |
| `Evidence.JudgeMeaning` | internal/payment/evidence.go:96-140 | Matched is given to exactly the transfers that pay an open payment, by key, scheme, asset, wallet, amount and deadline, short to exactly those that lack only the amount, a verdict is given exactly where key and scheme are the attempt's, and every verdict fits its transfer |
| `Evidence.JudgeRefundMeaning` | internal/payment/evidence.go:153-186 | A refund is matched by exactly its own amount, in its asset, out of the payment's wallet, to where it goes, before its deadline |
| `Lifecycle.PathClimbs` | internal/payment/status.go:38-62 | Along any path of the lifecycle graph the rank only goes up: nothing is met twice and nothing follows a final status |
| `Basics.ToSecond` | internal/payment/attempt.go:113 | The deadline offered is the payment's, cut to the second and never past it |
| `Outcomes.CandidatePaid` | internal/payment/postgres.go:737-784 | A final matched row of an open payment is a transfer the final chain carries and that pays it |
| `Outcomes.UnsettledNeverPaid` | internal/finality/worker.go:438-470 | A payment the sweep would expire was paid by no block, because every transfer that pays before the deadline has its matched row by then |
| `Outcomes.UnsettledNeverSent` | internal/payment/postgres.go:1843-1866 | A refund the sweep would expire was settled by no block |
| `Settlement.NeverPaidStays` | internal/finality/worker.go:438-446 | Once the network was read past the deadline with nothing that pays, no later block and no later attempt pays |
| `Settlement.ReadPastStays` | internal/payment/postgres.go:957-978 | What the cursor's block time says was read past stays read past |
| `Payouts.SettledOnce` | internal/payment/evidence.go:153-186 | A refund is settled by one transfer at most, because its key is spent once |
| `Observing.LookFinal` | internal/observe/observer.go:879-916 | What is looked up of a finalised range is every transaction of it that spent an issued key, and nothing outside it |
| `Observing.ReceiptFinal` | internal/observe/observer.go:918-964 | Reading one receipt more keeps both: only transfers that are there, and none of an issued key left out |
| `Observing.ReceiptAhead` | internal/observe/observer.go:838-860 | What is read ahead of the final block is above it wherever a reorg moved it in between |
| `Writing.PassedRow` | internal/payment/postgres.go:1171-1217 | What a final pass makes of each row: an entry's, or untouched, or gone from the range |
| `Writing.PassedIsWhole` | internal/observe/observer.go:799-817 | After a finalised range is written every transfer of an issued key up to the new cursor has its final row |
| `Writing.AheadIsTrue` | internal/observe/observer.go:838-860 | A row read ahead is above the cursor and never written over a final one |
| `Observing.InitIndexed` | internal/observe/observer.go:680-686 | The first position reads nothing: nothing below it was ever payable |
| `Index.RoundsStay` | internal/observe/observer.go:879-964 | What a round has read stays true while the chain moves above its final block and keys are issued |
| `Chains.KeysInExact` | internal/adapter/chain/simulated/simulated.go:251-271 | A scan of a span of blocks names exactly the watched transfers of its transactions |
| `Reading.SeenInExact` | internal/observe/observer.go:926-963 | What a receipt holds against the attempts is exactly what the rules judge of its transfers |
| `Reading.SentInExact` | internal/observe/observer.go:926-963 | What a receipt holds against the refunds is exactly what the rules judge of its transfers |
| `Reading.TransactionsSound` | internal/observe/observer.go:1066-1092 | A transaction is read only for a key somebody here holds, and never twice |
| `Reading.ReadExactly` | internal/observe/observer.go:1066-1092 | Exactly the transactions that come first in a scan with some key held here are read |
| `Reading.TransactionsComplete` | internal/observe/observer.go:1066-1092 | Where the scan names one transaction to a key, every transaction that spent a key held here is read |
| `Reader.WorthReading` | internal/observe/observer.go:1074-1092 | The loop over what a scan found picks those transactions in the order they were found |
| `Reader.Receive` | internal/observe/observer.go:926-963 | The loop over a receipt's transfers judges each against the attempt or the refund its key is held by |
| `Bookkeeping.LoseBooks` | internal/payment/postgres.go:1222-1295 | Taking back what lost rows stood for keeps what every row that still stands says: told stays told, received stays told of, confirming stays backed by a row that matches or is late |
| `Bookkeeping.PutWorth` | internal/payment/postgres.go:1130-1159 | A row written again is worth what it was: a re-read changes at most whether a transfer was late |
| `Arrivals.RecordBooks` | internal/payment/postgres.go:1030-1088 | A round keeps the books: after its rows, its losses, its arrivals and its confirmations every telling row was told |
| `Ceiling.CommitKept` | internal/payment/postgres.go:1464-1557 | The holder of a payment's lock commits what it measured, and nobody else measured against the same payment |
| `Ceiling.NoNewRefund` | internal/payment/refund.go:292-302 | No step but a refund's commit raises what a payment's refunds hold or lowers what a refunded payment received |
| `Ceiling.StoredHolds` | internal/payment/postgres.go:1560-1585 | A refund holds its whole amount, against its own payment and no other, from when it is stored |
| `Ceiling.ExpiryReleases` | internal/payment/postgres.go:1560-1585 | However it moves, a refund goes on holding its amount until it expires, and then lets all of it go |
| `OneLive.IssueBounded` | internal/payment/postgres.go:431-471 | The one-live index keeps an attempt from being issued beside one that was counted alone and has not moved |
| `OneLive.SupersedeBounded` | internal/payment/service.go:160-177 | A supersede whose revision still matches retires the only attempt its payment ever had |
| `History.SaveTells` | internal/payment/postgres.go:389-415 | A save that goes through adds exactly the move of the payment as it still is to what is told of it |
| `Store.Store.Recorded` | internal/payment/postgres.go:1030-1088 | The loops of a round leave exactly Record's rows: all put, then what was lost taken back, then arrivals, then confirmations; or report an error |
| `Store.Store.WriteFinal` | internal/observe/observer.go:969-984 | A finalised range and the advance of the cursor in one transaction, or everything as it was |
| `Store.Store.RecordAhead` | internal/observe/observer.go:863-874 | A round ahead of the final block in one transaction that moves no cursor |
| `Store.Store.RecordOne` | internal/payment/postgres.go:1130-1159 | One row put: new, or written over with what it stands against and its being final kept; refused where a field cannot be held |
| `Store.Store.LoseFrom` | internal/payment/postgres.go:1171-1217 | A span loses the rows no longer found there and takes back what stood on them, row by row |
| `Store.Store.Taken` | internal/payment/postgres.go:1222-1227 | What one lost row stood for is taken back after others' was, attempt first |
| `Store.Store.Unconfirm` | internal/payment/postgres.go:1231-1254 | An attempt goes back to issued exactly where nothing matches it any more and it was confirming |
| `Store.Store.Unreceive` | internal/payment/postgres.go:1272-1295 | A payment gives back what arrived exactly where no matched or short row of it stands and it can still receive |
| `Store.Store.Arrived` | internal/payment/postgres.go:345-383 | What a transfer carried is put on its payment once, and only while money can land |
| `Store.Store.Confirmed` | internal/payment/postgres.go:1061-1085 | A matched transfer confirms the attempt it was read with and announces it, or the round is stale |
| `Store.Store.SaveOne` | internal/payment/postgres.go:570-585 | An attempt is written back only at the revision it was read at |
| `Store.Store.Vanish` | internal/payment/postgres.go:1315-1369 | One transfer given up on takes back what stood on it; one that is not there or is gone already changes nothing |
| `Store.Store.Save` | internal/payment/postgres.go:247-288 | A payment and its event are written together at the version read, or neither is |
| `Store.Store.SaveReturn` | internal/payment/postgres.go:1901-1937 | A refund is written at the version read, with an event only for its final statuses |
| `Store.Store.Issue` | internal/payment/postgres.go:431-471 | An attempt is stored exactly where its key is nobody's and its payment has no live one |
| `Store.Store.HeldBy` | internal/payment/postgres.go:1576-1586 | The loop over a payment's refunds sums what has not expired |
| `Store.Store.CreateRefund` | internal/payment/postgres.go:1464-1557 | A refund is stored exactly where its payment succeeded, something arrived, it fits under what is left and its key is nobody's |
| `Store.Store.Init` | internal/observe/cursor.go:131-146 | A network that has a position keeps it |
| `Store.Store.Advance` | internal/observe/cursor.go:156-179 | The cursor moves exactly from where the caller read it |
| `Store.TakeOneMore` | internal/payment/postgres.go:1210-1216 | Taking back for one lost row more is taking back for all of them together, in whatever order they come |
| `Service.Service.Await` | internal/payment/service.go:121-143 | A created payment becomes payable and the merchant is told, or the answer says which of the two ways it was refused |
| `Service.Service.Issue` | internal/payment/service.go:312-343 | Each refusal in the order it is checked, an attempt of the payment's key and deadline exactly otherwise, and the same rows the protocol's call leaves when nothing comes between its statements |
| `Service.Service.Supersede` | internal/payment/service.go:149-177 | The live, issued attempt named is retired exactly where the payment is open for payment and had fewer than two, as the protocol's call does when nothing comes between its statements |
| `Finality.Ask` | internal/finality/finality.go:89-124 | The loop stops early with the verdict the whole list of answers has; agreed means as many as agreement takes said it and nobody asked said otherwise; unanswered means everyone was asked |
| `Finality.AgreedMeans` | internal/finality/finality.go:89-124 | A verdict is reached if and only if some prefix of the endpoints gave exactly as many answers as agreement takes, all the same; and that many endpoints said it |
| `Finality.SilenceChangesNothing` | internal/finality/worker.go:355-373 | Deleting endpoints that said nothing leaves what was heard, and so every verdict, as it was |
| `Finality.Delete` | internal/finality/worker.go:371-373 | Deleting places from the last to the first deletes exactly those places |
| `GivingUp.GoneOnce` | internal/finality/finality.go:133-155 | An honest endpoint that only moves forward says gone of a true transfer at most once, because it reads the receipt before the head |
| `Settling.ReplyMeans` | internal/finality/finality.go:133-168 | An endpoint says final exactly of what its receipt shows where it was recorded with its final block at or past that, gone exactly of what no receipt shows with its final block at or past that; below it, it says that it waits or that the transfer is elsewhere |
| `Settling.SettledTheorem` | internal/finality/worker.go:547-553 | What a round settles on was shown where it was recorded, at or below its own final block, by an endpoint that does not lie, where fewer lie than agreement takes, whoever was left out or silent |
| `Settling.SettledWasThere` | internal/finality/finality.go:120-153 | Over a run, what is settled on was in its recorded block, at or below a final block read no earlier, and is on the final chain for good if and only if it was still there then |
| `Settling.FinalCanBeRaced` | internal/finality/finality.go:133-168 | An endpoint that tells what it sees, its receipt read before a reorg and its head after, says final of what the final chain does not carry |
| `GivingUp.GoneBounded` | internal/finality/worker.go:554-561 | With liars, the passes that call a true transfer gone times the honest endpoints each takes are at most the honest endpoints there are |
| `GivingUp.NeverGivenUp` | internal/finality/worker.go:547-561 | A transfer on the final chain is not given up on, in any pass, where misses outweigh the honest endpoints |
| `GivingUp.CanBeGivenUp` | internal/finality/worker.go:547-561 | Where misses times agreement fit in the endpoints, a schedule of honest endpoints leads to giving a true transfer up |
| `GivingUp.GivingUpTheorem` | internal/finality/worker.go:547-561 | With every endpoint honest, no true transfer is ever given up on if and only if misses times agreement exceed the endpoints |
| `GivingUp.OwnNodeIsEnough` | internal/config/config.go:49-52 | The fewest misses a document may set is enough for a node of the operator's own |
| `Deciding.Worker.Round` | internal/finality/worker.go:334-427 | A round over the pages that follow where the last one stopped, cut short or not: its whole new state; it settles on exactly the transfers it put to the endpoints of which enough said final before any said otherwise, gives up on exactly those of which enough said gone and that were called so often enough before, and was short exactly where too few answered |
| `Deciding.Worker.Decide` | internal/finality/worker.go:356-406 | One transfer left unasked, or asked, heeded and counted; settled on exactly when as many of the endpoints put the question as agreement takes said final and none asked before them said otherwise |
| `Deciding.Worker.Put` | internal/finality/worker.go:363-373 | A transfer is put to the endpoints that are left; exactly those that were asked, up to the answer that decides, and were silent are left out from then on |
| `Deciding.GoneExactly` | internal/finality/worker.go:554-561 | A transfer is given up on in a round exactly when it was put to the endpoints then and called gone, and was called gone in as many passes in a row before as the setting leaves |
| `Deciding.FinalExactly` | internal/finality/worker.go:547-553 | A transfer is settled on in a round exactly when it was put to the endpoints then and called final |
| `Deciding.DisagreedIsLeft` | internal/finality/worker.go:348-396 | After a disagreement a transfer is left unasked for as many passes as there were disagreements in a row, sixty at the most, and put again in the one after |
| `Deciding.PassCountsOnce` | internal/finality/worker.go:383-399 | However often a transfer comes up in a pass it is counted from what the last pass left |
| `Deciding.CountIsRemembered` | internal/finality/worker.go:383-387 | Asked every pass, the worker's count is the one a transfer is given up on by in GivingUp |
| `Rounds.PassTheorem` | internal/finality/worker.go:407-421 | Over every run of a worker's rounds on changing tables, cut short anywhere: in each pass while refunds fit one page, a row that stays, alone at its height and transaction, is on the page of exactly one round that gets through |
| `Rounds.PassBecomes` | internal/finality/worker.go:383-399 | A pass that lists a transfer makes one step of what is remembered of it, so its count grows by at most one from swap to swap |
| `Rounds.AskedWithin` | internal/finality/worker.go:343-350 | A row that stays is put to the endpoints within one pass more than the most it is left unasked |
| `Sparing.SparedTheorem` | internal/finality/worker.go:547-561 | Over every run of a worker's rounds, however paged and whatever fails, a transfer on the final chain is in no round's list to give up on where misses outweigh the honest endpoints |
| `TruthfulWorker.FinalRowsAreSpared` | internal/finality/worker.go:547-561 | A row recorded as final is given up on in no round of such a worker, its honest endpoints telling what they see of the chain of the run |
| `TruthfulWorker.TruthfulTheorem` | internal/finality/worker.go:547-561 | A run with one observer at a time, in which such workers are who gives up, gives up on nothing final: what the theorems about the chain ask for |
| `Deciding.ListedIsKept` | internal/finality/worker.go:383-399 | A transfer of a round that was answered for is in what the pass has heard, as its answer leaves it |
| `Paging.ReachedTheorem` | internal/payment/postgres.go:752-754 | Whatever the length of a page, a row is reached in every pass it stays through if and only if it is alone at its height and transaction |
| `Paging.SharedSpotIsPassedOver` | internal/payment/postgres.go:752-754 | For every length of a page and any two rows sharing a height and a transaction there is a pass the second is not reached in |
| `Pairing.Transfers` | internal/adapter/chain/evm/logs.go:160-218 | The loop makes exactly the chosen pairs, or reports an error exactly where the receipt is too long or a log of a pair cannot be read |
| `Pairing.Followed` | internal/adapter/chain/evm/logs.go:231-238 | The search finds the first free transfer of the contract from a place on, or says there is none |
| `Pairing.ChosenFits` | internal/adapter/chain/evm/logs.go:160-218 | A pair is an authorisation and a later transfer of the same contract leaving the account that signed |
| `Pairing.ChosenClimbs` | internal/adapter/chain/evm/logs.go:160-218 | No transfer answers for two authorisations, and of one contract's, later authorisations have later transfers |
| `Pairing.OwnTheorem` | internal/adapter/chain/evm/logs.go:220-238 | Every authorisation gets exactly its own transfer if and only if each contract's transfers are made in the order they were authorised with none in between that nobody authorised |
| `Pairing.MadeExactly` | internal/adapter/chain/evm/logs.go:204-215 | What is made carries the key, signer, accounts and value of the two logs chosen, at its own position, and every choice is made |
| `Money.PrintedReadsBack` | internal/payment/money.go:161-178 | Printing an amount and reading it back gives the amount, whatever the decimals, exactly when it has at most 78 digits |
| `Money.ShowLength` | internal/payment/money.go:54-64 | An amount has at most so many digits exactly when it is below that power of ten |
| `Money.ReadPrintsBack` | internal/payment/money.go:81-129 | Reading an amount and printing it gives what was written with the zeros at its ends dropped |
| `Money.OneSpelling` | internal/payment/money.go:81-129 | Two spellings read as one amount if and only if they differ in the zeros at their ends alone |
| `Money.StoredReadsBack` | internal/payment/money.go:54-64 | An amount stored as digits reads back as the amount |
| `Queue.ConservationTheorem` | internal/webhook/postgres.go:368-468 | With any number of expanders: a row of the outbox is there, or was turned into exactly one delivery to each endpoint that received it at some step before, by its switch, its account and its list; each delivery that is kept tells the row's payment and event; nothing else was made |
| `Order.OrderTheorem` | internal/webhook/worker.go:161-210 | With one worker at a time and nothing resent that what follows it has overtaken, all sends to one endpoint about one payment are in the order the deliveries were made |
| `Order.ResendTheorem` | internal/webhook/postgres.go:862-892 | After a resend the sends are in order when its delivery is next sent if and only if nothing after it in its line was sent by then; with nothing of that in flight at the resend, if and only if nothing was sent by the resend |
| `Order.NoneOvertakes` | internal/webhook/postgres.go:489-537 | No attempt is made at a delivery while an earlier one of its line is pending, unless the endpoint was deleted |
| `RowOrder.EmittedOrderTheorem` | internal/webhook/postgres.go:476-482 | Over the same runs the sends to one endpoint about one payment are of events in the order they were emitted in: rows are taken oldest first and what is made of each is numbered after what was made before |
| `Overtaken.ResentOvertaken` | internal/webhook/postgres.go:862-892 | A run in turn but for one resend, at the end of which the order is lost |
| `Delivery.CapHolds` | internal/webhook/postgres.go:496-513 | One reading gives no endpoint more than its bound |
| `Delivery.NobodyIsLeftOut` | internal/webhook/postgres.go:484-513 | A reading shorter than its limit leaves out no endpoint with something due |
| `Delivery.OneOfALine` | internal/webhook/postgres.go:506-510 | No two deliveries of one endpoint and payment are read together |
| `Delivery.FailsAtLast` | internal/webhook/postgres.go:543-578 | A delivery refused every time is pending through nine attempts, each due after its interval, and failed by the tenth |
| `Delivery.TriedForDays` | internal/webhook/delivery.go:71-84 | A delivery refused every time is tried over at least 75 hours, 35 minutes and 5 seconds, where each try comes when the one before left it due or later |
| `Delivery.DueIsTimely` | internal/webhook/postgres.go:476-515 | What is read is pending, past its time, first of its line, and to an endpoint that is enabled and not deleted; and a reading shorter than its bound leaves nothing like that out, where its endpoint has no more past their time than one reading gives it |
| `Timely.NotBefore` | internal/webhook/postgres.go:498-570 | Over every run, the next reading that takes a delivery after a refusal was written down is no earlier than the refusal, its interval and its share, unless it was put back by hand; after the tenth refusal there is none |
| `Delivery.ResentOnce` | internal/webhook/postgres.go:862-892 | Resent after its last attempt, a delivery is tried once more, and that decides it |
| `Webhook.Webhooks.ExpandOne` | internal/webhook/postgres.go:387-440 | The oldest row of the outbox becomes its deliveries and is removed, exactly as the four statements of the queue's step do with nothing between them; or there is none |
| `Webhook.Webhooks.Expand` | internal/webhook/postgres.go:368-383 | Rows are taken oldest first, as many as there are or as the limit, each exactly as one transaction takes it, and the rest stay as they were |
| `Webhook.Webhooks.Receiving` | internal/webhook/postgres.go:446-468 | The loop over the endpoints lists every one that receives the event, each once, and no other |
| `Webhook.Webhooks.Due` | internal/webhook/postgres.go:489-537 | The reading is within each endpoint's bound, soonest first, and as many as the round's; all of it is pending, past its time, first of its line and to an endpoint enabled and not deleted; a short one leaves nothing like that out, where its endpoint has no more past their time than its bound |
| `Webhook.Webhooks.SendOne` | internal/webhook/postgres.go:543-578 | An attempt leaves the delivery delivered, due again after its interval, or failed after the last |
| `Webhook.Webhooks.ResendOne` | internal/webhook/postgres.go:862-892 | A delivery delivered or failed is put back on its way, whatever a round is doing; one that is pending is refused, and one of no endpoint or a deleted one is not found |
| `Webhook.Webhooks.DeleteEndpoint` | internal/webhook/postgres.go:220-246 | A deleted endpoint is disabled and its pending deliveries fail with it |
| `Webhook.Webhooks.Sweep` | internal/webhook/postgres.go:580-613 | What is done with and past its retention is removed, and nothing that is pending |
| `Webhook.Webhooks.Round` | internal/webhook/worker.go:161-210 | Rows are expanded, what is past its retention is removed, each delivery of the one reading is sent exactly once in any order, and every delivery ends as its answer leaves it |
| `Simulated.Simulation.Mine` | internal/adapter/chain/simulated/simulated.go:87-93 | A block on top, holding what was sent since the last one, and nothing is anywhere twice |
| `Simulated.Simulation.Finalize` | internal/adapter/chain/simulated/simulated.go:145-155 | Finality moves up to a block there is, and every other call is refused |
| `Simulated.Simulation.Reorg` | internal/adapter/chain/simulated/simulated.go:162-184 | Blocks above the final one give way to one that keeps the transactions named; everything else is refused and the final prefix stays |
| `Simulated.Simulation.Keys` | internal/adapter/chain/simulated/simulated.go:251-271 | The loop over a span answers with exactly what a scan of the chain is |
| `Simulated.SimulationIsAChain` | internal/adapter/chain/simulated/simulated.go:367-388 | The in-memory chain meets what the protocol assumes of a chain, as long as no key is sent twice |

## Left out

- HTTP handlers, pages, tokens, JSON shapes, the command line, logging and probe words: input, output and presentation.
- SQL text, the driver, timeouts, connection pools and migrations: a statement is an atomic read or write, and the unique indexes the code names are conditions of an insert.
- Accounts and networks as keys: one account's rows on one network; nothing modelled crosses either.
- Hashes, signatures, sealed secrets and random identifiers: fresh distinct keys are a hypothesis.
- JSON-RPC, provider errors and a caller's cancelled context: an endpoint answers or is silent, and a round that is cut off is one that quits between two steps.
- The lease table: a scheduler that may fail; the cursor theorem does without it and the index theorem takes it as a hypothesis.
- The operator's move of the cursor (internal/observe/cursor.go:185-248): every run here is without one, and a cursor moved back would judge a succeeded payment's row late again.
- The two lookups of a round's keys (attempts, then refunds) are one step, because no key passes from one to the other.
- The shapes a row refuses (internal/payment/evidence.go:280-302) are one flag of a transfer, storable, and an amount is the number its digits read as, or nothing; `Money` is what reads and prints digits.
- The bounds of a bigint on a block height: heights are unbounded, and a chain does not reach the bound.
- Two transfers of one key in one transaction sharing a loaded attempt: a key is spent once, so no round sees it, and loaded copies are values in the protocol.
- A refund request's replay under its idempotency key, and the opening of a payment under one: a replay writes nothing.
- The row a decision names to the merchant as its transfer, and the moments rows were last seen: nothing reads them back.
- Order of positions within a block, the code behind an asset, pausing and blocklists: not read by any decision.
- Polling interval and the width a provider accepts: any width of at least one block is a step of the protocol.
- Deliveries made as a test of an endpoint, signing, and what a receiver answered beyond whether it accepted: a delivery about no payment is in a line of its own kind.
- The random share added to a retry's wait is a number handed in, and the floating point it is computed with is not modelled.
- Deciding.Worker.Round: a failure to write that the endpoints disagree, after they were asked and before that is remembered, is one before that transfer was dealt with.
- Webhook.Webhooks.Round: does not model a write that is lost after its send, which is a step of `Queue` (a send not written down); and which deliveries are past their retention is handed in, because when one was made is not kept.
- Queue: the numbers one expansion takes are one block of the sequence; two expanders' numbers are compared with each other by nothing but their being distinct.
- Chains.ValidChain: does not allow two wallets to spend one nonce, because the observer reads one transaction to a key; a refund's check of which wallet its money left (internal/payment/postgres.go:1843-1866) is modelled and idle under it.
- A round of the observer as one method: its parts are steps of the protocol, because anything may run between them; its two loops are `Reader`'s.
- Simulated.Simulation.Reorg: a panic is a refusal that changes nothing; staging an asset's upgrade and failing a call on request are not modelled.
- Service.Service.Issue: the identifier and key are handed in rather than drawn.
