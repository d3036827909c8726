/** A run, step by step, to a payment that can neither be settled nor expire. */
module ShortRun {
  import opened Basics
  import opened Lifecycle
  import opened Records
  import opened Evidence
  import opened Tables
  import opened Chains
  import opened Reading
  import opened Protocol
  import opened Witness

  // ---- a short transfer, in a final block

  /** The block of the transfer that pays short, and of the one that pays in full under the second attempt's key. */
  const SHORT := Block(105, MINUTE, [3])
  const FULL := Block(106, 2 * MINUTE, [4])

  const SHORT_AT := Place(1, 105, MINUTE)
  const FULL_AT := Place(2, 106, 2 * MINUTE)

  /** The rows once the short transfer was read, with the attempts as they have become. */
  function Rest(attempts: map<AttemptId, Attempt>, cursor: Position): Rows {
    Rows(map[0 := Asked(AwaitingPayment, Some(3), 3)], attempts, map[],
         map[Ref(3, 3) := RowHere(SHORT_AT, Some(3), Short, true)], Some(cursor), [PaymentMoved(0, AwaitingPayment)])
  }

  function Left(attempts: map<AttemptId, Attempt>): World {
    Ready().(chain := Two(SHORT, 1), landed := {3}, db := Rest(attempts, Position(1, 105, MINUTE)), ranges := [Range(1, 1)])
  }

  const SHORT_SEEN := Seen(0, Offered(Issued, None, 1), 0, 3, SHORT_AT, Pay(Some(3)), Short)

  lemma PutsShort()
    ensures PutOne(map[], SeenEntry(SHORT_SEEN), true) == Rest(map[], AtGenesis()).observations
    ensures LostIn(Rest(map[], AtGenesis()).observations, 1, 1, {3}) == {}
  {
  }

  lemma CreditsShort()
    ensures ArriveOne(Ready().db.payments, SHORT_SEEN) == Rest(map[], AtGenesis()).payments
  {
    var paid := Asked(AwaitingPayment, Some(3), 3);
    assert Ready().db.payments[0 := paid] == map[0 := paid];
    assert ArriveOne(Ready().db.payments, SHORT_SEEN) == Ready().db.payments[0 := paid];
  }

  /** A short transfer is what the payment received, and confirms nothing. */
  lemma RecordsShort()
    ensures Record(Ready().db, 1, 1, true, [SHORT_SEEN], []) == Some(Rest(Ready().db.attempts, AtGenesis()))
  {
    RecordsOne(Ready().db, 1, true, SHORT_SEEN);
    PutsShort();
    CreditsShort();
    var put := Ready().db.(observations := Rest(map[], AtGenesis()).observations);
    LosesNone(put);
    assert Written(Ready().db, 1, 1, true, [SeenEntry(SHORT_SEEN)]) == put;
    hide Written, Lose, PutOne, ArriveOne, Record, Arrive;
    assert Credited(put, [SHORT_SEEN]) == Rest(Ready().db.attempts, AtGenesis());
  }

  lemma GetsShort()
    ensures Reached(Here(), Left(Ready().db.attempts))
  {
    GetsReady();
    hide Reached, Record;
    Mines(Ready(), SHORT);
    var w := Ready().(chain := Two(SHORT, 0), landed := {3});
    assert Landed(Ready(), SHORT) == {3};
    Finalizes(w, SHORT);
    ShortIsRead(w.(chain := Two(SHORT, 1)));
  }

  lemma ShortIsRead(w: World)
    requires w == Ready().(chain := Two(SHORT, 1), landed := {3}) && Reached(Here(), w)
    ensures Reached(Here(), Left(Ready().db.attempts))
  {
    hide Reached, Record;
    RecordsShort();
    FinalReadIs(w, 1, [SHORT_SEEN], Rest(Ready().db.attempts, AtGenesis()));
    assert w.ranges + [Range(1, 1)] == [Range(1, 1)];
    hide FinalRead;
    assert SeenAt(w.db, 0, 3, PlaceAt(w.chain, 1), Pay(Some(3))) == Some(SHORT_SEEN);
    ReadsFinal(Here(), w, 1, 3, Pay(Some(3)), 0);
  }

  // ---- a second attempt

  /** An attempt that is live, issued and alone is superseded. */
  lemma Supersedes(env: Env, w: World, p: PaymentId, a: AttemptId)
    requires Reached(env, w) && AtRest(w) && Payable(w.db, p) && AttemptsOf(w.db, p) == {a}
    requires a in w.db.attempts && w.db.attempts[a].status == Issued && w.db.attempts[a].payment == p
    ensures var row := w.db.attempts[a];
            Reached(env, w.(db := w.db.(attempts := w.db.attempts[a := Bumped(row.(status := Superseded))])))
  {
    hide Reached, AttemptsOf, Runs;
    var row := w.db.attempts[a];
    RequestGoes(env, w, AskSupersede(0, p, a));
    var found := Went(w, 0, SupersedeFound(p, a));
    Proceeds(env, found);
    var live := Went(found, 0, SupersedeLive(a, row));
    Proceeds(env, live);
    var counted := Went(live, 0, SupersedeCounted(a, row));
    Proceeds(env, counted);
    assert Ended(counted, 0).calls == map[];
  }

  lemma Proceeds(env: Env, w: World)
    requires Reached(env, w) && 0 in w.calls
    requires w.calls[0].SupersedeFound? || w.calls[0].SupersedeLive? || w.calls[0].SupersedeCounted?
    ensures Reached(env, DoProceed(w, 0, 0, 0, 0))
  {
    hide Reached, DoProceed;
    RequestGoes(env, w, Proceed(0, 0, 0, 0));
  }

  function First(): map<AttemptId, Attempt> { map[0 := Offered(Superseded, None, 2)] }

  function Second(status: AttemptStatus, signer: Option<Address>, revision: nat): map<AttemptId, Attempt> {
    First()[1 := Offered(status, signer, revision).(key := 5)]
  }

  lemma GetsSuperseded()
    ensures Reached(Here(), Left(First()))
  {
    GetsShort();
    hide Reached;
    var w := Left(Ready().db.attempts);
    Supersedes(Here(), w, 0, 0);
    assert w.db.attempts[0 := Bumped(w.db.attempts[0].(status := Superseded))] == First();
  }

  lemma GetsSecond()
    ensures Reached(Here(), Left(Second(Issued, None, 1)))
  {
    GetsSuperseded();
    LedgerHere();
    hide Reached, Spends;
    Issues(Here(), Left(First()), 0, 0, 1, 5);
    assert NewAttempt(0, EXPIRY, 0, 5).value == Offered(Issued, None, 1).(key := 5);
  }

  // ---- paid in full, in a final block

  function Chained(final: nat): Chain { Chain([Genesis(), SHORT, FULL], final) }

  lemma ChainedValid()
    ensures ValidChain(Chained(1), Here().ledger)
  {
    var c := Chained(1);
    LedgerHere();
    hide Spends;
    assert c.blocks[0].txs == [] && c.blocks[1].txs == [3] && c.blocks[2].txs == [4];
    forall h: nat, x: Tx | On(c, h, x) ensures (h == 1 && x == 3) || (h == 2 && x == 4) {
    }
    assert !Spends(Here().ledger, 3, 5) && !Spends(Here().ledger, 4, 3) by { KeysApart(); }
  }

  lemma KeysApart()
    ensures !Spends(Here().ledger, 3, 5) && !Spends(Here().ledger, 4, 3)
  {
    assert Here().ledger[3][0].key == 3 && Here().ledger[4][0].key == 5;
  }

  const FULL_SEEN := Seen(1, Offered(Issued, None, 1).(key := 5), 0, 4, FULL_AT, PayAgain(), Matched)

  function FullRow(): Observation { Observation(0, ForAttempt(1), FULL_AT, PayAgain(), Matched, true) }

  /** What a payment that was paid short and then in full is left as. */
  function LeftStuck(): World {
    Left(Second(Confirming, Some(9), 2)).(
      chain := Chained(2), landed := {3, 4},
      db := Rest(Second(Confirming, Some(9), 2), Position(2, 106, 2 * MINUTE)).(
        observations := map[Ref(3, 3) := RowHere(SHORT_AT, Some(3), Short, true), Ref(5, 4) := FullRow()],
        outbox := [PaymentMoved(0, AwaitingPayment), AttemptConfirming(0)]),
      ranges := [Range(1, 1), Range(2, 2)])
  }

  lemma PutsFull()
    ensures PutOne(Rest(map[], AtGenesis()).observations, SeenEntry(FULL_SEEN), true) == LeftStuck().db.observations
    ensures LostIn(LeftStuck().db.observations, 2, 2, {4}) == {}
  {
  }

  lemma ConfirmsFull(db: Rows)
    requires db.attempts == Second(Issued, None, 1)
    ensures ConfirmOne(db, FULL_SEEN)
            == Some(db.(attempts := Second(Confirming, Some(9), 2), outbox := db.outbox + [AttemptConfirming(0)]))
  {
    var confirming := Offered(Confirming, Some(9), 2).(key := 5);
    assert db.attempts[1 := confirming] == Second(Confirming, Some(9), 2);
  }

  lemma CreditsFull(db: Rows)
    requires db.payments == Rest(map[], AtGenesis()).payments
    ensures Credited(db, [FULL_SEEN]) == db
  {
    OneEntry(FULL_SEEN);
    assert ArriveOne(db.payments, FULL_SEEN) == db.payments;
  }

  lemma WritesFull(put: Rows)
    requires put == Left(Second(Issued, None, 1)).db.(observations := LeftStuck().db.observations)
    ensures Written(Left(Second(Issued, None, 1)).db, 2, 2, true, [SeenEntry(FULL_SEEN)]) == put
  {
    var db := Left(Second(Issued, None, 1)).db;
    hide Lose, PutOne, LostIn, Record, ConfirmOne, Arrive;
    RecordsOne(db, 2, true, FULL_SEEN);
    PutsFull();
    LosesNone(put);
  }

  /** The payment holds its one arrival, so the second confirms its attempt and is not what was received. */
  lemma RecordsFull()
    ensures var db := Left(Second(Issued, None, 1)).db;
            Record(db, 2, 2, true, [FULL_SEEN], []) == Some(LeftStuck().db.(cursor := db.cursor))
  {
    var db := Left(Second(Issued, None, 1)).db;
    var put := db.(observations := LeftStuck().db.observations);
    hide Written, Lose, PutOne, LostIn, ArriveOne, ConfirmOne, Record, Arrive, Credited;
    RecordsOne(db, 2, true, FULL_SEEN);
    WritesFull(put);
    CreditsFull(put);
    ConfirmsFull(put);
    assert put.outbox + [AttemptConfirming(0)] == LeftStuck().db.outbox;
  }

  lemma FullIsRead(w: World)
    requires w == Left(Second(Issued, None, 1)).(chain := Chained(2), landed := {3, 4}) && Reached(Here(), w)
    ensures Reached(Here(), LeftStuck())
  {
    hide Reached, Record;
    RecordsFull();
    FinalReadIs(w, 2, [FULL_SEEN], LeftStuck().db.(cursor := w.db.cursor));
    assert w.ranges + [Range(2, 2)] == LeftStuck().ranges;
    hide FinalRead;
    assert SeenAt(w.db, 1, 4, PlaceAt(w.chain, 2), PayAgain()) == Some(FULL_SEEN);
    ReadsFinal(Here(), w, 2, 4, PayAgain(), 1);
  }

  lemma GetsFull()
    ensures Reached(Here(), LeftStuck())
  {
    var w := Left(Second(Issued, None, 1));
    GetsSecond();
    ChainedValid();
    hide Reached, Record, ValidChain;
    assert Mined(w.chain, FULL) == Chained(1);
    ChainGoes(Here(), w, Mine(FULL));
    assert Landed(w, FULL) == {3, 4};
    var mined := w.(chain := Chained(1), landed := {3, 4});
    ChainGoes(Here(), mined, Finalize(2));
    FullIsRead(mined.(chain := Chained(2)));
  }

  /**
   A payment whose first attempt was paid short, in a final block, then superseded,
   and whose second was paid in full, in a final block: it can neither be settled on
   the transfer that pays it nor expire.
   */
  lemma StuckReached()
    ensures Reached(Here(), LeftStuck())
    ensures var db := LeftStuck().db;
            Candidate(db, 0, Ref(5, 4)) && db.payments[0].Succeed().None? && !Unsettled(db, 0)
  {
    GetsFull();
  }
}
