/** Where the checkout's promises stop, shown by concrete runs. */
module CheckoutLimits {
  import opened Prelude
  import opened CheckoutLedger
  import opened CheckoutInvariant
  import opened CheckoutRuns
  import opened CheckoutTheorems

  const STORE: Address := 7
  const BUYER: Address := 8
  const PAYMENT: Hash := 1000

  const CART := Cart(0, 0, 196, STORE, 100, None)
  const CREATE := Create(CART, [1], 0)
  const WEB_ORDER := NewOrder(CART, 101, 0)
  const PAY_LOG := Log(PAYMENT, 0, STORE, BUYER, 101, 50)
  const PURCHASE := Purchase(0, 0, 196, STORE, BUYER, 2000, 100, None)

  lemma RunTwo(db: Db, a: Action, b: Action)
    ensures Run(db, [a, b]) == Step(Step(db, a), b)
  {
    var one: seq<Action> := [b];
    assert one[1..] == [] && [a, b][1..] == one;
    assert Run(Step(db, a), one) == Run(Step(Step(db, a), b), []);
  }

  lemma Created() returns (db: Db)
    ensures db == Step(EMPTY, CREATE)
    ensures db.orders == [WEB_ORDER] && db.transfers == []
  {
    db := Step(EMPTY, CREATE);
  }

  lemma Swept(created: Db)
    requires created.orders == [WEB_ORDER] && created.transfers == []
    ensures var db := Fold(created, 196, [PAY_LOG], 60, 10);
            && |db.orders| == 1 && db.orders[0].channel == Web && db.orders[0].status == Delivered && db.orders[0].nonce.None?
            && |db.transfers| == 1 && db.transfers[0].txHash == PAYMENT && db.transfers[0].orderId == 0
  {
    assert MatchOrder(created.orders, 196, STORE, 101, 10) == Some(0) by {
      assert OldestInFlight(created.orders, 196, STORE, 101, 0) == None;
    }
    var db := ProcessLog(created, 196, PAY_LOG, 60, 10);
    assert db.orders[0].status == Delivered;
    assert Fold(created, 196, [PAY_LOG], 60, 10) == db;
  }

  /** A web order is created and swept to delivery by one transfer. */
  lemma WebSale() returns (acts: seq<Action>, db: Db)
    ensures AllLegal(acts) && db == Run(EMPTY, acts)
    ensures |db.orders| == 1 && db.orders[0].channel == Web && db.orders[0].status == Delivered && db.orders[0].nonce.None?
    ensures |db.transfers| == 1 && db.transfers[0].txHash == PAYMENT && db.transfers[0].orderId == 0
  {
    var sweep := Window(196, [PAY_LOG], 60, 10, 57);
    var created := Created();
    Swept(created);
    db := Step(created, sweep);
    acts := [CREATE, sweep];
    RunTwo(EMPTY, CREATE, sweep);
  }

  lemma AgentSale(sold: Db) returns (db: Db)
    requires |sold.orders| == 1 && sold.orders[0].nonce.None?
    ensures db == Step(Step(sold, Buy(PURCHASE, 20)), Settle(1, Some(PAYMENT), false))
    ensures |db.orders| == 2 && db.orders[0] == sold.orders[0] && db.transfers == sold.transfers
    ensures db.orders[1].channel == Agent && db.orders[1].status == Delivered && db.orders[1].txHash == Some(PAYMENT)
  {
    assert ByNonce(sold.orders, 2000, 1) == None;
    var bought := Step(sold, Buy(PURCHASE, 20));
    assert bought.orders[1].status == Settling && bought.orders[0] == sold.orders[0];
    db := Step(bought, Settle(1, Some(PAYMENT), false));
  }

  /** The transfer-to-order exclusivity is kept in one direction only: a settled transaction is
      never credited to a web order afterwards, but a credited one can later settle an agent order. */
  lemma CreditedTxMaySettleLater() returns (acts: seq<Action>, db: Db)
    ensures AllLegal(acts) && db == Run(EMPTY, acts)
    ensures |db.orders| == 2 && db.orders[0].channel == Web && db.orders[1].channel == Agent
    ensures db.orders[0].status == db.orders[1].status == Delivered
    ensures |db.transfers| == 1 && db.transfers[0].orderId == 0 && Some(db.transfers[0].txHash) == db.orders[1].txHash
  {
    var first, sold := WebSale();
    var buy, settle := Buy(PURCHASE, 20), Settle(1, Some(PAYMENT), false);
    db := AgentSale(sold);
    acts := first + [buy, settle];
    RunConcat(EMPTY, first, [buy, settle]);
    RunTwo(sold, buy, settle);
  }

  // ------------------------------------------------------------ an amount that looks free

  const NOTHING_SEEN := ChainView(None, None, None)

  /** Without a release at the same instant the application check can pass and the index still
      refuse the insert: the amount of an expired order whose quarantine is over. Here a buyer's
      poll expired it, no release has run, and a second buyer's only draw is refused. */
  lemma CheckAloneMayBeRefused() returns (acts: seq<Action>, db: Db)
    ensures AllLegal(acts) && db == Run(EMPTY, acts)
    ensures var now := ORDER_TTL + QUARANTINE;
            && !AmountTaken(db.orders, STORE, 101, now) && IndexRefuses(db.orders, STORE, 101)
            && Step(db, Create(CART, [1], now)) == db
  {
    var poll := Poll(0, NOTHING_SEEN, ORDER_TTL + 1);
    acts := [CREATE, poll];
    var created := Created();
    db := Step(created, poll);
    RunTwo(EMPTY, CREATE, poll);
    assert db.orders == [WEB_ORDER.(status := Expired)];
    assert SameAmount(db.orders[0], STORE, 101) && db.orders[0].status in RESERVED;
    assert !DrawWorks(db.orders, CART, 1, ORDER_TTL + QUARANTINE);
  }

  // ------------------------------------------------------------ a payment recorded and not credited

  const ASSET: Address := 9
  const SECOND: Hash := 1001
  const LATE := 1900

  function PayLog(txHash: Hash): Log {
    PAY_LOG.(txHash := txHash)
  }

  /** A receipt with one exact payment, one block deep. */
  function Shallow(txHash: Hash): ChainView {
    ChainView(Some(ASSET), Some(Receipt(true, Some(50), [RawLog(ASSET, true, PayLog(txHash))])), Some(51))
  }

  lemma ScanOne(db: Db, txHash: Hash)
    requires |db.orders| == 1 && db.orders[0].payTo == STORE && db.orders[0].createdBlock.None? && db.orders[0].channel == Web
    requires !Recorded(db.transfers, txHash, 0) && !AgentSettled(db.orders, txHash)
    ensures ScanLogs(db, 0, ASSET, [RawLog(ASSET, true, PayLog(txHash))]) == Clean(true, [PayLog(txHash)])
  {
    var logs := [RawLog(ASSET, true, PayLog(txHash))];
    assert logs[1..] == [];
    assert ScanLogs(db, 0, ASSET, logs[1..]) == Clean(false, []);
    assert !RecordedFor(db.transfers, txHash, 0, 0);
  }

  lemma OneLogTotal(txHash: Hash)
    ensures Total([PayLog(txHash)]) == 101 && RowsFor(0, STORE, [PayLog(txHash)]) == [RowFor(0, STORE, PayLog(txHash))]
  {
    assert [PayLog(txHash)][1..] == [];
  }

  /** One late-paid order with its one payment recorded. */
  ghost predicate LatePaidRow(db: Db) {
    && |db.transfers| == 1 && db.transfers[0].txHash == PAYMENT && db.transfers[0].orderId == 0 && db.transfers[0].amount == 101
    && |db.orders| == 1 && db.orders[0].channel == Web && db.orders[0].status == LatePaid
    && db.orders[0].payTo == STORE && db.orders[0].createdBlock.None?
    && db.orders[0].expected == db.orders[0].paid == 101
  }

  /** The order expires and a shallow payment arrives in its quarantine. */
  lemma LatePaidOnce() returns (expired: Db, late: Db)
    ensures expired == Step(Step(EMPTY, CREATE), Expiry(LATE)) && late == Step(expired, Submit(0, PAYMENT, Shallow(PAYMENT), LATE))
    ensures expired.orders == [WEB_ORDER.(status := Expired)]
    ensures LatePaidRow(late)
  {
    var created := Created();
    expired := Step(created, Expiry(LATE));
    assert expired.orders == [WEB_ORDER.(status := Expired)];
    assert expired.transfers == [];
    ScanOne(expired, PAYMENT);
    OneLogTotal(PAYMENT);
    late := Step(expired, Submit(0, PAYMENT, Shallow(PAYMENT), LATE));
  }

  /** A shallow payment that meets a late-paid order leaves the row as it is. */
  lemma ShallowLateUntouched(db: Db, i: nat, added: nat, block: int, from: Address, txHash: Hash, head: int, now: Time)
    requires i < |db.orders| && db.orders[i].status == LatePaid && db.orders[i].paid + added >= db.orders[i].expected
    requires !Deep(head, block)
    ensures DriveState(db, i, added, block, from, txHash, head, now) == db
  {
    assert db.orders[i := db.orders[i]] == db.orders;
  }

  /** A second exact payment submitted to the late-paid order is recorded and adds nothing. */
  lemma PaidAgain(late: Db, o: Order, t: Hash, v: ChainView, now: Time)
    requires late.orders == [o] && o.status == LatePaid && o.expected == 101 && o.paid >= 0 && o.payTo == STORE
    requires Gate(o, v, now).None? && v == Shallow(t)
    requires ScanLogs(late, 0, ASSET, v.receipt.value.logs) == Clean(true, [PayLog(t)])
    ensures VerifyTx(late, 0, t, v, now) == (late.(transfers := late.transfers + [RowFor(0, STORE, PayLog(t))]), Applied)
  {
    OneLogTotal(t);
    var recorded := late.(transfers := late.transfers + [RowFor(0, STORE, PayLog(t))]);
    ShallowLateUntouched(recorded, 0, 101, 50, BUYER, t, 51, now);
  }

  lemma SubmitsAgain(late: Db, t: Hash, now: Time)
    requires LatePaidRow(late) && t != PAYMENT
    ensures Step(late, Submit(0, t, Shallow(t), now)) == late.(transfers := late.transfers + [RowFor(0, STORE, PayLog(t))])
  {
    var o := late.orders[0];
    assert !Recorded(late.transfers, t, 0) && !AgentSettled(late.orders, t);
    ScanOne(late, t);
    assert Gate(o, Shallow(t), now).None?;
    PaidAgain(late, o, t, Shallow(t), now);
  }

  lemma ReceivedTwice(ts: seq<Transfer>)
    requires |ts| == 2 && ts[0].orderId == ts[1].orderId == 0 && ts[0].amount == ts[1].amount == 101
    ensures Received(ts, 0) == 202
  {
    assert ts[1..][1..] == [];
    assert Received(ts[1..], 0) == 101;
  }

  lemma LeakCount(acts: seq<Action>, db: Db)
    requires AllLegal(acts) && db == Run(EMPTY, acts) && |db.orders| == 1 && db.orders[0].channel == Web
    requires db.orders[0].expected == db.orders[0].paid == 101 && Received(db.transfers, 0) == 202
    ensures Leaks(EMPTY, acts, 0) == 1
  {
    Conservation(acts, 0);
  }

  lemma TwoMore(acts: seq<Action>, mid: Db, a: Action, b: Action)
    requires mid == Run(EMPTY, acts)
    ensures Run(EMPTY, acts + [a, b]) == Step(Step(mid, a), b)
  {
    RunConcat(EMPTY, acts, [a, b]);
    RunTwo(mid, a, b);
  }

  lemma LeakRun(first: seq<Action>, expired: Db, late: Db, a: Action, b: Action) returns (acts: seq<Action>, db: Db)
    requires AllLegal(first) && expired == Run(EMPTY, first) && Legal(a) && late == Step(expired, a) && LatePaidRow(late)
    requires b == Submit(0, SECOND, Shallow(SECOND), LATE)
    ensures AllLegal(acts) && db == Run(EMPTY, acts) && Leaks(EMPTY, acts, 0) == 1
    ensures |db.orders| == 1 && db.orders[0].channel == Web && db.orders[0].status == LatePaid
    ensures db.orders[0].paid == db.orders[0].expected && Received(db.transfers, 0) == 2 * db.orders[0].paid
  {
    SubmitsAgain(late, SECOND, LATE);
    acts := first + [a, b];
    TwoMore(first, expired, a, b);
    db := Step(late, b);
    ReceivedTwice(db.transfers);
    LeakCount(acts, db);
  }

  /** Received can exceed credited: a run from the empty tables with one leak. */
  lemma LatePaymentLeaks() returns (acts: seq<Action>, db: Db)
    ensures AllLegal(acts) && db == Run(EMPTY, acts) && Leaks(EMPTY, acts, 0) == 1
    ensures |db.orders| == 1 && db.orders[0].channel == Web && db.orders[0].status == LatePaid
    ensures db.orders[0].paid == db.orders[0].expected && Received(db.transfers, 0) == 2 * db.orders[0].paid
  {
    var expired, late := LatePaidOnce();
    RunTwo(EMPTY, CREATE, Expiry(LATE));
    acts, db := LeakRun([CREATE, Expiry(LATE)], expired, late, Submit(0, PAYMENT, Shallow(PAYMENT), LATE), Submit(0, SECOND, Shallow(SECOND), LATE));
  }
}
