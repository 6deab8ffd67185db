/** What each checkout commit answers and writes, told from the row, the chain and the clock alone:
    when a payment is taken and when it is refused, and what becomes of every row. */
module CheckoutOutcomes {
  import opened Prelude
  import opened CheckoutLedger
  import opened CheckoutInvariant
  import opened CheckoutSteps
  import opened CheckoutRuns

  /** The row once a payment of the amount due is credited to it. A late-paid row takes no second
      one: it is only delivered, when the payment is deep; an agent's row is left alone. */
  ghost function CreditedRow(o: Order, added: int, block: int, from: Address, txHash: Hash, head: int, now: Time): Order {
    var deep := head - block >= CONFIRMATIONS;
    var credited := o.(paid := o.paid + added, block := Some(block), fromAddr := Some(from), txHash := Some(txHash),
                       over := if o.status == Expired then o.over else o.paid + added - o.expected);
    if o.status == LatePaid then (if deep then o.(status := Delivered, paidAt := Some(now)) else o)
    else if o.status == Pending || o.status == Detected || o.status == Underpaid || o.status == Expired then
      if deep then credited.(status := Delivered, paidAt := Some(now))
      else credited.(status := if o.status == Expired then LatePaid else Detected)
    else o
  }

  /** What a delivery fires; an agent's sale fires when it is settled. */
  ghost function SaleOf(i: nat): multiset<Effect> {
    multiset{OrderPaid(i), OrderDelivered(i), Accrual(i)}
  }

  /** Crediting i, with these transfers recorded first: its row, and the sale if that delivers it. */
  ghost predicate CreditedOnce(db: Db, db': Db, i: nat, row: Order, payments: seq<Log>)
    requires i < |db.orders|
  {
    && db'.orders == db.orders[i := row]
    && db'.transfers == db.transfers + seq(|payments|, k requires 0 <= k < |payments| =>
         Transfer(payments[k].txHash, payments[k].logIndex, i, db.orders[i].payTo, payments[k].from, payments[k].value, payments[k].block))
    && db'.effects == (if db.orders[i].status != Delivered && row.status == Delivered then db.effects + SaleOf(i) else db.effects)
    && db'.deliverables == db.deliverables && db'.cursors == db.cursors
  }

  lemma DeliveredRow(db: Db, i: nat, now: Time)
    requires i < |db.orders| && (db.orders[i].status in READY_TO_DELIVER ==> db.orders[i].channel == Web)
    ensures var o, db' := db.orders[i], Deliver(db, i, now);
            if o.status == Confirmed || o.status == Overpaid || o.status == LatePaid
            then && db'.orders == db.orders[i := o.(status := Delivered, paidAt := Some(now))] && db'.effects == db.effects + SaleOf(i)
                 && db'.transfers == db.transfers && db'.deliverables == db.deliverables && db'.cursors == db.cursors
            else db' == db
  {
  }

  /** A late payment, or one that is not deep yet. */
  lemma MovedRow(db: Db, i: nat, from: set<Status>, to: Status, f: Fields)
    requires i < |db.orders|
    ensures Transitioned(db, i, from, to, f) == if db.orders[i].status in from then db.(orders := db.orders[i := Written(db.orders[i], to, f)]) else db
  {
    assert db.orders[i := db.orders[i]] == db.orders;
  }

  lemma {:induction false} MovedThenDelivered(db: Db, i: nat, from: set<Status>, to: Status, f: Fields, deep: bool, now: Time)
    requires i < |db.orders| && db.orders[i].status in from && db.orders[i].status != Delivered && to != Delivered
    requires to in READY_TO_DELIVER ==> db.orders[i].channel == Web
    ensures var moved := Transitioned(db, i, from, to, f);
            var row := Written(db.orders[i], to, f);
            CreditedOnce(db, if deep then Deliver(moved, i, now) else moved, i,
                         if deep && to in READY_TO_DELIVER then row.(status := Delivered, paidAt := Some(now)) else row, [])
  {
    var moved := Transitioned(db, i, from, to, f);
    MovedRow(db, i, from, to, f);
    DeliveredRow(moved, i, now);
  }

  lemma {:induction false} LateRow(db: Db, i: nat, block: int, from: Address, txHash: Hash, head: int, now: Time)
    requires i < |db.orders| && db.orders[i].status == Expired && db.orders[i].channel == Web
    ensures var o := db.orders[i];
            CreditedOnce(db, DriveState(db, i, o.expected, block, from, txHash, head, now), i,
                         CreditedRow(o, o.expected, block, from, txHash, head, now), [])
  {
    var o := db.orders[i];
    DriveStateSteps(db, i, o.expected, block, from, txHash, head, now);
    MovedThenDelivered(db, i, {Expired}, LatePaid, CreditFields(o, o.expected, block, from, txHash), Deep(head, block), now);
  }

  lemma {:induction false} InFlightRow(db: Db, i: nat, block: int, from: Address, txHash: Hash, head: int, now: Time)
    requires i < |db.orders| && db.orders[i].status in {Pending, Detected} && db.orders[i].channel == Web && db.orders[i].paid >= 0
    ensures var o := db.orders[i];
            CreditedOnce(db, DriveState(db, i, o.expected, block, from, txHash, head, now), i,
                         CreditedRow(o, o.expected, block, from, txHash, head, now), [])
  {
    var o, deep := db.orders[i], Deep(head, block);
    var over := o.paid + o.expected - o.expected;
    var to := if !deep then Detected else if over > 0 then Overpaid else Confirmed;
    var f := CreditFields(o, o.expected, block, from, txHash).(over := Some(over));
    DriveStateSteps(db, i, o.expected, block, from, txHash, head, now);
    MovedThenDelivered(db, i, IN_FLIGHT, to, f, deep, now);
    InFlightCredit(o, to, f, deep, block, from, txHash, head, now);
  }

  lemma InFlightCredit(o: Order, to: Status, f: Fields, deep: bool, block: int, from: Address, txHash: Hash, head: int, now: Time)
    requires o.status in {Pending, Detected} && deep == Deep(head, block)
    requires f == CreditFields(o, o.expected, block, from, txHash).(over := Some(o.paid))
    requires if deep then to == Overpaid || to == Confirmed else to == Detected
    ensures CreditedRow(o, o.expected, block, from, txHash, head, now)
         == if deep then Written(o, to, f).(status := Delivered, paidAt := Some(now)) else Written(o, to, f)
  {
  }

  /** A late-paid row is not written again, and an agent's provisional row not at all. */
  lemma {:induction false} UnguardedRow(db: Db, i: nat, block: int, from: Address, txHash: Hash, head: int, now: Time)
    requires i < |db.orders| && db.orders[i].paid >= 0
    requires (db.orders[i].status == LatePaid && db.orders[i].channel == Web) || db.orders[i].status == Settling
    ensures var o := db.orders[i];
            CreditedOnce(db, DriveState(db, i, o.expected, block, from, txHash, head, now), i,
                         CreditedRow(o, o.expected, block, from, txHash, head, now), [])
  {
    var o := db.orders[i];
    var over := o.paid + o.expected - o.expected;
    var to := if !Deep(head, block) then Detected else if over > 0 then Overpaid else Confirmed;
    DriveStateSteps(db, i, o.expected, block, from, txHash, head, now);
    MovedRow(db, i, IN_FLIGHT, to, CreditFields(o, o.expected, block, from, txHash).(over := Some(over)));
    DeliveredRow(db, i, now);
    assert db.orders[i := o] == db.orders;
  }

  lemma {:induction false} DriveRow(db: Db, i: nat, block: int, from: Address, txHash: Hash, head: int, now: Time)
    requires i < |db.orders| && Creditable(db.orders[i]) && db.orders[i].paid >= 0
    requires db.orders[i].status == Settling || db.orders[i].channel == Web
    ensures var o := db.orders[i];
            CreditedOnce(db, DriveState(db, i, o.expected, block, from, txHash, head, now), i,
                         CreditedRow(o, o.expected, block, from, txHash, head, now), [])
  {
    var o := db.orders[i];
    if o.status == Expired {
      LateRow(db, i, block, from, txHash, head, now);
    } else if o.status == Pending || o.status == Detected {
      InFlightRow(db, i, block, from, txHash, head, now);
    } else {
      UnguardedRow(db, i, block, from, txHash, head, now);
    }
  }

  lemma CreditableRow(db: Db, i: nat)
    requires Inv(db) && i < |db.orders| && Creditable(db.orders[i])
    ensures db.orders[i].paid >= 0 && (db.orders[i].status == Settling || db.orders[i].channel == Web)
    ensures db.orders[i].status == Settling ==> db.orders[i].channel == Agent
  {
    assert Ok(ViewOf(db, i));
  }

  lemma RecordedFirst(db: Db, db': Db, i: nat, row: Order, payments: seq<Log>)
    requires i < |db.orders|
    requires CreditedOnce(db.(transfers := db.transfers + RowsFor(i, db.orders[i].payTo, payments)), db', i, row, [])
    ensures CreditedOnce(db, db', i, row, payments)
  {
  }

  // ------------------------------------------------------------ a swept log

  /** The order is waiting for exactly this transfer. */
  ghost predicate Awaits(o: Order, network: Network, l: Log, now: Time) {
    && o.network == network && o.payTo == l.to && o.expected == l.value
    && (o.status == Pending || o.status == Detected || o.status == Underpaid ||
        (o.status == Expired && now < o.expiresAt.GetOr(o.createdAt) + QUARANTINE))
  }

  ghost predicate Unawaited(orders: seq<Order>, network: Network, l: Log, now: Time) {
    forall i :: 0 <= i < |orders| ==> !Awaits(orders[i], network, l, now)
  }

  /** A log credits the one order that waits for it, unless it was recorded before or an agent order
      names its transaction; and any other log changes nothing. */
  lemma {:induction false} SweptLogOutcome(db: Db, network: Network, l: Log, head: int, now: Time)
    requires Inv(db)
    ensures var db' := ProcessLog(db, network, l, head, now);
            && (forall i :: 0 <= i < |db.orders| && Awaits(db.orders[i], network, l, now) &&
                            !Recorded(db.transfers, l.txHash, l.logIndex) && !AgentSettled(db.orders, l.txHash) ==>
                  CreditedOnce(db, db', i, CreditedRow(db.orders[i], l.value, l.block, l.from, l.txHash, head, now), [l]))
            && (Recorded(db.transfers, l.txHash, l.logIndex) || AgentSettled(db.orders, l.txHash) || Unawaited(db.orders, network, l, now) ==>
                  db' == db)
  {
    MatchFacts(db.orders, network, l.to, l.value, now);
    ProcessLogOk(db, network, l, head, now);
    var db' := ProcessLog(db, network, l, head, now);
    forall i | 0 <= i < |db.orders| && Awaits(db.orders[i], network, l, now) &&
               !Recorded(db.transfers, l.txHash, l.logIndex) && !AgentSettled(db.orders, l.txHash)
      ensures CreditedOnce(db, db', i, CreditedRow(db.orders[i], l.value, l.block, l.from, l.txHash, head, now), [l])
    {
      assert Matchable(db.orders[i], network, l.to, l.value, now);
      MatchIsUnique(db.orders, network, l.to, l.value, now, i);
      MatchedOutcome(db, network, l, head, now, i);
    }
    if MatchOrder(db.orders, network, l.to, l.value, now).Some? {
      assert Awaits(db.orders[MatchOrder(db.orders, network, l.to, l.value, now).value], network, l, now);
    }
  }

  lemma {:induction false} MatchedOutcome(db: Db, network: Network, l: Log, head: int, now: Time, i: nat)
    requires Inv(db) && i < |db.orders| && Awaits(db.orders[i], network, l, now)
    requires !Recorded(db.transfers, l.txHash, l.logIndex) && !AgentSettled(db.orders, l.txHash)
    requires MatchOrder(db.orders, network, l.to, l.value, now) == Some(i)
    ensures CreditedOnce(db, ProcessLog(db, network, l, head, now), i,
                         CreditedRow(db.orders[i], l.value, l.block, l.from, l.txHash, head, now), [l])
  {
    ProcessLogOk(db, network, l, head, now);
    CreditableRow(db, i);
    var recorded := db.(transfers := db.transfers + [RowFor(i, db.orders[i].payTo, l)]);
    assert RowsFor(i, db.orders[i].payTo, [l]) == [RowFor(i, db.orders[i].payTo, l)];
    DriveRow(recorded, i, l.block, l.from, l.txHash, head, now);
    RecordedFirst(db, ProcessLog(db, network, l, head, now), i, CreditedRow(db.orders[i], l.value, l.block, l.from, l.txHash, head, now), [l]);
  }

  // ------------------------------------------------------------ a submitted transaction

  /** A receipt log that moves the chain's asset to the order's address. */
  ghost predicate Pays(o: Order, asset: Address, r: RawLog) {
    r.asset == asset && r.isTransfer && r.log.to == o.payTo
  }

  ghost predicate TooOld(o: Order, l: Log) {
    o.createdBlock.Some? && l.block < o.createdBlock.value
  }

  /** A transfer that spoils the submission: older than the order, or spent elsewhere: recorded, but
      not for this order, or, unless the order is an agent's, naming an agent's settlement. */
  ghost predicate Spoils(db: Db, i: nat, l: Log)
    requires i < |db.orders|
  {
    || TooOld(db.orders[i], l)
    || (!RecordedFor(db.transfers, l.txHash, l.logIndex, i) &&
        (Recorded(db.transfers, l.txHash, l.logIndex) || (db.orders[i].channel != Agent && AgentSettled(db.orders, l.txHash))))
  }

  ghost predicate SpoiledAt(db: Db, i: nat, asset: Address, logs: seq<RawLog>, k: nat)
    requires i < |db.orders|
  {
    k < |logs| && Pays(db.orders[i], asset, logs[k]) && Spoils(db, i, logs[k].log)
  }

  ghost predicate Unspoiled(db: Db, i: nat, asset: Address, logs: seq<RawLog>)
    requires i < |db.orders|
  {
    forall k: nat :: !SpoiledAt(db, i, asset, logs, k)
  }

  /** The payments of a receipt that no order has been credited with, in order. */
  ghost function NewPayments(db: Db, i: nat, asset: Address, logs: seq<RawLog>): seq<Log>
    requires i < |db.orders|
  {
    if logs == [] then []
    else
      var l := logs[0].log;
      (if Pays(db.orders[i], asset, logs[0]) && !Recorded(db.transfers, l.txHash, l.logIndex) then [l] else [])
      + NewPayments(db, i, asset, logs[1..])
  }

  ghost predicate SomePayment(o: Order, asset: Address, logs: seq<RawLog>) {
    exists k :: 0 <= k < |logs| && Pays(o, asset, logs[k])
  }

  lemma {:induction false} CleanScan(db: Db, i: nat, asset: Address, logs: seq<RawLog>)
    requires i < |db.orders| && Unspoiled(db, i, asset, logs)
    ensures ScanLogs(db, i, asset, logs) == Clean(SomePayment(db.orders[i], asset, logs), NewPayments(db, i, asset, logs))
  {
    if logs != [] {
      forall k: nat
        ensures !SpoiledAt(db, i, asset, logs[1..], k)
      {
        assert k + 1 < |logs| ==> logs[k + 1] == logs[1..][k];
        assert !SpoiledAt(db, i, asset, logs, k + 1);
      }
      CleanScan(db, i, asset, logs[1..]);
      assert !SpoiledAt(db, i, asset, logs, 0);
      SomePaymentFrom(db.orders[i], asset, logs);
    }
  }

  lemma SomePaymentFrom(o: Order, asset: Address, logs: seq<RawLog>)
    requires logs != []
    ensures SomePayment(o, asset, logs) <==> Pays(o, asset, logs[0]) || SomePayment(o, asset, logs[1..])
  {
    if SomePayment(o, asset, logs[1..]) {
      var k :| 0 <= k < |logs[1..]| && Pays(o, asset, logs[1..][k]);
      assert Pays(o, asset, logs[k + 1]);
    }
    if SomePayment(o, asset, logs) {
      var k :| 0 <= k < |logs| && Pays(o, asset, logs[k]);
      assert k > 0 ==> logs[k] == logs[1..][k - 1];
    }
  }

  /** The first spoiling transfer gives the reason. */
  lemma {:induction false} SpoiledScan(db: Db, i: nat, asset: Address, logs: seq<RawLog>, k: nat)
    requires i < |db.orders| && SpoiledAt(db, i, asset, logs, k) && forall j: nat :: j < k ==> !SpoiledAt(db, i, asset, logs, j)
    ensures ScanLogs(db, i, asset, logs) == Bad(if TooOld(db.orders[i], logs[k].log) then Predates else AlreadyUsed)
    decreases k
  {
    if k > 0 {
      assert !SpoiledAt(db, i, asset, logs, 0);
      assert logs[1..][k - 1] == logs[k];
      forall j: nat | j < k - 1
        ensures !SpoiledAt(db, i, asset, logs[1..], j)
      {
        assert logs[1..][j] == logs[j + 1] && !SpoiledAt(db, i, asset, logs, j + 1);
      }
      SpoiledScan(db, i, asset, logs[1..], k - 1);
    }
  }

  /** The order still takes payments. */
  ghost predicate TakesPayments(o: Order, now: Time) {
    && o.status != Delivered && o.status != Paid && o.status != Refunded && o.status != Canceled && o.status != Reorged
    && (o.status == Expired ==> now < o.expiresAt.GetOr(o.createdAt) + QUARANTINE)
  }

  ghost predicate Readable(v: ChainView) {
    v.asset.Some? && v.receipt.Some? && v.receipt.value.succeeded
  }

  /** New payments that make up exactly the amount due. */
  ghost predicate PaysInFull(db: Db, i: nat, v: ChainView)
    requires i < |db.orders| && Readable(v)
  {
    var unspent := NewPayments(db, i, v.asset.value, v.receipt.value.logs);
    unspent != [] && Total(unspent) == db.orders[i].expected && DistinctKeys(unspent)
  }

  /** A submission is applied if and only if the order still takes payments, the chain answers, the
      receipt succeeded and no payment in it is spoiled, and the new ones make up the amount due. */
  lemma {:induction false} SubmitAppliedIff(db: Db, i: nat, txHash: Hash, v: ChainView, now: Time)
    requires i < |db.orders|
    ensures VerifyTx(db, i, txHash, v, now).1 == Applied <==>
              && TakesPayments(db.orders[i], now) && Readable(v) && v.head.Some?
              && Unspoiled(db, i, v.asset.value, v.receipt.value.logs) && PaysInFull(db, i, v)
  {
    if TakesPayments(db.orders[i], now) && Readable(v) {
      var logs := v.receipt.value.logs;
      if Unspoiled(db, i, v.asset.value, logs) {
        CleanScan(db, i, v.asset.value, logs);
        PaymentsAreSome(db, i, v.asset.value, logs);
      } else {
        var k := FirstSpoiled(db, i, v.asset.value, logs);
        SpoiledScan(db, i, v.asset.value, logs, k);
      }
    }
  }

  lemma {:induction false} PaymentsAreSome(db: Db, i: nat, asset: Address, logs: seq<RawLog>)
    requires i < |db.orders|
    ensures NewPayments(db, i, asset, logs) != [] ==> SomePayment(db.orders[i], asset, logs)
  {
    if logs != [] {
      PaymentsAreSome(db, i, asset, logs[1..]);
      SomePaymentFrom(db.orders[i], asset, logs);
    }
  }

  lemma FirstSpoiled(db: Db, i: nat, asset: Address, logs: seq<RawLog>) returns (k: nat)
    requires i < |db.orders| && !Unspoiled(db, i, asset, logs)
    ensures SpoiledAt(db, i, asset, logs, k) && forall j: nat :: j < k ==> !SpoiledAt(db, i, asset, logs, j)
  {
    var j: nat :| SpoiledAt(db, i, asset, logs, j);
    k := SpoiledUpTo(db, i, asset, logs, j);
  }

  lemma SpoiledUpTo(db: Db, i: nat, asset: Address, logs: seq<RawLog>, n: nat) returns (k: nat)
    requires i < |db.orders| && SpoiledAt(db, i, asset, logs, n)
    ensures SpoiledAt(db, i, asset, logs, k) && forall j: nat :: j < k ==> !SpoiledAt(db, i, asset, logs, j)
    decreases n
  {
    k := n;
    if j: nat :| j < n && SpoiledAt(db, i, asset, logs, j) {
      k := SpoiledUpTo(db, i, asset, logs, j);
    }
  }

  /** And what each refusal says, in the order the conditions are looked at. */
  lemma {:induction false} SubmitRefusals(db: Db, i: nat, txHash: Hash, v: ChainView, now: Time)
    requires i < |db.orders|
    ensures var o := db.orders[i];
            var (db', verdict) := VerifyTx(db, i, txHash, v, now);
            && (verdict != Applied ==> db' == db)
            && (o.status == Delivered || o.status == Paid || o.status == Refunded ==> verdict == Ignored)
            && (o.status == Canceled || o.status == Reorged ==> verdict == Rejected(NotActive))
            && (o.status == Expired && now >= o.expiresAt.GetOr(o.createdAt) + QUARANTINE ==> verdict == Rejected(WindowClosed))
            && (TakesPayments(o, now) ==>
                  && (v.asset.None? ==> verdict == Rejected(ChainUnavailable))
                  && (v.asset.Some? && v.receipt.None? ==> verdict == Rejected(NotFound))
                  && (v.asset.Some? && v.receipt.Some? && !v.receipt.value.succeeded ==> verdict == Rejected(Failed)))
  {
  }

  /** The refusals that depend on the receipt's logs. */
  lemma {:induction false} SubmitLogRefusals(db: Db, i: nat, txHash: Hash, v: ChainView, now: Time)
    requires i < |db.orders| && TakesPayments(db.orders[i], now) && Readable(v)
    ensures var o, asset, logs := db.orders[i], v.asset.value, v.receipt.value.logs;
            var verdict := VerifyTx(db, i, txHash, v, now).1;
            var unspent := NewPayments(db, i, asset, logs);
            && (forall k: nat :: SpoiledAt(db, i, asset, logs, k) && (forall j: nat :: j < k ==> !SpoiledAt(db, i, asset, logs, j)) ==>
                  verdict == Rejected(if TooOld(o, logs[k].log) then Predates else AlreadyUsed))
            && (Unspoiled(db, i, asset, logs) ==>
                  && (!SomePayment(o, asset, logs) ==> verdict == Rejected(NoTransfer))
                  && (SomePayment(o, asset, logs) && unspent == [] ==> verdict == Ignored)
                  && (unspent != [] && Total(unspent) != o.expected ==> verdict == Rejected(WrongTotal))
                  && (unspent != [] && Total(unspent) == o.expected && v.head.None? ==> verdict == Rejected(ChainUnavailable))
                  && (unspent != [] && Total(unspent) == o.expected && v.head.Some? && !DistinctKeys(unspent) ==> verdict == Rejected(DuplicateKey)))
  {
    var asset, logs := v.asset.value, v.receipt.value.logs;
    if Unspoiled(db, i, asset, logs) {
      CleanScan(db, i, asset, logs);
      PaymentsAreSome(db, i, asset, logs);
    }
    forall k: nat | SpoiledAt(db, i, asset, logs, k) && (forall j: nat :: j < k ==> !SpoiledAt(db, i, asset, logs, j))
      ensures VerifyTx(db, i, txHash, v, now).1 == Rejected(if TooOld(db.orders[i], logs[k].log) then Predates else AlreadyUsed)
    {
      SpoiledScan(db, i, asset, logs, k);
    }
  }

  /** An applied submission records exactly the new payments and credits the row with their total. */
  lemma {:induction false} SubmitOutcome(db: Db, i: nat, txHash: Hash, v: ChainView, now: Time)
    requires Inv(db) && i < |db.orders| && TakesPayments(db.orders[i], now) && Readable(v) && v.head.Some?
    requires Unspoiled(db, i, v.asset.value, v.receipt.value.logs) && PaysInFull(db, i, v)
    ensures var o, unspent := db.orders[i], NewPayments(db, i, v.asset.value, v.receipt.value.logs);
            var (db', verdict) := VerifyTx(db, i, txHash, v, now);
            && verdict == Applied
            && CreditedOnce(db, db', i, CreditedRow(o, o.expected, unspent[0].block, unspent[0].from, txHash, v.head.value, now), unspent)
  {
    SubmitAppliedIff(db, i, txHash, v, now);
    CleanScan(db, i, v.asset.value, v.receipt.value.logs);
    var unspent := NewPayments(db, i, v.asset.value, v.receipt.value.logs);
    var o := db.orders[i];
    AcceptedMeans(db, i, txHash, v, now);
    GateLeavesCreditable(db, i, v, now);
    CreditableRow(db, i);
    var recorded := db.(transfers := db.transfers + RowsFor(i, o.payTo, unspent));
    DriveRow(recorded, i, unspent[0].block, unspent[0].from, txHash, v.head.value, now);
    RecordedFirst(db, VerifyTx(db, i, txHash, v, now).0, i, CreditedRow(o, o.expected, unspent[0].block, unspent[0].from, txHash, v.head.value, now), unspent);
  }

  // ------------------------------------------------------------ re-checks

  /** The receipt still shows the payment where the order recorded it. */
  ghost predicate StillThere(o: Order, asset: Address, receipt: Option<Receipt>) {
    && receipt.Some? && receipt.value.succeeded
    && receipt.value.block.Some? && receipt.value.block == o.block
    && exists k :: 0 <= k < |receipt.value.logs| && Pays(o, asset, receipt.value.logs[k])
  }

  /** The row after a re-check: delivered, or given up as reorganised away; a row that is not shallow
      credit, or not deep enough yet, is left. */
  ghost function RecheckedRow(o: Order, asset: Option<Address>, receipt: Option<Receipt>, head: int, now: Time): Order {
    if !(o.status == Detected || o.status == LatePaid) || asset.None? || o.block.None? || head - o.block.value < CONFIRMATIONS then o
    else if StillThere(o, asset.value, receipt) then o.(status := Delivered, paidAt := Some(now))
    else o.(status := Reorged)
  }

  lemma StillThereIs(o: Order, asset: Address, receipt: Option<Receipt>)
    ensures StillThere(o, asset, receipt) <==> ReceiptStillValid(o, asset, receipt)
  {
    if receipt.Some? {
      forall k | 0 <= k < |receipt.value.logs|
        ensures Pays(o, asset, receipt.value.logs[k]) <==> Relevant(o, asset, receipt.value.logs[k])
      {
      }
    }
  }

  /** A poll touches its own row only: a pending one expires once its window is over, and shallow
      credit is re-checked once it is deep. */
  lemma {:induction false} PollOutcome(db: Db, i: nat, v: ChainView, now: Time)
    requires Inv(db) && i < |db.orders|
    ensures var o := db.orders[i];
            Step(db, Poll(i, v, now)).orders ==
              db.orders[i := if o.status == Pending
                             then (if now > o.expiresAt.GetOr(o.createdAt + ORDER_TTL) then o.(status := Expired) else o)
                             else if v.head.None? then o else RecheckedRow(o, v.asset, v.receipt, v.head.value, now)]
  {
    var o, db' := db.orders[i], Step(db, Poll(i, v, now));
    RefreshOk(db, i, v, now);
    forall j | 0 <= j < |db.orders| && j != i
      ensures db'.orders[j] == db.orders[j]
    {
      assert ViewOf(db', j) == ViewOf(db, j);
    }
    PolledRow(db, i, v, now);
  }

  lemma {:induction false} PolledRow(db: Db, i: nat, v: ChainView, now: Time)
    requires Inv(db) && i < |db.orders|
    ensures var o, db' := db.orders[i], Refresh(db, i, v, now);
            && |db'.orders| == |db.orders|
            && db'.orders[i] == if o.status == Pending
                                then (if now > o.expiresAt.GetOr(o.createdAt + ORDER_TTL) then o.(status := Expired) else o)
                                else if v.head.None? then o else RecheckedRow(o, v.asset, v.receipt, v.head.value, now)
  {
    var o := db.orders[i];
    RefreshOk(db, i, v, now);
    if o.status != Pending && v.asset.Some? && v.head.Some? && Matured(o, v.head.value) {
      StillThereIs(o, v.asset.value, v.receipt);
      if ReceiptStillValid(o, v.asset.value, v.receipt) {
        PromoteOk(db, i, now);
      } else {
        MarkReorgedOk(db, i, now);
      }
    }
  }

  /** The promotion pass re-checks every row of its chain on its own, and leaves the others. */
  lemma {:induction false} MatureOutcome(db: Db, network: Network, asset: Option<Address>, head: int, receipts: Receipts, now: Time, i: nat)
    requires Inv(db) && i < |db.orders|
    ensures var o, db' := db.orders[i], Step(db, Mature(network, asset, head, receipts, now));
            && |db'.orders| == |db.orders|
            && db'.orders[i] == if o.network != network then o
                                else RecheckedRow(o, asset, if o.txHash.Some? && o.txHash.value in receipts then Some(receipts[o.txHash.value]) else None, head, now)
  {
    PromoteMaturedOk(db, network, asset, head, receipts, now);
    var o := db.orders[i];
    if asset.Some? {
      StillThereIs(o, asset.value, ReceiptOf(o, receipts));
    }
  }

  // ------------------------------------------------------------ deadlines

  /** Maintenance moves a row by its deadlines alone: out of its payment window it expires, and out of
      quarantine it is released, at once if both are over. Nothing else in the tables changes. */
  lemma ExpiryOutcome(db: Db, now: Time)
    ensures var db' := Step(db, Expiry(now));
            && db' == db.(orders := db'.orders) && |db'.orders| == |db.orders|
            && forall i :: 0 <= i < |db.orders| ==>
                 var o := db.orders[i];
                 var over := o.status == Expired ||
                             ((o.status == Pending || o.status == Underpaid) && now > o.expiresAt.GetOr(o.createdAt + ORDER_TTL));
                 db'.orders[i] == if !over then o
                                  else if now >= o.expiresAt.GetOr(o.createdAt) + QUARANTINE then o.(status := Canceled)
                                  else o.(status := Expired)
  {
  }

  // ------------------------------------------------------------ creation

  /** No order at this address and amount is in the way: none that is still to be paid or delivered,
      and none that was delivered or refunded within the cooldown. */
  ghost predicate Usable(orders: seq<Order>, payTo: Address, amount: int, now: Time) {
    forall k :: 0 <= k < |orders| && orders[k].payTo == payTo && orders[k].expected == amount ==>
      && orders[k].status !in {Pending, Detected, Underpaid, Expired, LatePaid, Confirmed, Overpaid}
      && (orders[k].status in {Delivered, Paid, Refunded} ==> orders[k].paidAt.GetOr(orders[k].createdAt) + QUARANTINE <= now)
  }

  lemma UsableIs(orders: seq<Order>, c: Cart, draw: int, now: Time)
    ensures DrawWorks(orders, c, draw, now) <==> Usable(orders, c.payTo, c.base + draw, now)
  {
    var amount := c.base + draw;
    if Usable(orders, c.payTo, amount, now) {
      forall k | 0 <= k < |orders| && SameAmount(orders[k], c.payTo, amount)
        ensures !HoldsAmount(orders[k], now) && orders[k].status !in RESERVED
      {
      }
    }
    if DrawWorks(orders, c, draw, now) {
      forall k | 0 <= k < |orders| && orders[k].payTo == c.payTo && orders[k].expected == amount
        ensures orders[k].status !in {Pending, Detected, Underpaid, Expired, LatePaid, Confirmed, Overpaid}
        ensures orders[k].status in {Delivered, Paid, Refunded} ==> orders[k].paidAt.GetOr(orders[k].createdAt) + QUARANTINE <= now
      {
        assert SameAmount(orders[k], c.payTo, amount);
        assert !HoldsAmount(orders[k], now) && orders[k].status !in RESERVED;
      }
    }
  }

  /** The row of a new web order: the base price and the drawn offset to pay, until the deadline. */
  ghost function FreshRow(c: Cart, draw: int, now: Time): Order {
    Order(storeId := c.storeId, productId := Some(c.productId), network := c.network, payTo := c.payTo,
          amount := c.base, expected := c.base + draw, paid := 0, over := 0, refunded := 0,
          status := Pending, channel := Web, nonce := None, txHash := None, settleRef := None, fromAddr := None,
          block := None, createdBlock := c.createdBlock, createdAt := now, expiresAt := Some(now + ORDER_TTL), paidAt := None)
  }

  /** The k-th draw is usable, and none before it is. */
  ghost predicate FirstUsable(orders: seq<Order>, c: Cart, draws: seq<int>, now: Time, k: nat) {
    && k < |draws| && Usable(orders, c.payTo, c.base + draws[k], now)
    && forall j :: 0 <= j < k ==> !Usable(orders, c.payTo, c.base + draws[j], now)
  }

  ghost predicate NoneUsable(orders: seq<Order>, c: Cart, draws: seq<int>, now: Time) {
    forall k :: 0 <= k < |draws| ==> !Usable(orders, c.payTo, c.base + draws[k], now)
  }

  /** Creation appends one row with the first usable draw. */
  lemma {:induction false} CreateOutcome(db: Db, c: Cart, draws: seq<int>, now: Time, k: nat)
    requires FirstUsable(db.orders, c, draws, now, k)
    ensures CreateOrder(db, c, draws, now) == (db.(orders := db.orders + [FreshRow(c, draws[k], now)]), Some(|db.orders|))
    decreases |draws|
  {
    UsableIs(db.orders, c, draws[0], now);
    if k > 0 {
      forall j | 0 <= j < k
        ensures draws[1..][j] == draws[j + 1]
      {
      }
      CreateOutcome(db, c, draws[1..], now, k - 1);
    }
  }

  /** And changes nothing when none is. */
  lemma {:induction false} CreateRefused(db: Db, c: Cart, draws: seq<int>, now: Time)
    requires NoneUsable(db.orders, c, draws, now)
    ensures CreateOrder(db, c, draws, now) == (db, None)
    decreases |draws|
  {
    if draws != [] {
      UsableIs(db.orders, c, draws[0], now);
      CreateRefused(db, c, draws[1..], now);
    }
  }
}
