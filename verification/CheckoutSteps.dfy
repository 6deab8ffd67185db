/** Every commit keeps the joint invariant and only moves rows along the lifecycle graph. */
module CheckoutSteps {
  import opened Prelude
  import opened CheckoutLedger
  import opened CheckoutInvariant

  // ------------------------------------------------------------ matching

  lemma {:induction false} OldestFacts(orders: seq<Order>, network: Network, payTo: Address, value: int, n: nat)
    requires n <= |orders|
    ensures var m := OldestInFlight(orders, network, payTo, value, n);
            && (m.Some? ==> m.value < n && Pinned(orders[m.value], network, payTo, value) && orders[m.value].status in IN_FLIGHT)
            && (m.None? ==> forall k :: 0 <= k < n ==> !(Pinned(orders[k], network, payTo, value) && orders[k].status in IN_FLIGHT))
  {
    if n > 0 {
      OldestFacts(orders, network, payTo, value, n - 1);
    }
  }

  lemma {:induction false} QuarantinedFacts(orders: seq<Order>, network: Network, payTo: Address, value: int, now: Time, n: nat)
    requires n <= |orders|
    ensures var m := FirstQuarantined(orders, network, payTo, value, now, n);
            && (m.Some? ==> n <= m.value < |orders| && Pinned(orders[m.value], network, payTo, value) && Quarantined(orders[m.value], now))
            && (m.None? ==> forall k :: n <= k < |orders| ==> !(Pinned(orders[k], network, payTo, value) && Quarantined(orders[k], now)))
    decreases |orders| - n
  {
    if n < |orders| {
      QuarantinedFacts(orders, network, payTo, value, now, n + 1);
    }
  }

  /** The match is a matchable order, and there is none to miss. */
  lemma MatchFacts(orders: seq<Order>, network: Network, payTo: Address, value: int, now: Time)
    ensures var m := MatchOrder(orders, network, payTo, value, now);
            && (m.Some? ==> m.value < |orders| && Matchable(orders[m.value], network, payTo, value, now))
            && (m.None? ==> forall k :: 0 <= k < |orders| ==> !Matchable(orders[k], network, payTo, value, now))
  {
    OldestFacts(orders, network, payTo, value, |orders|);
    QuarantinedFacts(orders, network, payTo, value, now, 0);
  }

  /** While the unique index holds, an amount at an address names one order: whichever order
      is matchable is the one matched, and the precedence rule never has to choose. */
  lemma MatchIsUnique(orders: seq<Order>, network: Network, payTo: Address, value: int, now: Time, k: nat)
    requires NoClash(orders) && k < |orders| && Matchable(orders[k], network, payTo, value, now)
    ensures MatchOrder(orders, network, payTo, value, now) == Some(k)
  {
    MatchFacts(orders, network, payTo, value, now);
    ReservedOnce(orders, MatchOrder(orders, network, payTo, value, now).value, k);
  }

  lemma ReservedOnce(orders: seq<Order>, a: nat, b: nat)
    requires NoClash(orders) && a < |orders| && b < |orders| && Clash(orders[a], orders[b])
    ensures a == b
  {
  }

  // ------------------------------------------------------------ strays

  lemma DriveStateStrays(db: Db, i: nat, added: int, block: int, from: Address, txHash: Hash, head: int, now: Time)
    requires i < |db.orders| && (db.orders[i].status != Expired ==> db.orders[i].paid + added >= db.orders[i].expected)
    ensures StraysOnlyAt(db, DriveState(db, i, added, block, from, txHash, head, now), i)
  {
    var o, deep := db.orders[i], Deep(head, block);
    var f := CreditFields(o, added, block, from, txHash);
    var over := o.paid + added - o.expected;
    DriveStateSteps(db, i, added, block, from, txHash, head, now);
    if o.status == Expired {
      CreditStrays(db, i, {Expired}, LatePaid, f, deep, now);
    } else {
      CreditStrays(db, i, IN_FLIGHT, if !deep then Detected else if over > 0 then Overpaid else Confirmed, f.(over := Some(over)), deep, now);
    }
  }

  lemma CreditStrays(db: Db, i: nat, from: set<Status>, to: Status, f: Fields, deep: bool, now: Time)
    requires i < |db.orders|
    ensures var moved := Transitioned(db, i, from, to, f);
            StraysOnlyAt(db, if deep then Deliver(moved, i, now) else moved, i)
  {
  }

  lemma PromoteStrays(db: Db, i: nat, now: Time)
    requires i < |db.orders|
    ensures StraysOnlyAt(db, Promote(db, i, now), i)
  {
  }

  lemma AppendKeys(ts: seq<Transfer>, i: nat, payTo: Address, ls: seq<Log>)
    requires KeysDistinct(ts) && DistinctKeys(ls)
    requires forall k :: 0 <= k < |ls| ==> !Recorded(ts, ls[k].txHash, ls[k].logIndex)
    ensures KeysDistinct(ts + RowsFor(i, payTo, ls))
  {
    var us := ts + RowsFor(i, payTo, ls);
    forall a, b | 0 <= a < b < |us|
      ensures us[a].txHash != us[b].txHash || us[a].logIndex != us[b].logIndex
    {
      if a < |ts| <= b {
        assert us[b] == RowFor(i, payTo, ls[b - |ts|]);
        assert us[a] == ts[a];
        assert !Recorded(ts, ls[b - |ts|].txHash, ls[b - |ts|].logIndex);
      } else if |ts| <= a {
        assert us[a] == RowFor(i, payTo, ls[a - |ts|]) && us[b] == RowFor(i, payTo, ls[b - |ts|]);
      }
    }
  }

  // ------------------------------------------------------------ crediting commits

  /** Recording unseen logs worth exactly the amount due and driving the order. */
  lemma {:induction false} CreditCommit(db: Db, i: nat, ls: seq<Log>, added: int, block: int, from: Address, txHash: Hash, head: int, now: Time)
    requires Inv(db) && i < |db.orders| && Creditable(db.orders[i])
    requires Total(ls) == added == db.orders[i].expected && DistinctKeys(ls)
    requires forall k :: 0 <= k < |ls| ==> !Recorded(db.transfers, ls[k].txHash, ls[k].logIndex)
    ensures var recorded := db.(transfers := db.transfers + RowsFor(i, db.orders[i].payTo, ls));
            var db' := DriveState(recorded, i, added, block, from, txHash, head, now);
            && Inv(db') && Progress(db, db') && Frame(db, db', i)
            && Credited(ViewOf(db, i), ViewOf(db', i), added, Deep(head, block), txHash, block)
            && db'.transfers == recorded.transfers
  {
    var payTo := db.orders[i].payTo;
    var recorded := db.(transfers := db.transfers + RowsFor(i, payTo, ls));
    var db' := DriveState(recorded, i, added, block, from, txHash, head, now);
    assert Ok(ViewOf(db, i));
    RecordView(db, i, payTo, ls);
    DriveStateOk(recorded, i, added, block, from, txHash, head, now, ViewOf(db, i));
    DriveStateStrays(recorded, i, added, block, from, txHash, head, now);
    AppendKeys(db.transfers, i, payTo, ls);
    forall j | 0 <= j < |db.orders| && j != i
      ensures ViewOf(db', j) == ViewOf(db, j)
    {
      assert ViewOf(recorded, j) == ViewOf(db, j);
      assert ViewOf(db', j) == ViewOf(recorded, j);
    }
    forall k | |db.transfers| <= k < |db'.transfers|
      ensures db'.transfers[k].orderId == i
    {
      assert db'.transfers[k] == RowFor(i, payTo, ls[k - |db.transfers|]);
    }
    forall j: nat | j != i
      ensures SameEffects(db, db', j)
    {
      assert SameEffects(recorded, db', j);
    }
    OneRowStep(db, db', i);
  }

  /** Whether processing this log credits an order at all. */
  ghost predicate Credits(db: Db, network: Network, l: Log, now: Time) {
    && !Recorded(db.transfers, l.txHash, l.logIndex)
    && !AgentSettled(db.orders, l.txHash)
    && MatchOrder(db.orders, network, l.to, l.value, now).Some?
  }

  lemma ProcessLogOk(db: Db, network: Network, l: Log, head: int, now: Time)
    requires Inv(db)
    ensures var db' := ProcessLog(db, network, l, head, now);
            && Inv(db') && Progress(db, db') && |db'.orders| == |db.orders|
            && (!Credits(db, network, l, now) ==> db' == db)
            && (Credits(db, network, l, now) ==>
                  var i := MatchOrder(db.orders, network, l.to, l.value, now).value;
                  && i < |db.orders| && db.orders[i].channel == Web && Matchable(db.orders[i], network, l.to, l.value, now)
                  && Frame(db, db', i)
                  && Credited(ViewOf(db, i), ViewOf(db', i), l.value, Deep(head, l.block), l.txHash, l.block)
                  && db'.transfers == db.transfers + [RowFor(i, l.to, l)])
  {
    MatchFacts(db.orders, network, l.to, l.value, now);
    if Credits(db, network, l, now) {
      var i := MatchOrder(db.orders, network, l.to, l.value, now).value;
      assert Ok(ViewOf(db, i));
      assert RowsFor(i, l.to, [l]) == [RowFor(i, l.to, l)];
      assert Total([l]) == l.value;
      CreditCommit(db, i, [l], l.value, l.block, l.from, l.txHash, head, now);
    } else {
      ProgressRefl(db);
    }
  }

  lemma ProgressRefl(db: Db)
    ensures Progress(db, db)
  {
  }

  // ------------------------------------------------------------ the fast path

  lemma {:induction false} ScanFacts(db: Db, i: nat, asset: Address, logs: seq<RawLog>)
    requires i < |db.orders|
    ensures var s := ScanLogs(db, i, asset, logs);
            s.Clean? ==>
              && (forall k :: 0 <= k < |s.unseen| ==>
                    && !Recorded(db.transfers, s.unseen[k].txHash, s.unseen[k].logIndex)
                    && Objection(db, i, s.unseen[k]).None?
                    && RawLog(asset, true, s.unseen[k]) in logs
                    && s.unseen[k].to == db.orders[i].payTo)
              && (s.unseen != [] ==> s.matched)
  {
    if logs != [] {
      ScanFacts(db, i, asset, logs[1..]);
      var rest := ScanLogs(db, i, asset, logs[1..]);
      var s := ScanLogs(db, i, asset, logs);
      if s.Clean? && Relevant(db.orders[i], asset, logs[0]) {
        assert logs[0] == RawLog(asset, true, logs[0].log);
      }
    }
  }

  /** Whether the submission credits: everything the fast path checks passed. */
  ghost predicate Accepted(db: Db, i: nat, txHash: Hash, v: ChainView, now: Time)
    requires i < |db.orders|
  {
    VerifyTx(db, i, txHash, v, now).1 == Applied
  }

  /** Nothing stands between a clean scan and the credit. */
  lemma AcceptedMeans(db: Db, i: nat, txHash: Hash, v: ChainView, now: Time)
    requires i < |db.orders| && Accepted(db, i, txHash, v, now)
    ensures Gate(db.orders[i], v, now).None? && v.head.Some? && v.asset.Some? && v.receipt.Some?
    ensures var o := db.orders[i];
            var s := ScanLogs(db, i, v.asset.value, v.receipt.value.logs);
            && s.Clean? && s.unseen != [] && Total(s.unseen) == o.expected && DistinctKeys(s.unseen)
            && VerifyTx(db, i, txHash, v, now).0 ==
                 DriveState(db.(transfers := db.transfers + RowsFor(i, o.payTo, s.unseen)),
                            i, o.expected, s.unseen[0].block, s.unseen[0].from, txHash, v.head.value, now)
  {
  }

  lemma GateLeavesCreditable(db: Db, i: nat, v: ChainView, now: Time)
    requires Inv(db) && i < |db.orders| && Gate(db.orders[i], v, now).None?
    ensures Creditable(db.orders[i])
  {
    assert Ok(ViewOf(db, i));
  }

  lemma {:induction false} VerifyTxOk(db: Db, i: nat, txHash: Hash, v: ChainView, now: Time)
    requires Inv(db) && i < |db.orders|
    ensures var db' := VerifyTx(db, i, txHash, v, now).0;
            && Inv(db') && Progress(db, db') && |db'.orders| == |db.orders|
            && (!Accepted(db, i, txHash, v, now) ==> db' == db)
            && (Accepted(db, i, txHash, v, now) ==>
                  && Gate(db.orders[i], v, now).None?
                  && v.head.Some?
                  && var s := ScanLogs(db, i, v.asset.value, v.receipt.value.logs);
                  && s.Clean? && s.unseen != [] && Total(s.unseen) == db.orders[i].expected
                  && Creditable(db.orders[i])
                  && Frame(db, db', i)
                  && Credited(ViewOf(db, i), ViewOf(db', i), db.orders[i].expected, Deep(v.head.value, s.unseen[0].block), txHash, s.unseen[0].block)
                  && db'.transfers == db.transfers + RowsFor(i, db.orders[i].payTo, s.unseen))
  {
    if Accepted(db, i, txHash, v, now) {
      AcceptedMeans(db, i, txHash, v, now);
      var ls := ScanLogs(db, i, v.asset.value, v.receipt.value.logs).unseen;
      ScanFacts(db, i, v.asset.value, v.receipt.value.logs);
      GateLeavesCreditable(db, i, v, now);
      CreditCommit(db, i, ls, db.orders[i].expected, ls[0].block, ls[0].from, txHash, v.head.value, now);
    } else {
      ProgressRefl(db);
    }
  }

  // ------------------------------------------------------------ maturing

  /** The row a promotion leaves behind: delivered after a good re-check, reorged after a bad one. */
  function Rechecked(o: Order, valid: bool, now: Time): Order {
    if valid then Written(o, Delivered, NO_FIELDS.(paidAt := Some(now))) else o.(status := Reorged)
  }

  lemma MarkReorgedOk(db: Db, i: nat, now: Time)
    requires Inv(db) && i < |db.orders| && db.orders[i].status in {Detected, LatePaid}
    ensures var db' := MarkReorged(db, i);
            Inv(db') && Progress(db, db') && Frame(db, db', i) && db'.transfers == db.transfers && db'.orders[i] == Rechecked(db.orders[i], false, now)
  {
    TransitionView(db, i, {Detected, LatePaid}, Reorged, NO_FIELDS);
    assert Ok(ViewOf(db, i));
    OneRowStep(db, MarkReorged(db, i), i);
  }

  /** What promoting does to the row and to nothing else. */
  lemma PromoteView(db: Db, i: nat, now: Time)
    requires Inv(db) && i < |db.orders| && db.orders[i].status in {Detected, LatePaid}
    ensures var db' := Promote(db, i, now);
            Frame(db, db', i) && Ok(ViewOf(db', i)) && Evolves(db.orders[i], db'.orders[i])
            && db'.transfers == db.transfers && db'.orders[i] == Rechecked(db.orders[i], true, now)
  {
    var o := db.orders[i];
    assert Ok(ViewOf(db, i));
    var to := if o.status == LatePaid then LatePaid else if o.paid - o.expected > 0 then Overpaid else Confirmed;
    var confirmed := Transitioned(db, i, {Detected}, to, NO_FIELDS);
    TransitionView(db, i, {Detected}, to, NO_FIELDS);
    DeliverView(confirmed, i, now);
    assert confirmed.orders == db.orders || o.status == Detected;
    var db' := Promote(db, i, now);
    assert db' == Deliver(confirmed, i, now);
    forall j | 0 <= j < |db.orders| && j != i
      ensures ViewOf(db', j) == ViewOf(db, j)
    {
      assert ViewOf(confirmed, j) == ViewOf(db, j);
    }
  }

  lemma PromoteOk(db: Db, i: nat, now: Time)
    requires Inv(db) && i < |db.orders| && db.orders[i].status in {Detected, LatePaid}
    ensures var db' := Promote(db, i, now);
            Inv(db') && Progress(db, db') && Frame(db, db', i) && db'.transfers == db.transfers && db'.orders[i] == Rechecked(db.orders[i], true, now)
  {
    PromoteView(db, i, now);
    PromoteStrays(db, i, now);
    OneRowStep(db, Promote(db, i, now), i);
  }

  /** What one pass of the promotion loop makes of one row. */
  function AfterPass(o: Order, want: Status, network: Network, asset: Option<Address>, head: int, receipts: Receipts, now: Time): Order {
    if o.network != network || o.status != want || !Matured(o, head) || asset.None? then o
    else Rechecked(o, ReceiptStillValid(o, asset.value, ReceiptOf(o, receipts)), now)
  }

  /** One row of a pass became what AfterPass says, and nothing else changed. */
  ghost predicate RowPassed(db: Db, db': Db, i: nat, row: Order) {
    && Inv(db') && Progress(db, db') && Frame(db, db', i) && db'.transfers == db.transfers
    && i < |db'.orders| && db'.orders[i] == row
  }

  lemma RowKept(db: Db, i: nat)
    requires Inv(db) && i < |db.orders|
    ensures RowPassed(db, db, i, db.orders[i])
  {
    ProgressRefl(db);
  }

  lemma RowRechecked(db: Db, i: nat, valid: bool, now: Time)
    requires Inv(db) && i < |db.orders| && db.orders[i].status in {Detected, LatePaid}
    ensures RowPassed(db, if valid then Promote(db, i, now) else MarkReorged(db, i), i, Rechecked(db.orders[i], valid, now))
  {
    if valid {
      PromoteOk(db, i, now);
    } else {
      MarkReorgedOk(db, i, now);
    }
  }

  lemma PromoteOneOk(db: Db, i: nat, want: Status, network: Network, asset: Option<Address>, head: int, receipts: Receipts, now: Time)
    requires Inv(db) && i < |db.orders|
    ensures RowPassed(db, PromoteOne(db, i, want, network, asset, head, receipts, now), i,
                      AfterPass(db.orders[i], want, network, asset, head, receipts, now))
  {
    var o := db.orders[i];
    if o.network != network || o.status != want || !Matured(o, head) || asset.None? {
      RowKept(db, i);
    } else {
      RowRechecked(db, i, ReceiptStillValid(o, asset.value, ReceiptOf(o, receipts)), now);
    }
  }

  /** A pass treats every row on its own: the first n rows are re-checked, the others untouched. */
  ghost predicate PassedTo(before: seq<Order>, after: seq<Order>, n: nat, want: Status, network: Network, asset: Option<Address>, head: int, receipts: Receipts, now: Time) {
    && |after| == |before|
    && forall j :: 0 <= j < |before| ==>
         after[j] == if j < n then AfterPass(before[j], want, network, asset, head, receipts, now) else before[j]
  }

  lemma {:induction false} PromotePassOk(db: Db, n: nat, want: Status, network: Network, asset: Option<Address>, head: int, receipts: Receipts, now: Time) returns (db': Db)
    requires Inv(db) && n <= |db.orders|
    ensures db' == PromotePass(db, n, want, network, asset, head, receipts, now)
    ensures Inv(db') && Progress(db, db') && db'.transfers == db.transfers
    ensures PassedTo(db.orders, db'.orders, n, want, network, asset, head, receipts, now)
  {
    if n == 0 {
      db' := db;
      ProgressRefl(db);
    } else {
      var prior := PromotePassOk(db, n - 1, want, network, asset, head, receipts, now);
      db' := PromoteOne(prior, n - 1, want, network, asset, head, receipts, now);
      PassStep(db, prior, db', n, want, network, asset, head, receipts, now);
    }
  }

  lemma PassStep(db: Db, prior: Db, db': Db, n: nat, want: Status, network: Network, asset: Option<Address>, head: int, receipts: Receipts, now: Time)
    requires 0 < n <= |db.orders| && Inv(prior) && Progress(db, prior) && prior.transfers == db.transfers
    requires PassedTo(db.orders, prior.orders, n - 1, want, network, asset, head, receipts, now)
    requires db' == PromoteOne(prior, n - 1, want, network, asset, head, receipts, now)
    ensures Inv(db') && Progress(db, db') && db'.transfers == db.transfers
    ensures PassedTo(db.orders, db'.orders, n, want, network, asset, head, receipts, now)
  {
    PromoteOneOk(prior, n - 1, want, network, asset, head, receipts, now);
    OneRowPassed(prior, db', n - 1, AfterPass(prior.orders[n - 1], want, network, asset, head, receipts, now));
    PassExtends(db.orders, prior.orders, n - 1, want, network, asset, head, receipts, now);
    PassProgress(db, prior, db', n - 1);
  }

  lemma OneRowPassed(db: Db, db': Db, i: nat, row: Order)
    requires i < |db.orders| && RowPassed(db, db', i, row)
    ensures db'.orders == db.orders[i := row]
  {
    forall j | 0 <= j < |db.orders| && j != i
      ensures db'.orders[j] == db.orders[j]
    {
      assert ViewOf(db', j) == ViewOf(db, j);
    }
  }

  lemma PassExtends(before: seq<Order>, prior: seq<Order>, i: nat, want: Status, network: Network, asset: Option<Address>, head: int, receipts: Receipts, now: Time)
    requires i < |before| && PassedTo(before, prior, i, want, network, asset, head, receipts, now)
    ensures prior[i] == before[i]
    ensures PassedTo(before, prior[i := AfterPass(prior[i], want, network, asset, head, receipts, now)], i + 1,
                     want, network, asset, head, receipts, now)
  {
  }

  /** A commit that changes one row which nothing before it touched. */
  lemma PassProgress(db: Db, prior: Db, db': Db, i: nat)
    requires i < |db.orders| == |prior.orders| && Progress(db, prior) && Progress(prior, db')
    requires prior.orders[i] == db.orders[i]
    requires |db'.orders| == |prior.orders| && forall j :: 0 <= j < |db.orders| && j != i ==> db'.orders[j] == prior.orders[j]
    ensures Progress(db, db')
  {
    forall j | 0 <= j < |db.orders|
      ensures Allowed(db.orders[j].channel, db.orders[j].status, db'.orders[j].status)
    {
      assert Evolves(db.orders[j], prior.orders[j]) && Evolves(prior.orders[j], db'.orders[j]);
    }
    ProgressTrans(db, prior, db');
  }

  function AfterPromotion(o: Order, network: Network, asset: Option<Address>, head: int, receipts: Receipts, now: Time): Order {
    if o.status == Detected then AfterPass(o, Detected, network, asset, head, receipts, now)
    else AfterPass(o, LatePaid, network, asset, head, receipts, now)
  }

  lemma {:induction false} PromoteMaturedOk(db: Db, network: Network, asset: Option<Address>, head: int, receipts: Receipts, now: Time)
    requires Inv(db)
    ensures var db' := PromoteMatured(db, network, asset, head, receipts, now);
            && Inv(db') && Progress(db, db') && |db'.orders| == |db.orders| && db'.transfers == db.transfers
            && forall j :: 0 <= j < |db.orders| ==>
                 db'.orders[j] == AfterPromotion(db.orders[j], network, asset, head, receipts, now)
  {
    var mid := PromotePassOk(db, |db.orders|, Detected, network, asset, head, receipts, now);
    var db' := PromotePassOk(mid, |db.orders|, LatePaid, network, asset, head, receipts, now);
    forall j | 0 <= j < |db.orders|
      ensures db'.orders[j] == AfterPromotion(db.orders[j], network, asset, head, receipts, now)
      ensures Allowed(db.orders[j].channel, db.orders[j].status, db'.orders[j].status)
    {
      assert Ok(ViewOf(db, j));
      assert mid.orders[j] == AfterPass(db.orders[j], Detected, network, asset, head, receipts, now);
      assert Evolves(db.orders[j], mid.orders[j]) && Evolves(mid.orders[j], db'.orders[j]);
    }
    ProgressTrans(db, mid, db');
  }

  lemma RefreshOk(db: Db, i: nat, v: ChainView, now: Time)
    requires Inv(db) && i < |db.orders|
    ensures var db' := Refresh(db, i, v, now);
            && Inv(db') && Progress(db, db') && Frame(db, db', i) && db'.transfers == db.transfers
            && (db.orders[i].status != Pending && db'.orders[i] != db.orders[i] ==>
                  v.head.Some? && v.asset.Some? && Matured(db.orders[i], v.head.value) &&
                  db'.orders[i] == Rechecked(db.orders[i], ReceiptStillValid(db.orders[i], v.asset.value, v.receipt), now))
            && (db.orders[i].status == Pending ==> db'.orders[i].status in {Pending, Expired})
  {
    var o := db.orders[i];
    if o.status == Pending && now > ExpiryOf(o) {
      assert Ok(ViewOf(db, i));
      TransitionView(db, i, {Pending}, Expired, NO_FIELDS);
      OneRowStep(db, Refresh(db, i, v, now), i);
    } else if o.status == Pending || v.asset.None? || v.head.None? || !Matured(o, v.head.value) {
      ProgressRefl(db);
    } else if !ReceiptStillValid(o, v.asset.value, v.receipt) {
      MarkReorgedOk(db, i, now);
    } else {
      PromoteOk(db, i, now);
    }
  }

  // ------------------------------------------------------------ expiry and release

  lemma ExpireAndReleaseOk(db: Db, now: Time)
    requires Inv(db)
    ensures var db' := ReleaseExpired(FlipExpired(db, now), now);
            && Inv(db') && Progress(db, db') && |db'.orders| == |db.orders| && db'.transfers == db.transfers
            && forall j :: 0 <= j < |db.orders| ==> db'.orders[j] == Released(Flipped(db.orders[j], now), now)
  {
    var db' := ReleaseExpired(FlipExpired(db, now), now);
    forall j | 0 <= j < |db.orders|
      ensures db'.orders[j] == Released(Flipped(db.orders[j], now), now)
      ensures Ok(ViewOf(db', j)) && Evolves(db.orders[j], db'.orders[j])
    {
      assert Ok(ViewOf(db, j));
      assert ViewOf(db', j) == ViewOf(db, j).(o := db'.orders[j]);
    }
    assert RowsOk(db');
    ProgressKeepsIndexes(db, db');
    forall j: nat | j >= |db'.orders|
      ensures EffectFree(db', j)
    {
      assert EffectFree(db, j);
    }
  }

  // ------------------------------------------------------------ creation

  /** Appending a row that clashes with nothing. */
  lemma AppendOk(db: Db, db': Db, o: Order)
    requires Inv(db)
    requires db' == db.(orders := db.orders + [o], deliveries := db'.deliveries, entitlements := db'.entitlements)
    requires db'.deliveries.Keys <= db.deliveries.Keys + {|db.orders|} && db'.entitlements.Keys <= db.entitlements.Keys + {|db.orders|}
    requires forall j :: j in db.deliveries ==> j in db'.deliveries && db'.deliveries[j] == db.deliveries[j]
    requires forall j :: j in db.entitlements ==> j in db'.entitlements && db'.entitlements[j] == db.entitlements[j]
    requires Received(db.transfers, |db.orders|) == 0 && EffectFree(db, |db.orders|) ==> Ok(ViewOf(db', |db.orders|))
    requires o.status in RESERVED ==> !IndexRefuses(db.orders, o.payTo, o.expected)
    requires o.nonce.Some? ==> forall k :: 0 <= k < |db.orders| ==> db.orders[k].nonce != o.nonce
    ensures Inv(db') && Progress(db, db')
    ensures Received(db'.transfers, |db.orders|) == 0
  {
    var n := |db.orders|;
    assert EffectFree(db, n);
    NothingReceived(db.transfers, n);
    forall j | 0 <= j < n
      ensures ViewOf(db', j) == ViewOf(db, j)
    {
      assert db'.orders[j] == db.orders[j];
      assert j in db'.deliveries <==> j in db.deliveries;
    }
    forall j | 0 <= j < |db'.orders|
      ensures Ok(ViewOf(db', j))
    {
      if j < n {
        assert ViewOf(db', j) == ViewOf(db, j);
      }
    }
    forall a, b | 0 <= a < b < |db'.orders|
      ensures !Clash(db'.orders[a], db'.orders[b])
      ensures db'.orders[a].nonce.None? || db'.orders[a].nonce != db'.orders[b].nonce
    {
      if b < n {
        assert !Clash(db.orders[a], db.orders[b]);
      }
    }
    forall j: nat | j >= |db'.orders|
      ensures EffectFree(db', j)
    {
      assert EffectFree(db, j);
    }
  }

  lemma {:induction false} NothingReceived(ts: seq<Transfer>, i: nat)
    requires forall k :: 0 <= k < |ts| ==> ts[k].orderId < i
    ensures Received(ts, i) == 0
  {
    if ts != [] {
      NothingReceived(ts[1..], i);
    }
  }

  /** The allocator takes the first draw that works, and gives up only when none does. */
  lemma {:induction false} FirstDraw(db: Db, c: Cart, draws: seq<int>, now: Time)
    ensures var (db', made) := CreateOrder(db, c, draws, now);
            if made.None? then db' == db && forall k :: 0 <= k < |draws| ==> !DrawWorks(db.orders, c, draws[k], now)
            else made.value == |db.orders| && exists k :: 0 <= k < |draws| && Drawn(db, c, draws, k, now, db')
    decreases |draws|
  {
    if draws != [] && !DrawWorks(db.orders, c, draws[0], now) {
      var rest := draws[1..];
      FirstDraw(db, c, rest, now);
      var (db', made) := CreateOrder(db, c, rest, now);
      if made.Some? {
        var k :| 0 <= k < |rest| && Drawn(db, c, rest, k, now, db');
        assert draws[k + 1] == rest[k];
        assert forall j :: 0 <= j < k + 1 ==> j == 0 || draws[j] == rest[j - 1];
        assert Drawn(db, c, draws, k + 1, now, db');
      } else {
        assert forall k :: 0 < k < |draws| ==> draws[k] == rest[k - 1];
      }
    } else if draws != [] {
      assert Drawn(db, c, draws, 0, now, CreateOrder(db, c, draws, now).0);
    }
  }

  /** Draw k is the first usable one and the order was appended with its amount. */
  ghost predicate Drawn(db: Db, c: Cart, draws: seq<int>, k: nat, now: Time, db': Db)
    requires k < |draws|
  {
    && DrawWorks(db.orders, c, draws[k], now)
    && (forall j :: 0 <= j < k ==> !DrawWorks(db.orders, c, draws[j], now))
    && db' == db.(orders := db.orders + [NewOrder(c, c.base + draws[k], now)])
  }

  lemma {:induction false} CreateOrderOk(db: Db, c: Cart, draws: seq<int>, now: Time)
    requires Inv(db) && c.base > 0 && forall k :: 0 <= k < |draws| ==> draws[k] >= OFFSET_MIN
    ensures var (db', made) := CreateOrder(db, c, draws, now);
            Inv(db') && Progress(db, db')
  {
    FirstDraw(db, c, draws, now);
    var (db', made) := CreateOrder(db, c, draws, now);
    if made.None? {
      ProgressRefl(db);
    } else {
      var k :| 0 <= k < |draws| && Drawn(db, c, draws, k, now, db');
      AppendOk(db, db', NewOrder(c, c.base + draws[k], now));
    }
  }
}
