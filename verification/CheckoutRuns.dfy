/** Whole runs: any sequence of commits, with the chain, the clock and the callers answering
    whatever they like, from an empty database. */
module CheckoutRuns {
  import opened Prelude
  import opened CheckoutLedger
  import opened CheckoutInvariant
  import opened CheckoutSteps
  import opened AgentSteps

  /** One commit. What the outside world answers is part of the action. */
  datatype Action =
    | Relist(deliverables: seq<Deliverable>)
    | Create(cart: Cart, draws: seq<int>, at: Time)
    | Submit(order: nat, txHash: Hash, view: ChainView, at: Time)
    | Window(network: Network, logs: seq<Log>, head: int, at: Time, upTo: int)
    | Poll(order: nat, view: ChainView, at: Time)
    | Expiry(at: Time)
    | Mature(network: Network, asset: Option<Address>, head: int, receipts: Receipts, at: Time)
    | Refund(order: nat, sent: int)
    | Buy(purchase: Purchase, at: Time)
    | Settle(order: nat, settled: Option<Hash>, deferredPending: bool)
    | Reconcile(order: nat, settledBy: Hash)
    | ReconcileFailed(order: nat)
    | SettleFailure(nonce: Hash)
    | ReapTick(chainScanned: bool, scanned: Option<set<nat>>, cutoff: Time)

  const EMPTY := Db([], [], [], map[], map[], multiset{}, map[])

  /** Prices are positive and offsets are drawn from the configured span. */
  predicate Legal(a: Action) {
    match a
    case Create(c, draws, _) => c.base > 0 && forall k :: 0 <= k < |draws| ==> OFFSET_MIN <= draws[k] <= OffsetSpan(c.base)
    case Buy(p, _) => p.price > 0
    case _ => true
  }

  function Step(db: Db, a: Action): Db {
    match a
    case Relist(ds) => db.(deliverables := ds)
    case Create(c, draws, now) => CreateOrder(db, c, draws, now).0
    case Submit(i, t, v, now) => if i < |db.orders| then VerifyTx(db, i, t, v, now).0 else db
    case Window(net, logs, head, now, upTo) => SetCursor(Fold(db, net, logs, head, now), net, upTo)
    case Poll(i, v, now) => if i < |db.orders| then Refresh(db, i, v, now) else db
    case Expiry(now) => ReleaseExpired(FlipExpired(db, now), now)
    case Mature(net, asset, head, receipts, now) => PromoteMatured(db, net, asset, head, receipts, now)
    case Refund(i, sent) => if i < |db.orders| then RefundFull(db, i, sent) else db
    case Buy(p, now) => Fulfill(db, p, now).0
    case Settle(i, t, pending) => if i < |db.orders| then RecordSettlement(db, i, t, pending) else db
    case Reconcile(i, t) => if i < |db.orders| then ReconcileFinalize(db, i, t) else db
    case ReconcileFailed(i) => if i < |db.orders| then VoidSettling(db, i) else db
    case SettleFailure(nonce) => SettleFailed(db, nonce)
    case ReapTick(scannedChain, scanned, cutoff) => Reap(db, scannedChain, scanned, cutoff)
  }

  function SetCursor(db: Db, network: Network, block: int): Db {
    db.(cursors := db.cursors[network := block])
  }

  function Run(db: Db, acts: seq<Action>): Db
    decreases |acts|
  {
    if acts == [] then db else Run(Step(db, acts[0]), acts[1..])
  }

  ghost predicate AllLegal(acts: seq<Action>) {
    forall k :: 0 <= k < |acts| ==> Legal(acts[k])
  }

  // ------------------------------------------------------------ one window of logs

  /** Some log of the window, not recorded before, pays the order its exact amount, deep enough to
      deliver on. */
  ghost predicate PaidDeepBy(o: Order, seen: seq<Transfer>, network: Network, logs: seq<Log>, head: int) {
    exists k :: 0 <= k < |logs| && PaysExactly(o, network, logs[k]) && Deep(head, logs[k].block)
                && !Recorded(seen, logs[k].txHash, logs[k].logIndex)
  }

  ghost predicate PaysExactly(o: Order, network: Network, l: Log) {
    o.network == network && o.payTo == l.to && o.expected == l.value
  }

  ghost predicate NewlyDelivered(a: Order, b: Order) {
    a.status != Delivered && b.status == Delivered
  }

  /** What one log may do to an order, seen from outside. */
  ghost predicate SweptOrder(a: Order, b: Order, seen: seq<Transfer>, network: Network, logs: seq<Log>, head: int) {
    && SameIdentity(a, b)
    && Allowed(a.channel, a.status, b.status)
    && (a.channel == Agent ==> b == a)
    && (NewlyDelivered(a, b) ==> PaidDeepBy(a, seen, network, logs, head))
    && (b.status in {Expired, Reorged, Canceled, Refunded} ==> b.status == a.status)
  }

  lemma SweepLogOrder(db: Db, network: Network, l: Log, head: int, now: Time, j: nat)
    requires Inv(db) && j < |db.orders|
    ensures var db' := ProcessLog(db, network, l, head, now);
            && |db'.orders| == |db.orders|
            && SweptOrder(db.orders[j], db'.orders[j], db.transfers, network, [l], head)
            && Surplus(db', j) == Surplus(db, j)
  {
    ProcessLogOk(db, network, l, head, now);
    var db' := ProcessLog(db, network, l, head, now);
    assert Evolves(db.orders[j], db'.orders[j]);
    if Credits(db, network, l, now) {
      var i := MatchOrder(db.orders, network, l.to, l.value, now).value;
      if j != i {
        assert ViewOf(db', j) == ViewOf(db, j);
      } else {
        assert Ok(ViewOf(db, i));
        assert [l][0] == l;
      }
    }
  }

  /** What an order received beyond what it was credited. */
  ghost function Surplus(db: Db, i: nat): int
    requires i < |db.orders|
  {
    Received(db.transfers, i) - db.orders[i].paid
  }

  lemma StillUnseen(seen: seq<Transfer>, later: seq<Transfer>, l: Log)
    requires seen <= later && !Recorded(later, l.txHash, l.logIndex)
    ensures !Recorded(seen, l.txHash, l.logIndex)
  {
    forall k | 0 <= k < |seen|
      ensures seen[k].txHash != l.txHash || seen[k].logIndex != l.logIndex
    {
      assert later[k] == seen[k];
    }
  }

  lemma SweptTrans(a: Order, b: Order, c: Order, seen: seq<Transfer>, later: seq<Transfer>, network: Network, l: Log, logs: seq<Log>, head: int)
    requires logs != [] && l == logs[0] && seen <= later
    requires SweptOrder(a, b, seen, network, [l], head) && SweptOrder(b, c, later, network, logs[1..], head)
    ensures SweptOrder(a, c, seen, network, logs, head)
  {
    if NewlyDelivered(a, c) {
      if NewlyDelivered(a, b) {
        assert PaysExactly(a, network, logs[0]);
      } else {
        var k :| 0 <= k < |logs[1..]| && PaysExactly(b, network, logs[1..][k]) && Deep(head, logs[1..][k].block)
                 && !Recorded(later, logs[1..][k].txHash, logs[1..][k].logIndex);
        assert logs[k + 1] == logs[1..][k];
        StillUnseen(seen, later, logs[k + 1]);
      }
    }
  }

  lemma {:induction false} FoldOk(db: Db, network: Network, logs: seq<Log>, head: int, now: Time)
    requires Inv(db)
    ensures var db' := Fold(db, network, logs, head, now);
            && Inv(db') && Progress(db, db') && |db'.orders| == |db.orders|
            && forall j :: 0 <= j < |db.orders| ==>
                 SweptOrder(db.orders[j], db'.orders[j], db.transfers, network, logs, head) && Surplus(db', j) == Surplus(db, j)
    decreases |logs|
  {
    if logs == [] {
      ProgressRefl(db);
    } else {
      var mid := ProcessLog(db, network, logs[0], head, now);
      ProcessLogOk(db, network, logs[0], head, now);
      FoldOk(mid, network, logs[1..], head, now);
      var db' := Fold(db, network, logs, head, now);
      assert db' == Fold(mid, network, logs[1..], head, now);
      forall j | 0 <= j < |db.orders|
        ensures SweptOrder(db.orders[j], db'.orders[j], db.transfers, network, logs, head) && Surplus(db', j) == Surplus(db, j)
      {
        SweepLogOrder(db, network, logs[0], head, now, j);
        assert SweptOrder(mid.orders[j], db'.orders[j], mid.transfers, network, logs[1..], head);
        SweptTrans(db.orders[j], mid.orders[j], db'.orders[j], db.transfers, mid.transfers, network, logs[0], logs, head);
      }
      ProgressTrans(db, mid, db');
    }
  }

  // ------------------------------------------------------------ every commit

  lemma SameTablesOk(db: Db, db': Db)
    requires Inv(db)
    requires db' == db.(deliverables := db'.deliverables, cursors := db'.cursors)
    ensures Inv(db') && Progress(db, db')
  {
    forall j | 0 <= j < |db.orders|
      ensures ViewOf(db', j) == ViewOf(db, j) && Ok(ViewOf(db', j))
    {
      assert Ok(ViewOf(db, j));
    }
    forall j: nat | j >= |db'.orders|
      ensures EffectFree(db', j)
    {
      assert EffectFree(db, j);
    }
  }

  lemma WindowOk(db: Db, network: Network, logs: seq<Log>, head: int, now: Time, upTo: int)
    requires Inv(db)
    ensures var db' := SetCursor(Fold(db, network, logs, head, now), network, upTo);
            Inv(db') && Progress(db, db')
  {
    FoldOk(db, network, logs, head, now);
    var mid := Fold(db, network, logs, head, now);
    SameTablesOk(mid, SetCursor(mid, network, upTo));
    forall i | 0 <= i < |db.orders|
      ensures Evolves(db.orders[i], SetCursor(mid, network, upTo).orders[i])
    {
    }
  }

  /** Whatever the commit and whatever the world answered, the joint invariant is kept, no order
      disappears or changes identity, and its status only follows the lifecycle graph. */
  lemma {:induction false} StepOk(db: Db, a: Action)
    requires Inv(db) && Legal(a)
    ensures Inv(Step(db, a)) && Progress(db, Step(db, a))
  {
    match a
    case Relist(ds) => SameTablesOk(db, db.(deliverables := ds));
    case Create(c, draws, now) => CreateOrderOk(db, c, draws, now);
    case Submit(i, t, v, now) => if i < |db.orders| { VerifyTxOk(db, i, t, v, now); } else { ProgressRefl(db); }
    case Window(net, logs, head, now, upTo) => WindowOk(db, net, logs, head, now, upTo);
    case Poll(i, v, now) => if i < |db.orders| { RefreshOk(db, i, v, now); } else { ProgressRefl(db); }
    case Expiry(now) => ExpireAndReleaseOk(db, now);
    case Mature(net, asset, head, receipts, now) => PromoteMaturedOk(db, net, asset, head, receipts, now);
    case Refund(i, sent) => if i < |db.orders| { RefundFullOk(db, i, sent); } else { ProgressRefl(db); }
    case Buy(p, now) => FulfillOk(db, p, now);
    case Settle(i, t, pending) => if i < |db.orders| { RecordSettlementOk(db, i, t, pending); } else { ProgressRefl(db); }
    case Reconcile(i, t) => if i < |db.orders| { ReconcileFinalizeOk(db, i, t); } else { ProgressRefl(db); }
    case ReconcileFailed(i) => if i < |db.orders| { VoidSettlingOk(db, i); } else { ProgressRefl(db); }
    case SettleFailure(nonce) => SettleFailedOk(db, nonce);
    case ReapTick(chainScanned, scanned, cutoff) =>
      if chainScanned { var _ := ReapFirstOk(db, |db.orders|, scanned, cutoff); } else { ProgressRefl(db); }
  }

  lemma {:induction false} RunOk(db: Db, acts: seq<Action>)
    requires Inv(db) && AllLegal(acts)
    ensures Inv(Run(db, acts))
    ensures |db.orders| <= |Run(db, acts).orders|
    decreases |acts|
  {
    if acts != [] {
      StepOk(db, acts[0]);
      RunOk(Step(db, acts[0]), acts[1..]);
    }
  }

  /** Only creating and buying add orders. */
  lemma {:induction false} OnlyCreationAdds(db: Db, a: Action)
    requires Inv(db) && Legal(a) && !a.Create? && !a.Buy?
    ensures |Step(db, a).orders| == |db.orders|
  {
    match a
    case Submit(i, t, v, now) => if i < |db.orders| { VerifyTxOk(db, i, t, v, now); }
    case Window(net, logs, head, now, upTo) => FoldOk(db, net, logs, head, now);
    case Poll(i, v, now) => if i < |db.orders| { RefreshOk(db, i, v, now); }
    case Expiry(now) =>
    case Mature(net, asset, head, receipts, now) => PromoteMaturedOk(db, net, asset, head, receipts, now);
    case Refund(i, sent) => if i < |db.orders| { RefundFullOk(db, i, sent); }
    case Settle(i, t, pending) => if i < |db.orders| { RecordSettlementOk(db, i, t, pending); }
    case Reconcile(i, t) => if i < |db.orders| { ReconcileFinalizeOk(db, i, t); }
    case ReconcileFailed(i) => if i < |db.orders| { VoidSettlingOk(db, i); }
    case SettleFailure(nonce) => SettleFailedOk(db, nonce);
    case ReapTick(chainScanned, scanned, cutoff) =>
    case Relist(ds) =>
  }

  lemma {:induction false} RunConcat(db: Db, a: seq<Action>, b: seq<Action>)
    ensures Run(db, a + b) == Run(Run(db, a), b)
    decreases |a|
  {
    if a == [] {
      assert a + b == b;
    } else {
      assert (a + b)[1..] == a[1..] + b;
      RunConcat(Step(db, a[0]), a[1..], b);
    }
  }

  lemma EmptyOk()
    ensures Inv(EMPTY)
  {
  }
}
