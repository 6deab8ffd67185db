/** What a delivery hands over, whichever commit makes it: the newest goods of the product itself,
    or else of the store, and nothing but the standard text without either. */
module DeliveredGoods {
  import opened Prelude
  import opened CheckoutLedger
  import opened CheckoutInvariant
  import opened CheckoutSteps
  import opened AgentSteps
  import opened CheckoutRuns
  import opened CheckoutTheorems

  ghost predicate Bound(d: Deliverable, storeId: nat, productId: Option<nat>) {
    d.active && d.storeId == storeId && d.productId == productId
  }

  ghost predicate NoneBound(ds: seq<Deliverable>, storeId: nat, productId: Option<nat>) {
    forall d :: 0 <= d < |ds| ==> !Bound(ds[d], storeId, productId)
  }

  /** The last active deliverable bound to exactly this product; without a product, the store's default. */
  ghost predicate Newest(ds: seq<Deliverable>, storeId: nat, productId: Option<nat>, d: nat) {
    && d < |ds| && Bound(ds[d], storeId, productId)
    && forall e :: d < e < |ds| ==> !Bound(ds[e], storeId, productId)
  }

  /** The deliverable a sale of this order owes: the product's own, and the default only without one. */
  ghost predicate Owes(ds: seq<Deliverable>, o: Order, d: nat) {
    if o.productId.Some? && !NoneBound(ds, o.storeId, o.productId)
    then Newest(ds, o.storeId, o.productId, d)
    else Newest(ds, o.storeId, None, d)
  }

  ghost predicate HandedOver(ds: seq<Deliverable>, v: View) {
    && (forall d: nat :: Owes(ds, v.o, d) ==>
          d < |ds| && v.delivery == Some(Delivery(ds[d].kind)) && v.goods == Some(Entitlement(d, v.o.fromAddr, false)))
    && ((forall d: nat :: !Owes(ds, v.o, d)) ==> v.delivery == Some(Delivery(Text)) && v.goods.None?)
  }

  lemma {:induction false} NewestForIs(ds: seq<Deliverable>, storeId: nat, productId: Option<nat>)
    ensures match NewestFor(ds, storeId, productId)
            case Some(d) => Newest(ds, storeId, productId, d)
            case None => NoneBound(ds, storeId, productId)
    decreases |ds|
  {
    if ds != [] {
      NewestForIs(ds[..|ds| - 1], storeId, productId);
    }
  }

  lemma NewestIsOne(ds: seq<Deliverable>, storeId: nat, productId: Option<nat>, d: nat, e: nat)
    requires Newest(ds, storeId, productId, d) && Newest(ds, storeId, productId, e)
    ensures d == e
  {
  }

  /** The goods of an order are the ones it owes. */
  lemma GoodsAreOwed(db: Db, i: nat)
    requires i < |db.orders|
    ensures var (kind, goods) := Goods(db, i);
            var ds, o := db.deliverables, db.orders[i];
            && (goods.Some? ==> goods.value < |ds| && Owes(ds, o, goods.value) && kind == ds[goods.value].kind)
            && (goods.None? ==> kind == Text && forall d: nat :: !Owes(ds, o, d))
            && forall d: nat :: Owes(ds, o, d) ==> goods == Some(d)
  {
    var ds, o := db.deliverables, db.orders[i];
    NewestForIs(ds, o.storeId, o.productId);
    NewestForIs(ds, o.storeId, None);
    forall d: nat | Owes(ds, o, d)
      ensures Goods(db, i).1 == Some(d)
    {
      var p := if o.productId.Some? && !NoneBound(ds, o.storeId, o.productId) then o.productId else None;
      NewestIsOne(ds, o.storeId, p, d, NewestFor(ds, o.storeId, p).value);
    }
  }

  lemma DeliverHandsOver(db: Db, i: nat, now: Time)
    requires i < |db.orders| && db.orders[i].status in READY_TO_DELIVER && i !in db.deliveries && i !in db.entitlements
    ensures HandedOver(db.deliverables, ViewOf(Deliver(db, i, now), i))
  {
    GoodsAreOwed(db, i);
    var db' := Deliver(db, i, now);
    assert db'.orders[i].storeId == db.orders[i].storeId && db'.orders[i].productId == db.orders[i].productId;
    assert db'.orders[i].fromAddr == db.orders[i].fromAddr;
    forall d: nat
      ensures Owes(db.deliverables, db'.orders[i], d) <==> Owes(db.deliverables, db.orders[i], d)
    {
    }
  }

  // ------------------------------------------------------------ one order across a commit

  /** A delivered order keeps everything, and one that becomes delivered is handed what it owes. */
  ghost predicate GoodsStep(db: Db, db': Db, i: nat) {
    && i < |db.orders| && i < |db'.orders| && db'.deliverables == db.deliverables
    && (db.orders[i].status == Delivered && db'.orders[i].status == Delivered ==> ViewOf(db', i) == ViewOf(db, i))
    && (NewlyDelivered(db.orders[i], db'.orders[i]) ==> HandedOver(db.deliverables, ViewOf(db', i)))
  }

  lemma GoodsTrans(a: Db, b: Db, c: Db, i: nat)
    requires GoodsStep(a, b, i) && GoodsStep(b, c, i)
    requires a.orders[i].status == Delivered && c.orders[i].status == Delivered ==> b.orders[i].status == Delivered
    ensures GoodsStep(a, c, i)
  {
  }

  lemma SameViewStep(db: Db, db': Db, i: nat)
    requires i < |db.orders| == |db'.orders| && ViewOf(db', i) == ViewOf(db, i) && db'.deliverables == db.deliverables
    ensures GoodsStep(db, db', i)
  {
  }

  ghost predicate Empty(db: Db, i: nat) {
    i !in db.deliveries && i !in db.entitlements
  }

  /** A web order that could be credited has been handed nothing yet. */
  lemma NothingYet(db: Db, i: nat)
    requires Inv(db) && i < |db.orders| && db.orders[i].channel == Web && db.orders[i].status !in {Delivered, Refunded}
    ensures Empty(db, i)
  {
    assert Ok(ViewOf(db, i));
  }

  lemma {:induction false} CreditGoods(db: Db, i: nat, from: set<Status>, to: Status, f: Fields, deep: bool, now: Time)
    requires i < |db.orders| && Empty(db, i) && db.orders[i].status != Delivered && to != Delivered
    ensures var moved := Transitioned(db, i, from, to, f);
            GoodsStep(db, if deep then Deliver(moved, i, now) else moved, i)
  {
    var moved := Transitioned(db, i, from, to, f);
    if deep && moved.orders[i].status in READY_TO_DELIVER {
      DeliverHandsOver(moved, i, now);
    }
  }

  lemma {:induction false} DriveGoods(db: Db, i: nat, added: int, block: int, from: Address, txHash: Hash, head: int, now: Time)
    requires i < |db.orders| && Empty(db, i) && db.orders[i].status != Delivered
    requires db.orders[i].status != Expired ==> db.orders[i].paid + added >= db.orders[i].expected
    ensures GoodsStep(db, DriveState(db, i, added, block, from, txHash, head, now), i)
  {
    DriveStateSteps(db, i, added, block, from, txHash, head, now);
    DriveStepGoods(db, i, CreditFields(db.orders[i], added, block, from, txHash), db.orders[i].paid + added - db.orders[i].expected, Deep(head, block), now);
  }

  lemma {:induction false} DriveStepGoods(db: Db, i: nat, f: Fields, over: int, deep: bool, now: Time)
    requires i < |db.orders| && Empty(db, i) && db.orders[i].status != Delivered
    ensures var to := if !deep then Detected else if over > 0 then Overpaid else Confirmed;
            var moved := if db.orders[i].status == Expired then Transitioned(db, i, {Expired}, LatePaid, f)
                         else Transitioned(db, i, IN_FLIGHT, to, f.(over := Some(over)));
            GoodsStep(db, if deep then Deliver(moved, i, now) else moved, i)
  {
    if db.orders[i].status == Expired {
      CreditGoods(db, i, {Expired}, LatePaid, f, deep, now);
    } else {
      CreditGoods(db, i, IN_FLIGHT, if !deep then Detected else if over > 0 then Overpaid else Confirmed, f.(over := Some(over)), deep, now);
    }
  }

  lemma DriveKeepsGoods(db: Db, i: nat, added: int, block: int, from: Address, txHash: Hash, head: int, now: Time)
    requires i < |db.orders| && (db.orders[i].status != Expired ==> db.orders[i].paid + added >= db.orders[i].expected)
    ensures DriveState(db, i, added, block, from, txHash, head, now).deliverables == db.deliverables
  {
    DriveStateSteps(db, i, added, block, from, txHash, head, now);
  }

  /** What a row records of incoming transfers does not touch its goods. */
  lemma RecordedStep(db: Db, ts: seq<Transfer>, db': Db, i: nat)
    requires i < |db.orders| && GoodsStep(db.(transfers := ts), db', i) && db.orders[i].status != Delivered
    ensures GoodsStep(db, db', i)
  {
  }

  lemma NeverShort(db: Db, i: nat)
    requires Inv(db) && i < |db.orders| && Creditable(db.orders[i])
    ensures db.orders[i].paid >= 0
  {
    assert Ok(ViewOf(db, i));
  }

  // ------------------------------------------------------------ the crediting commits

  lemma LogGoods(db: Db, network: Network, l: Log, head: int, now: Time, i: nat)
    requires Inv(db) && i < |db.orders| && db.orders[i].channel == Web
    ensures GoodsStep(db, ProcessLog(db, network, l, head, now), i)
  {
    ProcessLogOk(db, network, l, head, now);
    if Credits(db, network, l, now) {
      var m := MatchOrder(db.orders, network, l.to, l.value, now).value;
      var recorded := db.(transfers := db.transfers + [RowFor(m, db.orders[m].payTo, l)]);
      NeverShort(db, m);
      DriveKeepsGoods(recorded, m, l.value, l.block, l.from, l.txHash, head, now);
      if i == m {
        NothingYet(db, m);
        DriveGoods(recorded, m, l.value, l.block, l.from, l.txHash, head, now);
        RecordedStep(db, recorded.transfers, ProcessLog(db, network, l, head, now), i);
      } else {
        SameViewStep(db, ProcessLog(db, network, l, head, now), i);
      }
    }
  }

  lemma {:induction false} FoldGoods(db: Db, network: Network, logs: seq<Log>, head: int, now: Time, i: nat)
    requires Inv(db) && i < |db.orders| && db.orders[i].channel == Web
    ensures GoodsStep(db, Fold(db, network, logs, head, now), i)
    decreases |logs|
  {
    if logs != [] {
      var mid := ProcessLog(db, network, logs[0], head, now);
      LogGoods(db, network, logs[0], head, now, i);
      ProcessLogOk(db, network, logs[0], head, now);
      assert Evolves(db.orders[i], mid.orders[i]);
      FoldGoods(mid, network, logs[1..], head, now, i);
      FoldOk(mid, network, logs[1..], head, now);
      var db' := Fold(mid, network, logs[1..], head, now);
      assert SweptOrder(mid.orders[i], db'.orders[i], mid.transfers, network, logs[1..], head);
      GoodsTrans(db, mid, db', i);
    }
  }

  lemma SubmitGoods(db: Db, k: nat, t: Hash, v: ChainView, now: Time, i: nat)
    requires Inv(db) && i < |db.orders| && db.orders[i].channel == Web
    ensures GoodsStep(db, Step(db, Submit(k, t, v, now)), i)
  {
    if k < |db.orders| {
      VerifyTxOk(db, k, t, v, now);
      if Accepted(db, k, t, v, now) {
        AcceptedMeans(db, k, t, v, now);
        NeverShort(db, k);
        var s := ScanLogs(db, k, v.asset.value, v.receipt.value.logs).unseen;
        var recorded := db.(transfers := db.transfers + RowsFor(k, db.orders[k].payTo, s));
        DriveKeepsGoods(recorded, k, db.orders[k].expected, s[0].block, s[0].from, t, v.head.value, now);
        if i == k {
          NothingYet(db, k);
          DriveGoods(recorded, k, db.orders[k].expected, s[0].block, s[0].from, t, v.head.value, now);
          RecordedStep(db, recorded.transfers, VerifyTx(db, k, t, v, now).0, i);
        } else {
          SameViewStep(db, VerifyTx(db, k, t, v, now).0, i);
        }
      }
    }
  }

  lemma PromoteGoods(db: Db, i: nat, now: Time)
    requires Inv(db) && i < |db.orders| && db.orders[i].channel == Web && db.orders[i].status in {Detected, LatePaid}
    ensures GoodsStep(db, Promote(db, i, now), i)
  {
    NothingYet(db, i);
    var o := db.orders[i];
    var to := if o.status == LatePaid then LatePaid else if o.paid - o.expected > 0 then Overpaid else Confirmed;
    var confirmed := Transitioned(db, i, {Detected}, to, NO_FIELDS);
    assert confirmed.orders == db.orders || o.status == Detected;
    CreditGoods(db, i, {Detected}, to, NO_FIELDS, true, now);
  }

  lemma PromoteDeliverables(db: Db, i: nat, now: Time)
    requires i < |db.orders|
    ensures Promote(db, i, now).deliverables == db.deliverables
  {
  }

  lemma PollGoods(db: Db, k: nat, v: ChainView, now: Time, i: nat)
    requires Inv(db) && i < |db.orders| && db.orders[i].channel == Web
    ensures GoodsStep(db, Step(db, Poll(k, v, now)), i)
  {
    if k < |db.orders| {
      if i != k {
        OtherPollGoods(db, k, v, now, i);
      } else {
        OwnPollGoods(db, i, v, now);
      }
    } else {
      SameViewStep(db, db, i);
    }
  }

  lemma OtherPollGoods(db: Db, k: nat, v: ChainView, now: Time, i: nat)
    requires Inv(db) && i < |db.orders| && k < |db.orders| && i != k
    ensures GoodsStep(db, Refresh(db, k, v, now), i)
  {
    RefreshOk(db, k, v, now);
    PromoteDeliverables(db, k, now);
    SameViewStep(db, Refresh(db, k, v, now), i);
  }

  lemma {:induction false} OwnPollGoods(db: Db, i: nat, v: ChainView, now: Time)
    requires Inv(db) && i < |db.orders| && db.orders[i].channel == Web
    ensures GoodsStep(db, Refresh(db, i, v, now), i)
  {
    var o, db' := db.orders[i], Refresh(db, i, v, now);
    if db' == Promote(db, i, now) && o.status in {Detected, LatePaid} {
      PromoteGoods(db, i, now);
    } else if o.status == Pending {
      MoveGoods(db, i, {Pending}, Expired);
    } else if db' == MarkReorged(db, i) {
      MoveGoods(db, i, {Detected, LatePaid}, Reorged);
    } else {
      SameViewStep(db, db', i);
    }
  }

  lemma MoveGoods(db: Db, i: nat, from: set<Status>, to: Status)
    requires i < |db.orders| && to != Delivered && Delivered !in from
    ensures GoodsStep(db, Transitioned(db, i, from, to, NO_FIELDS), i)
    ensures GoodsStep(db, db, i)
  {
  }

  lemma {:induction false} PromoteOneGoods(db: Db, k: nat, want: Status, network: Network, asset: Option<Address>, head: int, receipts: Receipts, now: Time, i: nat)
    requires Inv(db) && k < |db.orders| && i < |db.orders| && db.orders[i].channel == Web
    ensures GoodsStep(db, PromoteOne(db, k, want, network, asset, head, receipts, now), i)
  {
    var db' := PromoteOne(db, k, want, network, asset, head, receipts, now);
    PromoteOneOk(db, k, want, network, asset, head, receipts, now);
    PromoteDeliverables(db, k, now);
    if i != k {
      SameViewStep(db, db', i);
    } else if db.orders[i].status in {Detected, LatePaid} {
      PromoteGoods(db, i, now);
    }
  }

  lemma {:induction false} PassGoods(db: Db, n: nat, want: Status, network: Network, asset: Option<Address>, head: int, receipts: Receipts, now: Time, i: nat) returns (db': Db)
    requires Inv(db) && n <= |db.orders| && i < |db.orders| && db.orders[i].channel == Web
    ensures db' == PromotePass(db, n, want, network, asset, head, receipts, now)
    ensures GoodsStep(db, db', i)
  {
    if n == 0 {
      db' := db;
      SameViewStep(db, db, i);
    } else {
      var prior := PassGoods(db, n - 1, want, network, asset, head, receipts, now, i);
      PriorPass(db, prior, n - 1, want, network, asset, head, receipts, now);
      db' := PromoteOne(prior, n - 1, want, network, asset, head, receipts, now);
      OneMoreGoods(db, prior, db', n - 1, want, network, asset, head, receipts, now, i);
    }
  }

  lemma {:induction false} PriorPass(db: Db, prior: Db, k: nat, want: Status, network: Network, asset: Option<Address>, head: int, receipts: Receipts, now: Time)
    requires Inv(db) && k < |db.orders| && prior == PromotePass(db, k, want, network, asset, head, receipts, now)
    ensures Inv(prior) && Progress(db, prior) && |prior.orders| == |db.orders|
  {
    var same := PromotePassOk(db, k, want, network, asset, head, receipts, now);
  }

  lemma {:induction false} OneMoreGoods(db: Db, prior: Db, db': Db, k: nat, want: Status, network: Network, asset: Option<Address>, head: int, receipts: Receipts, now: Time, i: nat)
    requires i < |db.orders| && db.orders[i].channel == Web && Progress(db, prior) && GoodsStep(db, prior, i)
    requires Inv(prior) && k < |prior.orders| && db' == PromoteOne(prior, k, want, network, asset, head, receipts, now)
    ensures GoodsStep(db, db', i)
  {
    assert Evolves(db.orders[i], prior.orders[i]);
    PromoteOneOk(prior, k, want, network, asset, head, receipts, now);
    PromoteOneGoods(prior, k, want, network, asset, head, receipts, now, i);
    assert Evolves(prior.orders[i], db'.orders[i]);
    GoodsTrans(db, prior, db', i);
  }

  lemma {:induction false} MatureGoods(db: Db, network: Network, asset: Option<Address>, head: int, receipts: Receipts, now: Time, i: nat)
    requires Inv(db) && i < |db.orders| && db.orders[i].channel == Web
    ensures GoodsStep(db, PromoteMatured(db, network, asset, head, receipts, now), i)
  {
    var mid := PassGoods(db, |db.orders|, Detected, network, asset, head, receipts, now, i);
    var same := PromotePassOk(db, |db.orders|, Detected, network, asset, head, receipts, now);
    assert Evolves(db.orders[i], mid.orders[i]);
    var db' := PassGoods(mid, |db.orders|, LatePaid, network, asset, head, receipts, now, i);
    var again := PromotePassOk(mid, |db.orders|, LatePaid, network, asset, head, receipts, now);
    assert Evolves(mid.orders[i], db'.orders[i]);
    GoodsTrans(db, mid, db', i);
  }

  // ------------------------------------------------------------ what every delivery hands over

  /** Whichever commit delivers a web order, it writes the kind and an unrevoked entitlement, in the
      payer's name, of the newest active deliverable of the order's own product; without one, of the
      store's newest active default; and without that either, the standard text and no entitlement. */
  lemma {:induction false} DeliveryHandsOver(db: Db, a: Action, i: nat)
    requires Inv(db) && Legal(a) && i < |db.orders| && db.orders[i].channel == Web
    requires i < |Step(db, a).orders| && NewlyDelivered(db.orders[i], Step(db, a).orders[i])
    ensures HandedOver(db.deliverables, ViewOf(Step(db, a), i))
  {
    match a
    case Window(net, logs, head, now, upTo) => FoldGoods(db, net, logs, head, now, i);
    case Submit(k, t, v, now) => SubmitGoods(db, k, t, v, now, i);
    case Poll(k, v, now) => PollGoods(db, k, v, now, i);
    case Mature(net, asset, head, receipts, now) => MatureGoods(db, net, asset, head, receipts, now, i);
    case _ => OthersNeverDeliver(db, a, i);
  }

  /** An agent order is handed the same at its purchase. */
  lemma PurchaseHandsOver(db: Db, p: Purchase, now: Time)
    requires Inv(db) && p.price > 0 && Fulfill(db, p, now).1.Fresh?
    ensures var db' := Fulfill(db, p, now).0;
            |db'.orders| == |db.orders| + 1 && HandedOver(db.deliverables, ViewOf(db', |db.orders|))
  {
    var n := |db.orders|;
    ByNonceFacts(db.orders, p.nonce, 0);
    FulfillOk(db, p, now);
    var born := db.(orders := db.orders + [BornConfirmed(p, now)]);
    assert n !in db.deliveries && n !in db.entitlements;
    DeliverHandsOver(born, n, now);
    var delivered := Deliver(born, n, now);
    var db' := Fulfill(db, p, now).0;
    assert db' == Transitioned(delivered, n, TERMINAL_DELIVERED, Settling, NO_FIELDS);
    forall d: nat
      ensures Owes(db.deliverables, db'.orders[n], d) <==> Owes(db.deliverables, delivered.orders[n], d)
    {
    }
  }
}
