/** What the checkout promises, over every run from an empty database. */
module CheckoutTheorems {
  import opened Prelude
  import opened CheckoutLedger
  import opened CheckoutInvariant
  import opened CheckoutSteps
  import opened AgentSteps
  import opened CheckoutRuns

  // ------------------------------------------------------------ reachable states

  /** Every reachable state satisfies the joint invariant. */
  lemma ReachableOk(acts: seq<Action>)
    requires AllLegal(acts)
    ensures Inv(Run(EMPTY, acts))
  {
    EmptyOk();
    RunOk(EMPTY, acts);
  }

  /** One transfer pays one order: two recorded rows never share a transfer log. */
  lemma OneTransferOneOrder(acts: seq<Action>, a: nat, b: nat)
    requires AllLegal(acts)
    requires var ts := Run(EMPTY, acts).transfers;
             a < |ts| && b < |ts| && ts[a].txHash == ts[b].txHash && ts[a].logIndex == ts[b].logIndex
    ensures a == b
  {
    ReachableOk(acts);
  }

  /** A delivered web order was paid in full by recorded transfers, has its Delivery row, and
      fired each of its sale effects exactly once; an undelivered, unrefunded one fired none. */
  lemma WebDeliveredOnce(acts: seq<Action>, i: nat)
    requires AllLegal(acts) && i < |Run(EMPTY, acts).orders| && Run(EMPTY, acts).orders[i].channel == Web
    ensures var db := Run(EMPTY, acts);
            var o := db.orders[i];
            && o.paid <= Received(db.transfers, i)
            && (o.status == Delivered ==>
                  o.paid >= o.expected && i in db.deliveries &&
                  db.effects[OrderPaid(i)] == db.effects[OrderDelivered(i)] == db.effects[Accrual(i)] == 1)
            && (o.status !in {Delivered, Refunded} ==>
                  i !in db.deliveries && i !in db.entitlements &&
                  db.effects[OrderPaid(i)] == db.effects[OrderDelivered(i)] == db.effects[Accrual(i)] == 0)
  {
    ReachableOk(acts);
    assert Ok(ViewOf(Run(EMPTY, acts), i));
  }

  /** The underpaid state, and the branches that resolve it, are never entered: only exact
      amounts are ever credited. No commit leaves an order between paid and delivered either. */
  lemma UnderpaidUnreachable(acts: seq<Action>, i: nat)
    requires AllLegal(acts) && i < |Run(EMPTY, acts).orders|
    ensures Run(EMPTY, acts).orders[i].status !in {Underpaid, Confirmed, Overpaid, Paid}
  {
    ReachableOk(acts);
    assert Ok(ViewOf(Run(EMPTY, acts), i));
  }

  // ------------------------------------------------------------ conservation

  /** The one commit that records a transfer without crediting it: a second exact payment
      submitted to an order that is already late-paid. */
  ghost predicate LeaksTo(db: Db, a: Action, i: nat)
    requires i < |db.orders|
  {
    a.Submit? && a.order == i && db.orders[i].status == LatePaid && Accepted(db, i, a.txHash, a.view, a.at)
  }

  ghost function Leaks(db: Db, acts: seq<Action>, i: nat): nat
    decreases |acts|
  {
    if acts == [] then 0
    else (if i < |db.orders| && LeaksTo(db, acts[0], i) then 1 else 0) + Leaks(Step(db, acts[0]), acts[1..], i)
  }

  lemma {:induction false} SurplusStep(db: Db, a: Action, i: nat)
    requires Inv(db) && Legal(a) && i < |db.orders| && db.orders[i].channel == Web
    ensures i < |Step(db, a).orders|
    ensures Surplus(Step(db, a), i) == Surplus(db, i) + if LeaksTo(db, a, i) then db.orders[i].expected else 0
  {
    if a.Submit? {
      SubmitSurplus(db, a.order, a.txHash, a.view, a.at, i);
    } else if a.Relist? || a.Settle? || a.Reconcile? || a.ReconcileFailed? {
      AgentSurplus(db, a, i);
    } else if a.Poll? || a.Refund? || a.Create? || a.Window? {
      BuyerSurplus(db, a, i);
    } else {
      TimerSurplus(db, a, i);
    }
  }

  lemma {:induction false} BuyerSurplus(db: Db, a: Action, i: nat)
    requires Inv(db) && i < |db.orders| && (a.Poll? || a.Refund? || a.Create? || a.Window?) && Legal(a)
    ensures i < |Step(db, a).orders| && Surplus(Step(db, a), i) == Surplus(db, i)
  {
    match a
    case Window(net, logs, head, now, upTo) => FoldOk(db, net, logs, head, now);
    case Create(c, draws, now) => FirstDraw(db, c, draws, now);
    case Poll(k, v, now) => PollSurplus(db, k, v, now, i);
    case Refund(k, sent) => RefundSurplus(db, k, sent, i);
  }

  lemma {:induction false} ExpirySurplus(db: Db, now: Time, i: nat)
    requires Inv(db) && i < |db.orders|
    ensures var db' := Step(db, Expiry(now)); |db'.orders| == |db.orders| && Surplus(db', i) == Surplus(db, i)
  {
    ExpireAndReleaseOk(db, now);
  }

  lemma {:induction false} MatureSurplus(db: Db, a: Action, i: nat)
    requires Inv(db) && i < |db.orders| && a.Mature?
    ensures var db' := Step(db, a); |db'.orders| == |db.orders| && Surplus(db', i) == Surplus(db, i)
  {
    PromoteMaturedOk(db, a.network, a.asset, a.head, a.receipts, a.at);
  }

  lemma {:induction false} BuySurplus(db: Db, p: Purchase, now: Time, i: nat)
    requires Inv(db) && i < |db.orders| && p.price > 0
    ensures var db' := Step(db, Buy(p, now)); i < |db'.orders| && Surplus(db', i) == Surplus(db, i)
  {
    FulfillOk(db, p, now);
  }

  lemma {:induction false} ReapSurplus(db: Db, a: Action, i: nat)
    requires Inv(db) && i < |db.orders| && db.orders[i].channel == Web && a.ReapTick?
    ensures var db' := Step(db, a); |db'.orders| == |db.orders| && Surplus(db', i) == Surplus(db, i)
  {
    if a.chainScanned {
      var db' := ReapFirstOk(db, |db.orders|, a.scanned, a.cutoff);
    }
  }

  lemma {:induction false} SettleFailureSurplus(db: Db, nonce: Hash, i: nat)
    requires Inv(db) && i < |db.orders| && db.orders[i].channel == Web
    ensures var db' := Step(db, SettleFailure(nonce)); |db'.orders| == |db.orders| && Surplus(db', i) == Surplus(db, i)
  {
    SettleFailedOk(db, nonce);
    assert Ok(ViewOf(db, i));
  }

  /** Background work and agent calls leave a web order's paid amount and transfers alone. */
  lemma {:induction false} TimerSurplus(db: Db, a: Action, i: nat)
    requires Inv(db) && Legal(a) && i < |db.orders| && db.orders[i].channel == Web
    requires a.Expiry? || a.Mature? || a.Buy? || a.ReapTick? || a.SettleFailure?
    ensures i < |Step(db, a).orders| && Surplus(Step(db, a), i) == Surplus(db, i)
  {
    match a
    case Expiry(now) => ExpirySurplus(db, now, i);
    case Mature(_, _, _, _, _) => MatureSurplus(db, a, i);
    case Buy(p, now) => BuySurplus(db, p, now, i);
    case ReapTick(_, _, _) => ReapSurplus(db, a, i);
    case SettleFailure(nonce) => SettleFailureSurplus(db, nonce, i);
  }

  lemma SubmitSurplus(db: Db, k: nat, t: Hash, v: ChainView, now: Time, i: nat)
    requires Inv(db) && i < |db.orders| && db.orders[i].channel == Web
    ensures var a := Submit(k, t, v, now);
            |Step(db, a).orders| == |db.orders| &&
            Surplus(Step(db, a), i) == Surplus(db, i) + if LeaksTo(db, a, i) then db.orders[i].expected else 0
  {
    if k < |db.orders| {
      VerifyTxOk(db, k, t, v, now);
      var db' := VerifyTx(db, k, t, v, now).0;
      assert Ok(ViewOf(db, i));
      if Accepted(db, k, t, v, now) && k != i {
        assert ViewOf(db', i) == ViewOf(db, i);
      }
    }
  }

  lemma PollSurplus(db: Db, k: nat, v: ChainView, now: Time, i: nat)
    requires Inv(db) && i < |db.orders|
    ensures var db' := Step(db, Poll(k, v, now));
            |db'.orders| == |db.orders| && Surplus(db', i) == Surplus(db, i)
  {
    if k < |db.orders| {
      RefreshOk(db, k, v, now);
      if k != i {
        assert ViewOf(Refresh(db, k, v, now), i) == ViewOf(db, i);
      }
    }
  }

  lemma RefundSurplus(db: Db, k: nat, sent: int, i: nat)
    requires Inv(db) && i < |db.orders|
    ensures var db' := Step(db, Refund(k, sent));
            |db'.orders| == |db.orders| && Surplus(db', i) == Surplus(db, i)
  {
    if k < |db.orders| {
      RefundFullOk(db, k, sent);
      var db' := RefundFull(db, k, sent);
      if k != i {
        assert ViewOf(db', i) == ViewOf(db, i);
      } else if db' != db {
        RefundView(db, k, sent);
      }
    }
  }

  lemma AgentSurplus(db: Db, a: Action, i: nat)
    requires Inv(db) && i < |db.orders| && db.orders[i].channel == Web
    requires a.Relist? || a.Settle? || a.Reconcile? || a.ReconcileFailed?
    ensures |Step(db, a).orders| == |db.orders| && Surplus(Step(db, a), i) == Surplus(db, i)
  {
    match a
    case Relist(ds) =>
    case Settle(k, t, pending) => if k < |db.orders| { SettleSurplus(db, k, t, pending, i); }
    case Reconcile(k, t) => if k < |db.orders| { ReconcileSurplus(db, k, t, i); }
    case ReconcileFailed(k) => if k < |db.orders| { VoidSurplus(db, k, i); }
  }

  lemma SettleSurplus(db: Db, k: nat, t: Option<Hash>, pending: bool, i: nat)
    requires Inv(db) && k < |db.orders| && i < |db.orders| && db.orders[i].channel == Web
    ensures var db' := RecordSettlement(db, k, t, pending); |db'.orders| == |db.orders| && Surplus(db', i) == Surplus(db, i)
  {
    assert Ok(ViewOf(db, i));
    RecordSettlementOk(db, k, t, pending);
    if k != i { assert ViewOf(RecordSettlement(db, k, t, pending), i) == ViewOf(db, i); }
  }

  lemma ReconcileSurplus(db: Db, k: nat, t: Hash, i: nat)
    requires Inv(db) && k < |db.orders| && i < |db.orders| && db.orders[i].channel == Web
    ensures var db' := ReconcileFinalize(db, k, t); |db'.orders| == |db.orders| && Surplus(db', i) == Surplus(db, i)
  {
    assert Ok(ViewOf(db, i));
    ReconcileFinalizeOk(db, k, t);
    if k != i { assert ViewOf(ReconcileFinalize(db, k, t), i) == ViewOf(db, i); }
  }

  lemma VoidSurplus(db: Db, k: nat, i: nat)
    requires Inv(db) && k < |db.orders| && i < |db.orders| && db.orders[i].channel == Web
    ensures var db' := VoidSettling(db, k); |db'.orders| == |db.orders| && Surplus(db', i) == Surplus(db, i)
  {
    assert Ok(ViewOf(db, i));
    VoidSettlingOk(db, k);
    if k != i { assert ViewOf(VoidSettling(db, k), i) == ViewOf(db, i); }
  }

  /** A commit that adds an order adds it with nothing received and nothing credited. */
  lemma BornEven(db: Db, a: Action, i: nat)
    requires Inv(db) && Legal(a) && |db.orders| <= i < |Step(db, a).orders|
    ensures Surplus(Step(db, a), i) == 0
  {
    NothingReceived(db.transfers, i);
    match a
    case Create(c, draws, now) =>
      FirstDraw(db, c, draws, now);
      var k :| 0 <= k < |draws| && Drawn(db, c, draws, k, now, Step(db, a));
      assert Step(db, a).orders[i] == NewOrder(c, c.base + draws[k], now);
    case Buy(p, now) =>
      FulfillOk(db, p, now);
      assert Step(db, a).orders[i] == Provisional(p, now);
    case _ => OnlyCreationAdds(db, a);
  }

  /** The surplus of an order that may not exist yet. */
  ghost function SurplusSoFar(db: Db, i: nat): int {
    if i < |db.orders| then Surplus(db, i) else 0
  }

  ghost function LeakNow(db: Db, a: Action, i: nat): nat {
    if i < |db.orders| && LeaksTo(db, a, i) then 1 else 0
  }

  lemma {:induction false} SurplusHead(db: Db, a: Action, next: Db, i: nat, expected: int)
    requires Inv(db) && Legal(a) && next == Step(db, a)
    requires i < |next.orders| ==> next.orders[i].channel == Web && next.orders[i].expected == expected
    ensures SurplusSoFar(next, i) == SurplusSoFar(db, i) + if LeakNow(db, a, i) == 1 then expected else 0
  {
    RowStep(db, a, i);
    if i < |db.orders| {
      SurplusStep(db, a, i);
    } else if i < |next.orders| {
      BornEven(db, a, i);
    }
  }

  lemma LeakTimes(x: int, d: nat, n: nat)
    requires d <= 1
    ensures x * (d + n) == (if d == 1 then x else 0) + x * n
  {
  }

  /** One order across one commit. */
  lemma {:induction false} RowStep(db: Db, a: Action, i: nat)
    requires Inv(db) && Legal(a)
    ensures |db.orders| <= |Step(db, a).orders|
    ensures i < |db.orders| ==> Ok(ViewOf(db, i)) && Evolves(db.orders[i], Step(db, a).orders[i])
  {
    StepOk(db, a);
  }

  /** The surplus of the rest of a run, put after the surplus of its first commit. */
  lemma JoinSurplus(first: int, mid: int, last: int, e: int, d: nat, rest: nat)
    requires d <= 1 && mid == first + (if d == 1 then e else 0) && last == mid + e * rest
    ensures last == first + e * (d + rest)
  {
    LeakTimes(e, d, rest);
  }

  lemma {:induction false} SurplusRun(db: Db, acts: seq<Action>, i: nat)
    requires Inv(db) && AllLegal(acts) && i < |Run(db, acts).orders| && Run(db, acts).orders[i].channel == Web
    ensures SurplusSoFar(Run(db, acts), i) == SurplusSoFar(db, i) + Run(db, acts).orders[i].expected * Leaks(db, acts, i)
    decreases |acts|
  {
    if acts != [] {
      var next, rest := Step(db, acts[0]), acts[1..];
      var end := Run(next, rest);
      StepOk(db, acts[0]);
      IdentityRun(next, rest, i);
      SurplusRun(next, rest, i);
      SurplusHead(db, acts[0], next, i, end.orders[i].expected);
      JoinSurplus(SurplusSoFar(db, i), SurplusSoFar(next, i), SurplusSoFar(end, i), end.orders[i].expected,
                  LeakNow(db, acts[0], i), Leaks(next, rest, i));
    }
  }

  lemma {:induction false} IdentityRun(db: Db, acts: seq<Action>, i: nat)
    requires Inv(db) && AllLegal(acts)
    ensures |db.orders| <= |Run(db, acts).orders|
    ensures i < |db.orders| ==> SameIdentity(db.orders[i], Run(db, acts).orders[i])
    decreases |acts|
  {
    if acts != [] {
      StepOk(db, acts[0]);
      if i < |db.orders| {
        assert Evolves(db.orders[i], Step(db, acts[0]).orders[i]);
      }
      IdentityRun(Step(db, acts[0]), acts[1..], i);
    }
  }

  /** Conservation, exactly: what a web order received is what it was credited plus one
      amount due per leak; so the two are equal precisely on runs without a leak. */
  lemma Conservation(acts: seq<Action>, i: nat)
    requires AllLegal(acts) && i < |Run(EMPTY, acts).orders| && Run(EMPTY, acts).orders[i].channel == Web
    ensures var db := Run(EMPTY, acts);
            var o := db.orders[i];
            && Received(db.transfers, i) == o.paid + o.expected * Leaks(EMPTY, acts, i)
            && (Received(db.transfers, i) == o.paid <==> Leaks(EMPTY, acts, i) == 0)
  {
    EmptyOk();
    SurplusRun(EMPTY, acts, i);
    ReachableOk(acts);
    assert Ok(ViewOf(Run(EMPTY, acts), i));
    PositiveProduct(Run(EMPTY, acts).orders[i].expected, Leaks(EMPTY, acts, i));
  }

  lemma PositiveProduct(x: int, n: nat)
    requires x > 0
    ensures x * n == 0 <==> n == 0
  {
  }

  // ------------------------------------------------------------ every delivery is justified

  /** Evidence, in the state and the action of one commit, for delivering web order i. */
  ghost predicate Justified(db: Db, a: Action, i: nat)
    requires i < |db.orders|
  {
    var o := db.orders[i];
    match a
    case Window(net, logs, head, _, _) => PaidDeepBy(o, db.transfers, net, logs, head)
    case Submit(k, t, v, now) =>
      && k == i && v.asset.Some? && v.receipt.Some? && v.head.Some? && v.receipt.value.succeeded
      && var s := ScanLogs(db, i, v.asset.value, v.receipt.value.logs);
      && s.Clean? && s.unseen != [] && Total(s.unseen) == o.expected && Deep(v.head.value, s.unseen[0].block)
      && forall j :: 0 <= j < |s.unseen| ==>
           && RawLog(v.asset.value, true, s.unseen[j]) in v.receipt.value.logs && s.unseen[j].to == o.payTo
           && !Recorded(db.transfers, s.unseen[j].txHash, s.unseen[j].logIndex)
    case Poll(k, v, _) =>
      k == i && v.asset.Some? && v.head.Some? && RevalidatedDeep(db, i, v.asset.value, v.receipt, v.head.value)
    case Mature(net, asset, head, receipts, _) =>
      o.network == net && asset.Some? && RevalidatedDeep(db, i, asset.value, ReceiptOf(o, receipts), head)
    case _ => false
  }

  /** An order credited in full earlier, deep at its recorded block, whose receipt still stands there. */
  ghost predicate RevalidatedDeep(db: Db, i: nat, asset: Address, receipt: Option<Receipt>, head: int)
    requires i < |db.orders|
  {
    var o := db.orders[i];
    && Matured(o, head)
    && Received(db.transfers, i) >= o.paid >= o.expected
    && ReceiptStillValid(o, asset, receipt)
  }

  /** No commit delivers a web order without that evidence. */
  lemma {:induction false} DeliveryJustified(db: Db, a: Action, i: nat)
    requires Inv(db) && Legal(a) && i < |db.orders| && db.orders[i].channel == Web
    requires i < |Step(db, a).orders| && NewlyDelivered(db.orders[i], Step(db, a).orders[i])
    ensures Justified(db, a, i)
  {
    match a
    case Window(net, logs, head, now, upTo) => FoldOk(db, net, logs, head, now);
    case Submit(k, t, v, now) => SubmitJustified(db, k, t, v, now, i);
    case Poll(k, v, now) => PollJustified(db, k, v, now, i);
    case Mature(net, asset, head, receipts, now) => MatureJustified(db, net, asset, head, receipts, now, i);
    case _ => OthersNeverDeliver(db, a, i);
  }

  lemma SubmitJustified(db: Db, k: nat, t: Hash, v: ChainView, now: Time, i: nat)
    requires Inv(db) && i < |db.orders| && db.orders[i].channel == Web
    ensures var a := Submit(k, t, v, now);
            |Step(db, a).orders| == |db.orders| && (NewlyDelivered(db.orders[i], Step(db, a).orders[i]) ==> Justified(db, a, i))
  {
    if k < |db.orders| {
      VerifyTxOk(db, k, t, v, now);
      var db' := VerifyTx(db, k, t, v, now).0;
      assert k != i ==> ViewOf(db', i).o == ViewOf(db, i).o;
      if k == i && Accepted(db, k, t, v, now) {
        ScanFacts(db, i, v.asset.value, v.receipt.value.logs);
      }
    }
  }

  lemma CreditedInFull(db: Db, i: nat)
    requires Inv(db) && i < |db.orders| && db.orders[i].channel == Web && db.orders[i].status in {Detected, LatePaid}
    ensures Received(db.transfers, i) >= db.orders[i].paid >= db.orders[i].expected
  {
    assert Ok(ViewOf(db, i));
  }

  lemma PollJustified(db: Db, k: nat, v: ChainView, now: Time, i: nat)
    requires Inv(db) && i < |db.orders| && db.orders[i].channel == Web
    ensures var a := Poll(k, v, now);
            |Step(db, a).orders| == |db.orders| && (NewlyDelivered(db.orders[i], Step(db, a).orders[i]) ==> Justified(db, a, i))
  {
    if k < |db.orders| {
      RefreshOk(db, k, v, now);
      assert k != i ==> ViewOf(Refresh(db, k, v, now), i).o == ViewOf(db, i).o;
      if k == i && db.orders[i].status in {Detected, LatePaid} {
        CreditedInFull(db, i);
      }
    }
  }

  lemma MatureJustified(db: Db, network: Network, asset: Option<Address>, head: int, receipts: Receipts, now: Time, i: nat)
    requires Inv(db) && i < |db.orders| && db.orders[i].channel == Web
    ensures var a := Mature(network, asset, head, receipts, now);
            |Step(db, a).orders| == |db.orders| && (NewlyDelivered(db.orders[i], Step(db, a).orders[i]) ==> Justified(db, a, i))
  {
    PromoteMaturedOk(db, network, asset, head, receipts, now);
    if db.orders[i].status in {Detected, LatePaid} {
      CreditedInFull(db, i);
    }
  }

  /** Creation, expiry, refunds and every agent commit leave undelivered web orders undelivered. */
  lemma {:induction false} OthersNeverDeliver(db: Db, a: Action, i: nat)
    requires Inv(db) && Legal(a) && i < |db.orders| && db.orders[i].channel == Web
    requires !a.Window? && !a.Submit? && !a.Poll? && !a.Mature?
    ensures i < |Step(db, a).orders| && !NewlyDelivered(db.orders[i], Step(db, a).orders[i])
  {
    assert Ok(ViewOf(db, i));
    match a
    case Expiry(now) => ExpireAndReleaseOk(db, now);
    case Refund(k, sent) => RefundNeverDelivers(db, k, sent, i);
    case Create(c, draws, now) => FirstDraw(db, c, draws, now);
    case Buy(p, now) => FulfillOk(db, p, now);
    case SettleFailure(nonce) => SettleFailedOk(db, nonce);
    case ReapTick(chainScanned, scanned, cutoff) =>
      if chainScanned { var _ := ReapFirstOk(db, |db.orders|, scanned, cutoff); }
    case _ => AgentOnly(db, a, i);
  }

  lemma RefundNeverDelivers(db: Db, k: nat, sent: int, i: nat)
    requires Inv(db) && i < |db.orders|
    ensures var db' := Step(db, Refund(k, sent)); |db'.orders| == |db.orders| && !NewlyDelivered(db.orders[i], db'.orders[i])
  {
    if k < |db.orders| {
      RefundFullOk(db, k, sent);
      assert k != i ==> ViewOf(RefundFull(db, k, sent), i).o == ViewOf(db, i).o;
    }
  }

  lemma AgentOnly(db: Db, a: Action, i: nat)
    requires Inv(db) && i < |db.orders| && db.orders[i].channel == Web
    requires a.Relist? || a.Settle? || a.Reconcile? || a.ReconcileFailed?
    ensures |Step(db, a).orders| == |db.orders| && Step(db, a).orders[i] == db.orders[i]
  {
    assert Ok(ViewOf(db, i));
    match a
    case Relist(ds) =>
    case Settle(k, t, pending) =>
      if k < |db.orders| {
        RecordSettlementOk(db, k, t, pending);
        if k != i { assert ViewOf(RecordSettlement(db, k, t, pending), i) == ViewOf(db, i); }
      }
    case Reconcile(k, t) =>
      if k < |db.orders| {
        ReconcileFinalizeOk(db, k, t);
        if k != i { assert ViewOf(ReconcileFinalize(db, k, t), i) == ViewOf(db, i); }
      }
    case ReconcileFailed(k) =>
      if k < |db.orders| {
        VoidSettlingOk(db, k);
        if k != i { assert ViewOf(VoidSettling(db, k), i) == ViewOf(db, i); }
      }
  }

  /** A shallow credit waits: promotion needs the re-check to pass, and a failed re-check
      reorgs the order. */
  lemma PromotionRechecks(db: Db, network: Network, asset: Option<Address>, head: int, receipts: Receipts, now: Time, i: nat)
    requires Inv(db) && i < |db.orders| && db.orders[i].status in {Detected, LatePaid}
    ensures var o, db' := db.orders[i], PromoteMatured(db, network, asset, head, receipts, now);
            && |db'.orders| == |db.orders|
            && var due := o.network == network && asset.Some? && Matured(o, head);
            db'.orders[i].status ==
              if !due then o.status
              else if ReceiptStillValid(o, asset.value, ReceiptOf(o, receipts)) then Delivered
              else Reorged
  {
    PromoteMaturedOk(db, network, asset, head, receipts, now);
  }

  // ------------------------------------------------------------ absorbing states

  ghost predicate Absorbing(s: Status) {
    s in {Reorged, Canceled, Refunded}
  }

  /** A dead order stays dead: nothing that happens later delivers or revives it. */
  lemma {:induction false} DeadForever(db: Db, acts: seq<Action>, i: nat)
    requires Inv(db) && AllLegal(acts) && i < |db.orders| && Absorbing(db.orders[i].status)
    ensures i < |Run(db, acts).orders| && Run(db, acts).orders[i].status == db.orders[i].status
    decreases |acts|
  {
    if acts != [] {
      StepOk(db, acts[0]);
      assert Ok(ViewOf(db, i));
      assert Evolves(db.orders[i], Step(db, acts[0]).orders[i]);
      DeadForever(Step(db, acts[0]), acts[1..], i);
    }
  }

  // ------------------------------------------------------------ reserved amounts

  /** Only creation reserves: a commit never moves an existing order into the reserved set. */
  lemma {:induction false} OnlyCreationReserves(db: Db, a: Action, i: nat)
    requires Inv(db) && Legal(a) && i < |db.orders|
    ensures i < |Step(db, a).orders|
    ensures Step(db, a).orders[i].status in RESERVED ==> db.orders[i].status in RESERVED
  {
    RowStep(db, a, i);
    AllowedReserves(db.orders[i].channel, db.orders[i].status, Step(db, a).orders[i].status);
  }

  lemma AllowedReserves(c: Channel, from: Status, to: Status)
    requires Allowed(c, from, to)
    ensures to in RESERVED ==> from in RESERVED
  {
  }

  /** In a reachable state a transfer can credit at most one order, and the sweeper credits it. */
  lemma ReachableMatchIsUnique(acts: seq<Action>, network: Network, payTo: Address, value: int, now: Time, k: nat)
    requires AllLegal(acts) && k < |Run(EMPTY, acts).orders|
    requires Matchable(Run(EMPTY, acts).orders[k], network, payTo, value, now)
    ensures MatchOrder(Run(EMPTY, acts).orders, network, payTo, value, now) == Some(k)
  {
    ReachableOk(acts);
    MatchIsUnique(Run(EMPTY, acts).orders, network, payTo, value, now, k);
  }

  /** When the application check passes, the insert is refused exactly if an expired order whose
      quarantine is over still holds the amount. */
  lemma InsertRefusedIff(orders: seq<Order>, payTo: Address, expected: int, now: Time)
    requires !AmountTaken(orders, payTo, expected, now)
    ensures IndexRefuses(orders, payTo, expected) <==>
            exists k :: 0 <= k < |orders| && SameAmount(orders[k], payTo, expected) &&
                        orders[k].status == Expired && Deadline(orders[k]) + QUARANTINE <= now
  {
    forall k | 0 <= k < |orders| && SameAmount(orders[k], payTo, expected)
      ensures orders[k].status in RESERVED <==> orders[k].status == Expired && Deadline(orders[k]) + QUARANTINE <= now
    {
      assert !HoldsAmount(orders[k], now);
    }
  }

  /** Right after a release at the same instant the application check is enough. */
  lemma ReleasedAmountsAreFree(db: Db, payTo: Address, expected: int, now: Time)
    requires !AmountTaken(ReleaseExpired(db, now).orders, payTo, expected, now)
    ensures !IndexRefuses(ReleaseExpired(db, now).orders, payTo, expected)
  {
    var orders := ReleaseExpired(db, now).orders;
    InsertRefusedIff(orders, payTo, expected, now);
    forall k | 0 <= k < |orders|
      ensures !(orders[k].status == Expired && Deadline(orders[k]) + QUARANTINE <= now)
    {
      assert orders[k] == Released(db.orders[k], now);
    }
  }

  // ------------------------------------------------------------ agent orders

  /** The three finishers exclude each other: in every reachable state an agent order is
      provisional with nothing fired, settled with everything fired once, voided with its
      goods revoked and nothing accrued, or refunded after being settled. */
  lemma AgentOutcome(acts: seq<Action>, i: nat)
    requires AllLegal(acts) && i < |Run(EMPTY, acts).orders| && Run(EMPTY, acts).orders[i].channel == Agent
    ensures var db := Run(EMPTY, acts);
            var o := db.orders[i];
            var fired := (db.effects[OrderPaid(i)], db.effects[OrderDelivered(i)], db.effects[Accrual(i)], db.effects[OrderVoided(i)]);
            && o.status in {Settling, Delivered, Canceled, Refunded}
            && (o.status == Settling ==> fired == (0, 0, 0, 0) && o.paid == 0)
            && (o.status == Delivered ==> fired == (1, 1, 1, 0) && o.paid == o.expected && o.txHash.Some?)
            && (o.status == Canceled ==>
                  fired == (0, 0, 0, 1) && o.paid == 0 && (i in db.entitlements ==> db.entitlements[i].revoked))
            && (o.status == Refunded ==> fired == (1, 1, 1, 0) && (i in db.entitlements ==> db.entitlements[i].revoked))
  {
    ReachableOk(acts);
    assert Ok(ViewOf(Run(EMPTY, acts), i));
  }

  /** An agent order leaves 'settling' at most once, and its settlement hash is final. */
  lemma {:induction false} LeavesSettlingOnce(db: Db, acts: seq<Action>, i: nat)
    requires Inv(db) && AllLegal(acts) && i < |db.orders| && db.orders[i].channel == Agent && db.orders[i].status != Settling
    ensures i < |Run(db, acts).orders|
    ensures var o, o' := db.orders[i], Run(db, acts).orders[i];
            o'.status != Settling && o'.txHash == o.txHash && (o'.status == o.status || (o.status == Delivered && o'.status == Refunded))
    decreases |acts|
  {
    if acts != [] {
      StepOk(db, acts[0]);
      assert Ok(ViewOf(db, i));
      assert Evolves(db.orders[i], Step(db, acts[0]).orders[i]);
      LeavesSettlingOnce(Step(db, acts[0]), acts[1..], i);
    }
  }

  /** One order per authorization nonce, in every reachable state. */
  lemma OneOrderPerNonce(acts: seq<Action>, a: nat, b: nat)
    requires AllLegal(acts)
    requires var os := Run(EMPTY, acts).orders; a < |os| && b < |os| && os[a].nonce.Some? && os[a].nonce == os[b].nonce
    ensures a == b
  {
    ReachableOk(acts);
    SameNonce(Run(EMPTY, acts).orders, a, b);
  }

  /** Replaying a nonce changes nothing; only the same store and payer get the stored order back. */
  lemma ReplayIsInert(acts: seq<Action>, p: Purchase, now: Time, k: nat)
    requires AllLegal(acts) && p.price > 0
    requires k < |Run(EMPTY, acts).orders| && Run(EMPTY, acts).orders[k].nonce == Some(p.nonce)
    ensures var db := Run(EMPTY, acts);
            var o := db.orders[k];
            Fulfill(db, p, now) == (db, if o.storeId == p.storeId && o.fromAddr == Some(p.payer) then Replayed(k) else NonceTaken)
  {
    ReachableOk(acts);
    ByNonceUnique(Run(EMPTY, acts).orders, p.nonce, k);
  }

  /** The reaper voids exactly the provisional orders without a settlement reference that are old
      enough and, when a scan names its orders, were scanned; without a completed scan, none. */
  lemma ReaperVoidsExactly(db: Db, chainScanned: bool, scanned: Option<set<nat>>, cutoff: Time, i: nat)
    requires Inv(db) && i < |db.orders|
    ensures var db' := Reap(db, chainScanned, scanned, cutoff);
            var o := db.orders[i];
            && |db'.orders| == |db.orders|
            && (db'.orders[i] != o <==>
                  chainScanned && o.channel == Agent && o.status == Settling && o.settleRef.None? &&
                  (scanned.Some? ==> i in scanned.value) && o.paidAt.GetOr(o.createdAt) <= cutoff)
            && (db'.orders[i] != o ==> db'.orders[i] == o.(status := Canceled))
  {
    if chainScanned {
      var db' := ReapFirstOk(db, |db.orders|, scanned, cutoff);
    }
  }

  // ------------------------------------------------------------ web credits and agent settlements

  /** A commit never credits a web order with a transaction that already settled an agent order. */
  lemma SettledTxNeverCredited(db: Db, i: nat, txHash: Hash, v: ChainView, now: Time, k: nat)
    requires Inv(db) && i < |db.orders| && db.orders[i].channel == Web
    requires |db.transfers| <= k < |VerifyTx(db, i, txHash, v, now).0.transfers|
    ensures !AgentSettled(db.orders, VerifyTx(db, i, txHash, v, now).0.transfers[k].txHash)
  {
    VerifyTxOk(db, i, txHash, v, now);
    var s := ScanLogs(db, i, v.asset.value, v.receipt.value.logs);
    ScanFacts(db, i, v.asset.value, v.receipt.value.logs);
    assert VerifyTx(db, i, txHash, v, now).0.transfers[k] == RowFor(i, db.orders[i].payTo, s.unseen[k - |db.transfers|]);
    assert Objection(db, i, s.unseen[k - |db.transfers|]).None?;
  }

  lemma SweptTxNotSettled(db: Db, network: Network, l: Log, head: int, now: Time)
    requires Inv(db) && ProcessLog(db, network, l, head, now) != db
    ensures !AgentSettled(db.orders, l.txHash) && !Recorded(db.transfers, l.txHash, l.logIndex)
    ensures ProcessLog(db, network, l, head, now).transfers[|db.transfers|..] == [RowFor(MatchOrder(db.orders, network, l.to, l.value, now).GetOr(0), l.to, l)]
  {
    ProcessLogOk(db, network, l, head, now);
  }
}
