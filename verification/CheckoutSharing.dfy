/** When one transaction ends up paying a web order and settling an agent order, exactly. */
module CheckoutSharing {
  import opened Prelude
  import opened CheckoutLedger
  import opened CheckoutInvariant
  import opened CheckoutSteps
  import opened AgentSteps
  import opened CheckoutRuns
  import opened CheckoutTheorems

  ghost predicate PaidWebAt(db: Db, h: Hash, k: nat) {
    && k < |db.transfers| && db.transfers[k].txHash == h
    && db.transfers[k].orderId < |db.orders| && db.orders[db.transfers[k].orderId].channel == Web
  }

  /** Some transfer of this transaction is recorded for a web order. */
  ghost predicate PaidWeb(db: Db, h: Hash) {
    exists k: nat :: PaidWebAt(db, h, k)
  }

  /** One transaction on both sides. */
  ghost predicate Shared(db: Db, h: Hash) {
    PaidWeb(db, h) && AgentSettled(db.orders, h)
  }

  predicate Names(o: Order, h: Hash) {
    o.channel == Agent && (o.txHash == Some(h) || o.settleRef == Some(h))
  }

  /** The commit writes this transaction on an agent order that is still provisional. */
  predicate Stamps(db: Db, a: Action, h: Hash) {
    match a
    case Settle(i, t, _) => i < |db.orders| && db.orders[i].channel == Agent && db.orders[i].status == Settling && t == Some(h)
    case Reconcile(i, t) => i < |db.orders| && db.orders[i].status == Settling && t == h
    case _ => false
  }

  // ------------------------------------------------------------ the agent side

  /** The row at j is still there and names what it named. */
  ghost predicate SameName(db: Db, db': Db, j: nat) {
    && j < |db.orders| && j < |db'.orders|
    && db'.orders[j].txHash == db.orders[j].txHash && db'.orders[j].settleRef == db.orders[j].settleRef
  }

  /** No commit of the web side touches what an agent row names. */
  lemma {:induction false} WebCommitsKeepNames(db: Db, a: Action, j: nat)
    requires Inv(db) && Legal(a) && j < |db.orders| && db.orders[j].channel == Agent
    requires a.Window? || a.Submit? || a.Poll? || a.Mature? || a.Expiry? || a.Relist?
    ensures SameName(db, Step(db, a), j)
  {
    match a
    case Window(net, logs, head, now, _) => FoldOk(db, net, logs, head, now);
    case Submit(k, t, v, now) => SubmitKeepsNames(db, k, t, v, now, j);
    case Poll(k, v, now) => PollKeepsNames(db, k, v, now, j);
    case Mature(net, asset, head, receipts, now) => MatureKeepsNames(db, net, asset, head, receipts, now, j);
    case Expiry(now) => ExpiryKeepsNames(db, now, j);
    case Relist(_) =>
  }

  lemma SubmitKeepsNames(db: Db, k: nat, t: Hash, v: ChainView, now: Time, j: nat)
    requires Inv(db) && j < |db.orders| && db.orders[j].channel == Agent
    ensures SameName(db, Step(db, Submit(k, t, v, now)), j)
  {
    if k < |db.orders| {
      VerifyTxOk(db, k, t, v, now);
      assert k != j && Accepted(db, k, t, v, now) ==> ViewOf(VerifyTx(db, k, t, v, now).0, j) == ViewOf(db, j);
    }
  }

  lemma PollKeepsNames(db: Db, k: nat, v: ChainView, now: Time, j: nat)
    requires Inv(db) && j < |db.orders| && db.orders[j].channel == Agent
    ensures SameName(db, Step(db, Poll(k, v, now)), j)
  {
    if k < |db.orders| {
      assert Ok(ViewOf(db, j));
      RefreshOk(db, k, v, now);
      assert k != j ==> ViewOf(Refresh(db, k, v, now), j) == ViewOf(db, j);
    }
  }

  lemma MatureKeepsNames(db: Db, network: Network, asset: Option<Address>, head: int, receipts: Receipts, now: Time, j: nat)
    requires Inv(db) && j < |db.orders| && db.orders[j].channel == Agent
    ensures SameName(db, Step(db, Mature(network, asset, head, receipts, now)), j)
  {
    assert Ok(ViewOf(db, j));
    PromoteMaturedOk(db, network, asset, head, receipts, now);
  }

  lemma ExpiryKeepsNames(db: Db, now: Time, j: nat)
    requires Inv(db) && j < |db.orders|
    ensures SameName(db, Step(db, Expiry(now)), j)
  {
    ExpireAndReleaseOk(db, now);
  }

  /** Nor does creating, buying, refunding, failing or reaping. */
  lemma {:induction false} OtherCommitsKeepNames(db: Db, a: Action, j: nat)
    requires Inv(db) && Legal(a) && j < |db.orders|
    requires a.Create? || a.Buy? || a.Refund? || a.ReconcileFailed? || a.SettleFailure? || a.ReapTick?
    ensures SameName(db, Step(db, a), j)
  {
    match a
    case Create(c, draws, now) => FirstDraw(db, c, draws, now);
    case Buy(p, now) => FulfillOk(db, p, now);
    case Refund(k, sent) => RefundKeepsNames(db, k, sent, j);
    case ReconcileFailed(k) => if k < |db.orders| { VoidKeepsNames(db, k, j); }
    case SettleFailure(nonce) => FailureKeepsNames(db, nonce, j);
    case ReapTick(_, scanned, cutoff) => if a.chainScanned { ReapKeepsNames(db, scanned, cutoff, j); }
  }

  lemma RefundKeepsNames(db: Db, k: nat, sent: int, j: nat)
    requires j < |db.orders|
    ensures SameName(db, Step(db, Refund(k, sent)), j)
  {
  }

  lemma VoidKeepsNames(db: Db, k: nat, j: nat)
    requires k < |db.orders| && j < |db.orders|
    ensures SameName(db, VoidSettling(db, k), j)
  {
  }

  lemma {:induction false} FailureKeepsNames(db: Db, nonce: Hash, j: nat)
    requires j < |db.orders|
    ensures SameName(db, SettleFailed(db, nonce), j)
  {
    var k := ByNonce(db.orders, nonce, 0);
    if k.Some? && k.value < |db.orders| {
      VoidKeepsNames(db, k.value, j);
    }
  }

  lemma {:induction false} ReapKeepsNames(db: Db, scanned: Option<set<nat>>, cutoff: Time, j: nat)
    requires Inv(db) && j < |db.orders|
    ensures SameName(db, Reap(db, true, scanned, cutoff), j)
  {
    var db' := ReapFirstOk(db, |db.orders|, scanned, cutoff);
  }

  lemma SettleNames(db: Db, i: nat, t: Option<Hash>, pending: bool, h: Hash, j: nat)
    requires i < |db.orders| && j < |db.orders|
    requires Names(RecordSettlement(db, i, t, pending).orders[j], h) && !Names(db.orders[j], h)
    ensures i == j && db.orders[i].channel == Agent && db.orders[i].status == Settling && t == Some(h)
  {
  }

  lemma ReconcileNames(db: Db, i: nat, t: Hash, h: Hash, j: nat)
    requires i < |db.orders| && j < |db.orders|
    requires Names(ReconcileFinalize(db, i, t).orders[j], h) && !Names(db.orders[j], h)
    ensures i == j && db.orders[i].status == Settling && t == h
  {
  }

  /** A settlement without the stamp names nothing new. */
  lemma SettlementNames(db: Db, a: Action, h: Hash, j: nat)
    requires (a.Settle? || a.Reconcile?) && j < |Step(db, a).orders| && Names(Step(db, a).orders[j], h)
    ensures Stamps(db, a, h) || (j < |db.orders| && Names(db.orders[j], h))
  {
    if a.order < |db.orders| && !Names(db.orders[j], h) {
      if a.Settle? {
        SettleNames(db, a.order, a.settled, a.deferredPending, h, j);
      } else {
        ReconcileNames(db, a.order, a.settledBy, h, j);
      }
    }
  }

  /** A row that comes to name a transaction was stamped with it by this commit. */
  lemma {:induction false} NewName(db: Db, a: Action, h: Hash, j: nat)
    requires Inv(db) && Legal(a) && j < |Step(db, a).orders| && Names(Step(db, a).orders[j], h)
    ensures Stamps(db, a, h) || (j < |db.orders| && Names(db.orders[j], h))
  {
    if a.Settle? || a.Reconcile? {
      SettlementNames(db, a, h, j);
    } else if j < |db.orders| {
      RowStep(db, a, j);
      OldName(db, a, h, j);
    } else {
      BornNameless(db, a, j, h);
    }
  }

  lemma {:induction false} OldName(db: Db, a: Action, h: Hash, j: nat)
    requires Inv(db) && Legal(a) && !a.Settle? && !a.Reconcile?
    requires j < |db.orders| && db.orders[j].channel == Agent && j < |Step(db, a).orders| && Names(Step(db, a).orders[j], h)
    ensures Names(db.orders[j], h)
  {
    if a.Window? || a.Submit? || a.Poll? || a.Mature? || a.Expiry? || a.Relist? {
      WebCommitsKeepNames(db, a, j);
    } else {
      OtherCommitsKeepNames(db, a, j);
    }
  }

  lemma BornNameless(db: Db, a: Action, j: nat, h: Hash)
    requires Inv(db) && Legal(a) && |db.orders| <= j < |Step(db, a).orders|
    ensures !Names(Step(db, a).orders[j], h)
  {
    match a
    case Create(c, draws, now) => FirstDraw(db, c, draws, now);
    case Buy(p, now) => FulfillOk(db, p, now);
    case _ => OnlyCreationAdds(db, a);
  }

  lemma StampShows(db: Db, a: Action, h: Hash)
    requires Inv(db) && Stamps(db, a, h)
    ensures AgentSettled(Step(db, a).orders, h)
  {
    var i := a.order;
    assert Ok(ViewOf(db, i));
    assert Step(db, a).orders[i].channel == Agent;
  }

  // ------------------------------------------------------------ the web side

  lemma PaidStays(db: Db, a: Action, h: Hash)
    requires Inv(db) && Legal(a) && PaidWeb(db, h)
    ensures PaidWeb(Step(db, a), h)
  {
    StepOk(db, a);
    var k: nat :| PaidWebAt(db, h, k);
    assert Evolves(db.orders[db.transfers[k].orderId], Step(db, a).orders[db.transfers[k].orderId]);
    assert PaidWebAt(Step(db, a), h, k);
  }

  /** The sweeper and the fast path refuse every transfer of a transaction an agent order names. */
  lemma {:induction false} FoldNeverPaysNamed(db: Db, network: Network, logs: seq<Log>, head: int, now: Time, h: Hash)
    requires Inv(db) && AgentSettled(db.orders, h) && !PaidWeb(db, h)
    ensures !PaidWeb(Fold(db, network, logs, head, now), h)
    decreases |logs|
  {
    if logs != [] {
      var next := ProcessLog(db, network, logs[0], head, now);
      OneLogKeepsApart(db, network, logs[0], head, now, h);
      FoldNeverPaysNamed(next, network, logs[1..], head, now, h);
    }
  }

  lemma OneLogKeepsApart(db: Db, network: Network, l: Log, head: int, now: Time, h: Hash)
    requires Inv(db) && AgentSettled(db.orders, h) && !PaidWeb(db, h)
    ensures var db' := ProcessLog(db, network, l, head, now);
            Inv(db') && AgentSettled(db'.orders, h) && !PaidWeb(db', h)
  {
    ProcessLogOk(db, network, l, head, now);
    var db' := ProcessLog(db, network, l, head, now);
    var j :| 0 <= j < |db.orders| && db.orders[j].channel == Agent && (db.orders[j].txHash == Some(h) || db.orders[j].settleRef == Some(h));
    SweepLogOrder(db, network, l, head, now, j);
    assert db'.orders[j] == db.orders[j];
    forall k: nat
      ensures !PaidWebAt(db', h, k)
    {
      OldRowsUnpaid(db, db', h, k);
    }
  }

  /** A row that was there before still belongs to the same order of the same channel. */
  lemma OldRowsUnpaid(db: Db, db': Db, h: Hash, k: nat)
    requires Inv(db) && Progress(db, db') && !PaidWeb(db, h)
    ensures k < |db.transfers| ==> !PaidWebAt(db', h, k)
  {
    if k < |db.transfers| {
      assert !PaidWebAt(db, h, k);
      assert db'.transfers[k] == db.transfers[k] && db.transfers[k].orderId < |db.orders|;
      assert Evolves(db.orders[db.transfers[k].orderId], db'.orders[db.transfers[k].orderId]);
    }
  }

  lemma SubmitKeepsApart(db: Db, i: nat, t: Hash, v: ChainView, now: Time, h: Hash)
    requires Inv(db) && i < |db.orders| && AgentSettled(db.orders, h) && !PaidWeb(db, h)
    ensures !PaidWeb(VerifyTx(db, i, t, v, now).0, h)
  {
    VerifyTxOk(db, i, t, v, now);
    var db' := VerifyTx(db, i, t, v, now).0;
    assert Progress(db, db');
    forall k: nat
      ensures !PaidWebAt(db', h, k)
    {
      OldRowsUnpaid(db, db', h, k);
      if |db.transfers| <= k < |db'.transfers| && db.orders[i].channel == Web {
        SettledTxNeverCredited(db, i, t, v, now, k);
      }
    }
  }

  /** No commit records a web payment of a transaction that an agent order names already. */
  lemma NamedStaysUnpaid(db: Db, a: Action, h: Hash)
    requires Inv(db) && Legal(a) && AgentSettled(db.orders, h) && !PaidWeb(db, h)
    ensures !PaidWeb(Step(db, a), h)
  {
    StepOk(db, a);
    match a
    case Window(net, logs, head, now, upTo) =>
      FoldNeverPaysNamed(db, net, logs, head, now, h);
      SameRows(Fold(db, net, logs, head, now), Step(db, a), h);
    case Submit(i, t, v, now) => if i < |db.orders| { SubmitKeepsApart(db, i, t, v, now, h); }
    case _ =>
      NoNewTransfers(db, a);
      forall k: nat
        ensures !PaidWebAt(Step(db, a), h, k)
      {
        OldRowsUnpaid(db, Step(db, a), h, k);
      }
  }

  lemma SameRows(a: Db, b: Db, h: Hash)
    requires a.transfers == b.transfers && a.orders == b.orders && !PaidWeb(a, h)
    ensures !PaidWeb(b, h)
  {
    forall k: nat
      ensures !PaidWebAt(b, h, k)
    {
      assert !PaidWebAt(a, h, k);
    }
  }

  lemma NoNewTransfers(db: Db, a: Action)
    requires Inv(db) && Legal(a) && !a.Window? && !a.Submit?
    ensures Step(db, a).transfers == db.transfers
  {
    match a
    case Create(c, draws, now) => FirstDraw(db, c, draws, now);
    case Buy(p, now) => FulfillOk(db, p, now);
    case Poll(k, v, now) => if k < |db.orders| { RefreshOk(db, k, v, now); }
    case Mature(net, asset, head, receipts, now) => PromoteMaturedOk(db, net, asset, head, receipts, now);
    case Expiry(now) => ExpireAndReleaseOk(db, now);
    case ReapTick(chainScanned, scanned, cutoff) =>
      if chainScanned { var _ := ReapFirstOk(db, |db.orders|, scanned, cutoff); }
    case _ =>
  }

  // ------------------------------------------------------------ when sharing arises

  /** Exactly one kind of commit puts a transaction on both sides: a settlement stamped on a
      provisional agent order while the transaction is already recorded for a web order. */
  lemma SharingArisesIff(db: Db, a: Action, h: Hash)
    requires Inv(db) && Legal(a) && !Shared(db, h)
    ensures Shared(Step(db, a), h) <==> Stamps(db, a, h) && PaidWeb(db, h)
  {
    if Stamps(db, a, h) && PaidWeb(db, h) {
      StampShows(db, a, h);
      PaidStays(db, a, h);
    }
    if Shared(Step(db, a), h) {
      NoOtherOrigin(db, a, h);
    }
  }

  lemma NoOtherOrigin(db: Db, a: Action, h: Hash)
    requires Inv(db) && Legal(a) && !Shared(db, h) && Shared(Step(db, a), h)
    ensures Stamps(db, a, h) && PaidWeb(db, h)
  {
    if AgentSettled(db.orders, h) {
      NamedStaysUnpaid(db, a, h);
      assert false;
    }
    StampIsNew(db, a, h);
    NoNewTransfers(db, a);
    StepOk(db, a);
    var k: nat :| PaidWebAt(Step(db, a), h, k);
    assert Step(db, a).transfers[k] == db.transfers[k];
    assert Evolves(db.orders[db.transfers[k].orderId], Step(db, a).orders[db.transfers[k].orderId]);
    assert PaidWebAt(db, h, k);
  }

  lemma StampIsNew(db: Db, a: Action, h: Hash)
    requires Inv(db) && Legal(a) && !AgentSettled(db.orders, h) && AgentSettled(Step(db, a).orders, h)
    ensures Stamps(db, a, h)
  {
    var j :| 0 <= j < |Step(db, a).orders| && Names(Step(db, a).orders[j], h);
    NewName(db, a, h, j);
  }

  /** The state of a run after its first k commits. */
  function Upto(acts: seq<Action>, k: nat): Db
    requires k <= |acts|
  {
    Run(EMPTY, acts[..k])
  }

  ghost predicate SharedAt(acts: seq<Action>, h: Hash, k: nat) {
    k <= |acts| && Shared(Upto(acts, k), h)
  }

  /** The k-th commit stamps the transaction on a provisional agent order after a web payment. */
  ghost predicate SettlesPaid(acts: seq<Action>, h: Hash, k: nat) {
    k < |acts| && Stamps(Upto(acts, k), acts[k], h) && PaidWeb(Upto(acts, k), h)
  }

  lemma UptoNext(acts: seq<Action>, k: nat)
    requires AllLegal(acts) && k < |acts|
    ensures Upto(acts, k + 1) == Step(Upto(acts, k), acts[k])
    ensures Inv(Upto(acts, k)) && Legal(acts[k])
  {
    assert acts[..k + 1] == acts[..k] + [acts[k]];
    RunConcat(EMPTY, acts[..k], [acts[k]]);
    EmptyOk();
    RunOk(EMPTY, acts[..k]);
    var last: seq<Action> := [acts[k]];
    assert last[1..] == [];
    assert Run(Upto(acts, k), last) == Run(Step(Upto(acts, k), acts[k]), []);
  }

  lemma NothingSharedAtFirst(acts: seq<Action>, h: Hash)
    ensures !SharedAt(acts, h, 0)
  {
    assert Run(EMPTY, acts[..0]) == EMPTY;
  }

  /** Over whole runs: a transaction is ever on both sides if and only if some commit of the run
      settles an agent order with it after it paid a web order. */
  lemma {:induction false} EverSharedIff(acts: seq<Action>, h: Hash)
    requires AllLegal(acts)
    ensures (exists n: nat :: SharedAt(acts, h, n)) <==> (exists k: nat :: SettlesPaid(acts, h, k))
  {
    if n: nat :| SharedAt(acts, h, n) {
      var k := FirstShared(acts, h, n);
      assert SettlesPaid(acts, h, k);
    }
    if k: nat :| SettlesPaid(acts, h, k) {
      UptoNext(acts, k);
      StampShows(Upto(acts, k), acts[k], h);
      PaidStays(Upto(acts, k), acts[k], h);
      assert SharedAt(acts, h, k + 1);
    }
  }

  lemma {:induction false} FirstShared(acts: seq<Action>, h: Hash, n: nat) returns (k: nat)
    requires AllLegal(acts) && SharedAt(acts, h, n)
    ensures SettlesPaid(acts, h, k)
  {
    NothingSharedAtFirst(acts, h);
    if SharedAt(acts, h, n - 1) {
      k := FirstShared(acts, h, n - 1);
    } else {
      k := n - 1;
      UptoNext(acts, k);
      SharingArisesIff(Upto(acts, k), acts[k], h);
    }
  }
}
