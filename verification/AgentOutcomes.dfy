/** What each agent commit writes, as whole tables: which row moves, what it fires, and that nothing
    else changes. */
module AgentOutcomes {
  import opened Prelude
  import opened CheckoutLedger
  import opened CheckoutInvariant
  import opened CheckoutSteps
  import opened AgentSteps
  import opened CheckoutRuns

  /** A purchase settled by a transaction: paid in full, delivered, and its sale fired. */
  ghost function SettledTables(db: Db, k: nat, row: Order): Db
    requires k < |db.orders|
  {
    db.(orders := db.orders[k := row], effects := db.effects + multiset{OrderPaid(k), OrderDelivered(k), Accrual(k)})
  }

  ghost function RevokedGoods(goods: map<nat, Entitlement>, k: nat): map<nat, Entitlement> {
    if k in goods then goods[k := goods[k].(revoked := true)] else goods
  }

  /** A purchase that never settled: canceled, its goods revoked, and the voiding announced. */
  ghost function VoidedTables(db: Db, k: nat): Db
    requires k < |db.orders|
  {
    db.(orders := db.orders[k := db.orders[k].(status := Canceled)],
        entitlements := RevokedGoods(db.entitlements, k),
        effects := db.effects + multiset{OrderVoided(k)})
  }

  lemma VoidingTables(db: Db, k: nat)
    requires k < |db.orders|
    ensures VoidSettling(db, k) == if db.orders[k].status == Settling then VoidedTables(db, k) else db
  {
  }

  lemma FinalTables(db: Db, k: nat, t: Option<Hash>)
    requires k < |db.orders| && t.Some?
    ensures var o := db.orders[k];
            Finalize(db, k, t) == if o.status == Settling then SettledTables(db, k, o.(status := Delivered, paid := o.expected, txHash := t)) else db
  {
  }

  lemma AgentOnlySettles(db: Db, k: nat)
    requires Inv(db) && k < |db.orders| && db.orders[k].status == Settling
    ensures db.orders[k].channel == Agent
  {
    assert Ok(ViewOf(db, k));
  }

  // ------------------------------------------------------------ settlements

  /** A settlement delivers a provisional purchase when it names a transaction and none is pending;
      while one is pending it only notes the reference; and nothing else changes anything. */
  lemma SettleOutcome(db: Db, k: nat, t: Option<Hash>, pending: bool)
    requires Inv(db) && k < |db.orders|
    ensures var o := db.orders[k];
            Step(db, Settle(k, t, pending)) ==
              if o.status != Settling || t.None? then db
              else if pending then db.(orders := db.orders[k := o.(settleRef := t)])
              else SettledTables(db, k, o.(status := Delivered, paid := o.expected, txHash := t))
  {
    if db.orders[k].status == Settling {
      AgentOnlySettles(db, k);
    }
    if t.Some? {
      FinalTables(db, k, t);
    }
  }

  /** The chain reconciler does the same, and notes the transaction as the reference too. */
  lemma ReconcileOutcome(db: Db, k: nat, t: Hash)
    requires k < |db.orders|
    ensures var o := db.orders[k];
            Step(db, Reconcile(k, t)) ==
              if o.status != Settling then db
              else SettledTables(db, k, o.(status := Delivered, paid := o.expected, txHash := Some(t), settleRef := Some(t)))
  {
    FinalTables(db, k, Some(t));
    if db.orders[k].status == Settling {
      var o := db.orders[k];
      var row := o.(status := Delivered, paid := o.expected, txHash := Some(t));
      assert db.orders[k := row][k := row.(settleRef := Some(t))] == db.orders[k := row.(settleRef := Some(t))];
    }
  }

  /** A settlement the reconciler found failed voids its order if that is still provisional. */
  lemma ReconcileFailedOutcome(db: Db, k: nat)
    requires k < |db.orders|
    ensures Step(db, ReconcileFailed(k)) == if db.orders[k].status == Settling then VoidedTables(db, k) else db
  {
    VoidingTables(db, k);
  }

  /** A failed settlement voids the provisional purchase of its nonce. */
  lemma FailureVoids(db: Db, nonce: Hash, k: nat)
    requires Inv(db) && k < |db.orders| && db.orders[k].nonce == Some(nonce)
    ensures Step(db, SettleFailure(nonce)) == if db.orders[k].status == Settling then VoidedTables(db, k) else db
  {
    ByNonceUnique(db.orders, nonce, k);
    VoidingTables(db, k);
    if db.orders[k].status == Settling {
      AgentOnlySettles(db, k);
    }
  }

  /** And does nothing for a nonce nobody bought with. */
  lemma FailureWithoutPurchase(db: Db, nonce: Hash)
    requires forall k :: 0 <= k < |db.orders| ==> db.orders[k].nonce != Some(nonce)
    ensures Step(db, SettleFailure(nonce)) == db
  {
    ByNonceFacts(db.orders, nonce, 0);
  }

  /** A voided order as its view shows it: canceled, out of goods, announced once more. */
  ghost function VoidedOf(v: View): View {
    v.(o := v.o.(status := Canceled),
       goods := if v.goods.Some? then Some(v.goods.value.(revoked := true)) else None,
       voidedHooks := v.voidedHooks + 1)
  }

  lemma VoidedView(db: Db, k: nat, i: nat)
    requires k < |db.orders| && i < |db.orders|
    ensures ViewOf(VoidedTables(db, k), i) == if i == k then VoidedOf(ViewOf(db, i)) else ViewOf(db, i)
  {
  }

  // ------------------------------------------------------------ the reaper

  /** A provisional purchase nobody settled for too long, which a completed scan covered. */
  ghost predicate Overdue(o: Order, i: nat, scanned: Option<set<nat>>, cutoff: Time) {
    && o.channel == Agent && o.status == Settling && o.settleRef.None?
    && (scanned.Some? ==> i in scanned.value)
    && (if o.paidAt.Some? then o.paidAt.value else o.createdAt) <= cutoff
  }

  /** Whether row i, one of the first n, was voided: exactly when it is due. */
  ghost predicate ReapedAt(before: Db, after: Db, n: nat, scanned: Option<set<nat>>, cutoff: Time, i: nat) {
    && i < |before.orders| == |after.orders|
    && VoidedAt(before, after, i < n && Overdue(before.orders[i], i, scanned, cutoff), i)
  }

  /** One order before and after: canceled, its goods revoked and the voiding announced, or as it was. */
  ghost predicate VoidedAt(before: Db, after: Db, voided: bool, i: nat)
    requires i < |before.orders| == |after.orders|
  {
    && after.orders[i] == (if voided then before.orders[i].(status := Canceled) else before.orders[i])
    && (i in after.entitlements <==> i in before.entitlements)
    && (i in before.entitlements ==>
          after.entitlements[i] == if voided then before.entitlements[i].(revoked := true) else before.entitlements[i])
    && after.effects[OrderVoided(i)] == before.effects[OrderVoided(i)] + (if voided then 1 else 0)
  }

  lemma {:induction false} ReapedPrefix(db: Db, n: nat, scanned: Option<set<nat>>, cutoff: Time, i: nat) returns (db': Db)
    requires Inv(db) && n <= |db.orders| && i < |db.orders|
    ensures db' == ReapFirst(db, n, scanned, cutoff)
    ensures ReapedAt(db, db', n, scanned, cutoff, i)
  {
    if n == 0 {
      db' := db;
      NothingReaped(db, scanned, cutoff, i);
    } else {
      var prior := ReapedPrefix(db, n - 1, scanned, cutoff, i);
      db' := ReapFirst(db, n, scanned, cutoff);
      ReapUnfolds(db, prior, db', n, scanned, cutoff);
      AtItsTurn(db, prior, n - 1, scanned, cutoff);
      OneReaped(db, prior, db', n - 1, scanned, cutoff, i);
    }
  }

  /** The reaper has not touched a row before it gets to it. */
  lemma {:induction false} AtItsTurn(db: Db, prior: Db, k: nat, scanned: Option<set<nat>>, cutoff: Time)
    requires Inv(db) && k < |db.orders| && prior == ReapFirst(db, k, scanned, cutoff)
    ensures |prior.orders| == |db.orders| && prior.orders[k] == db.orders[k]
  {
    var same := ReapFirstOk(db, k, scanned, cutoff);
  }

  lemma NothingReaped(db: Db, scanned: Option<set<nat>>, cutoff: Time, i: nat)
    requires i < |db.orders|
    ensures ReapedAt(db, db, 0, scanned, cutoff, i)
  {
  }

  lemma {:induction false} ReapUnfolds(db: Db, prior: Db, after: Db, n: nat, scanned: Option<set<nat>>, cutoff: Time)
    requires 0 < n <= |db.orders| && prior == ReapFirst(db, n - 1, scanned, cutoff) && after == ReapFirst(db, n, scanned, cutoff)
    ensures after == ReapOne(prior, n - 1, scanned, cutoff)
  {
  }

  lemma {:induction false} OneReaped(db: Db, prior: Db, after: Db, k: nat, scanned: Option<set<nat>>, cutoff: Time, i: nat)
    requires k < |db.orders| == |prior.orders| && prior.orders[k] == db.orders[k] && after == ReapOne(prior, k, scanned, cutoff)
    requires ReapedAt(db, prior, k, scanned, cutoff, i)
    ensures ReapedAt(db, after, k + 1, scanned, cutoff, i)
  {
    VoidingTables(prior, k);
    if Overdue(db.orders[k], k, scanned, cutoff) {
      VoidedOnly(prior, after, k, i);
    }
  }

  lemma VoidedOnly(db: Db, db': Db, k: nat, i: nat)
    requires k < |db.orders| && i < |db.orders| && db' == VoidedTables(db, k)
    ensures |db'.orders| == |db.orders| && VoidedAt(db, db', i == k, i)
  {
  }

  /** The reaper voids every overdue purchase and leaves every other order as it was; without a
      completed scan it does nothing. */
  lemma {:induction false} ReapOutcome(db: Db, chainScanned: bool, scanned: Option<set<nat>>, cutoff: Time, i: nat) returns (db': Db)
    requires Inv(db) && i < |db.orders|
    ensures db' == Reap(db, chainScanned, scanned, cutoff)
    ensures if chainScanned then ReapedAt(db, db', |db.orders|, scanned, cutoff, i) else db' == db
  {
    db' := db;
    if chainScanned {
      db' := ReapedPrefix(db, |db.orders|, scanned, cutoff, i);
    }
  }

  // ------------------------------------------------------------ purchases and refunds

  /** The row of a purchase: the exact price, the buyer who authorized it, and nothing settled yet. */
  ghost function PurchaseRow(p: Purchase, now: Time): Order {
    Order(storeId := p.storeId, productId := Some(p.productId), network := p.network, payTo := p.payTo,
          amount := p.price, expected := p.price, paid := 0, over := 0, refunded := 0,
          status := Settling, channel := Agent, nonce := Some(p.nonce), txHash := None, settleRef := None, fromAddr := Some(p.payer),
          block := None, createdBlock := p.createdBlock, createdAt := now, expiresAt := None, paidAt := Some(now))
  }

  /** An unused nonce buys one provisional order, which has fired nothing; a used one changes nothing
      and is answered by whose order it is. */
  lemma BuyOutcome(db: Db, p: Purchase, now: Time)
    requires Inv(db) && p.price > 0
    ensures var (db', answer) := Fulfill(db, p, now);
            && ((forall k :: 0 <= k < |db.orders| ==> db.orders[k].nonce != Some(p.nonce)) ==>
                  && answer == Fresh(|db.orders|) && db'.orders == db.orders + [PurchaseRow(p, now)]
                  && db'.effects == db.effects && db'.transfers == db.transfers)
            && forall k :: 0 <= k < |db.orders| && db.orders[k].nonce == Some(p.nonce) ==>
                 && db' == db
                 && answer == if db.orders[k].storeId == p.storeId && db.orders[k].fromAddr == Some(p.payer) then Replayed(k) else NonceTaken
  {
    FulfillOk(db, p, now);
    ByNonceFacts(db.orders, p.nonce, 0);
    var (db', answer) := Fulfill(db, p, now);
    if answer.Fresh? {
      BornView(db, p, now);
    }
    forall k | 0 <= k < |db.orders| && db.orders[k].nonce == Some(p.nonce)
      ensures db' == db && answer == if db.orders[k].storeId == p.storeId && db.orders[k].fromAddr == Some(p.payer) then Replayed(k) else NonceTaken
    {
      ByNonceUnique(db.orders, p.nonce, k);
    }
  }

  /** A refund of exactly what is due closes an order that may be refunded, revokes its goods and is
      announced; any other changes nothing. */
  lemma RefundOutcome(db: Db, k: nat, sent: int)
    requires k < |db.orders|
    ensures var o := db.orders[k];
            Step(db, Refund(k, sent)) ==
              if o.status in {Underpaid, Expired, Canceled, Confirmed, Overpaid, LatePaid, Delivered, Paid} && o.paid > o.refunded && sent == o.paid - o.refunded
              then db.(orders := db.orders[k := o.(status := Refunded, refunded := o.paid)],
                       entitlements := RevokedGoods(db.entitlements, k),
                       effects := db.effects + multiset{OrderRefunded(k)})
              else db
  {
  }
}
