/** The agent-order commits: buying, the three competing finishers, and full refunds. */
module AgentSteps {
  import opened Prelude
  import opened CheckoutLedger
  import opened CheckoutInvariant
  import opened CheckoutSteps

  // ------------------------------------------------------------ nonces

  lemma {:induction false} ByNonceFacts(orders: seq<Order>, nonce: Hash, n: nat)
    requires n <= |orders|
    ensures var k := ByNonce(orders, nonce, n);
            && (k.Some? ==> n <= k.value < |orders| && orders[k.value].nonce == Some(nonce))
            && (k.None? ==> forall j :: n <= j < |orders| ==> orders[j].nonce != Some(nonce))
    decreases |orders| - n
  {
    if n < |orders| && orders[n].nonce != Some(nonce) {
      ByNonceFacts(orders, nonce, n + 1);
    }
  }

  /** The nonce index makes the looked-up order the only one carrying the nonce. */
  lemma ByNonceUnique(orders: seq<Order>, nonce: Hash, k: nat)
    requires NoncesDistinct(orders) && k < |orders| && orders[k].nonce == Some(nonce)
    ensures ByNonce(orders, nonce, 0) == Some(k)
  {
    ByNonceFacts(orders, nonce, 0);
    SameNonce(orders, ByNonce(orders, nonce, 0).value, k);
  }

  lemma SameNonce(orders: seq<Order>, a: nat, b: nat)
    requires NoncesDistinct(orders) && a < |orders| && b < |orders|
    requires orders[a].nonce.Some? && orders[a].nonce == orders[b].nonce
    ensures a == b
  {
  }

  // ------------------------------------------------------------ buying

  function Provisional(p: Purchase, now: Time): Order {
    BornConfirmed(p, now).(status := Settling)
  }

  lemma FulfillOk(db: Db, p: Purchase, now: Time)
    requires Inv(db) && p.price > 0
    ensures var (db', r) := Fulfill(db, p, now);
            && Inv(db') && Progress(db, db') && db'.transfers == db.transfers
            && match r
               case Fresh(i) =>
                 && i == |db.orders| && db'.orders == db.orders + [Provisional(p, now)]
                 && (forall k :: 0 <= k < |db.orders| ==> db.orders[k].nonce != Some(p.nonce))
               case Replayed(i) =>
                 && db' == db && i < |db.orders| && db.orders[i].nonce == Some(p.nonce)
                 && db.orders[i].storeId == p.storeId && db.orders[i].fromAddr == Some(p.payer)
               case NonceTaken =>
                 db' == db && exists k :: 0 <= k < |db.orders| && db.orders[k].nonce == Some(p.nonce) &&
                                (db.orders[k].storeId != p.storeId || db.orders[k].fromAddr != Some(p.payer))
  {
    ByNonceFacts(db.orders, p.nonce, 0);
    var (db', r) := Fulfill(db, p, now);
    if r.Fresh? {
      BornView(db, p, now);
      AppendOk(db, db', Provisional(p, now));
    } else {
      ProgressRefl(db);
    }
  }

  /** Delivery and the hold, applied to the new row, leave every other row and all effects alone. */
  lemma BornView(db: Db, p: Purchase, now: Time)
    requires Inv(db) && p.price > 0 && ByNonce(db.orders, p.nonce, 0).None?
    ensures var n := |db.orders|;
            var db' := Fulfill(db, p, now).0;
            && db' == db.(orders := db.orders + [Provisional(p, now)], deliveries := db'.deliveries, entitlements := db'.entitlements)
            && db'.deliveries.Keys == db.deliveries.Keys + {n}
            && db'.entitlements.Keys <= db.entitlements.Keys + {n}
            && (forall j :: j in db.deliveries ==> db'.deliveries[j] == db.deliveries[j])
            && (forall j :: j in db.entitlements ==> j in db'.entitlements && db'.entitlements[j] == db.entitlements[j])
            && (n in db'.entitlements ==> !db'.entitlements[n].revoked)
  {
    var n := |db.orders|;
    var born := db.(orders := db.orders + [BornConfirmed(p, now)]);
    var delivered := Deliver(born, n, now);
    assert n !in db.deliveries && n !in db.entitlements;
    assert delivered.effects == db.effects;
    var o := Written(BornConfirmed(p, now), Delivered, NO_FIELDS.(paidAt := Some(now)));
    assert delivered.orders == db.orders + [o];
    assert Moved(o, TERMINAL_DELIVERED, Settling, NO_FIELDS) == Provisional(p, now);
    assert Fulfill(db, p, now).0.orders == db.orders + [Provisional(p, now)];
  }

  // ------------------------------------------------------------ finishing

  lemma RevokedView(db: Db, i: nat)
    requires i < |db.orders|
    ensures var db' := Revoked(db, i);
            && Frame(db, db', i) && db'.orders == db.orders && db'.transfers == db.transfers
            && StraysOnlyAt(db, db', i)
            && Withdrawn(ViewOf(db', i))
            && ViewOf(db', i) == ViewOf(db, i).(goods := ViewOf(db', i).goods)
  {
  }

  lemma FinalizeView(db: Db, i: nat, txHash: Option<Hash>)
    requires Inv(db) && i < |db.orders| && txHash.Some? && db.orders[i].status == Settling
    ensures var db' := Finalize(db, i, txHash);
            && Frame(db, db', i) && StraysOnlyAt(db, db', i) && Ok(ViewOf(db', i)) && Evolves(db.orders[i], db'.orders[i])
            && db'.transfers == db.transfers
  {
    assert Ok(ViewOf(db, i));
  }

  lemma FinalizeOk(db: Db, i: nat, txHash: Option<Hash>)
    requires Inv(db) && i < |db.orders| && txHash.Some?
    ensures var db' := Finalize(db, i, txHash);
            && Inv(db') && Progress(db, db') && Frame(db, db', i) && db'.transfers == db.transfers
            && (db.orders[i].status != Settling ==> db' == db)
            && (db.orders[i].status == Settling ==>
                  db'.orders[i] == db.orders[i].(status := Delivered, paid := db.orders[i].expected, txHash := txHash))
  {
    if db.orders[i].status == Settling {
      FinalizeView(db, i, txHash);
      OneRowStep(db, Finalize(db, i, txHash), i);
    } else {
      ProgressRefl(db);
    }
  }

  lemma VoidSettlingOk(db: Db, i: nat)
    requires Inv(db) && i < |db.orders|
    ensures var db' := VoidSettling(db, i);
            && Inv(db') && Progress(db, db') && Frame(db, db', i) && db'.transfers == db.transfers
            && (db.orders[i].status != Settling ==> db' == db)
            && (db.orders[i].status == Settling ==> db'.orders[i] == db.orders[i].(status := Canceled))
  {
    assert Ok(ViewOf(db, i));
    if db.orders[i].status == Settling {
      var moved := Transitioned(db, i, {Settling}, Canceled, NO_FIELDS);
      TransitionView(db, i, {Settling}, Canceled, NO_FIELDS);
      RevokedView(moved, i);
      var revoked := Revoked(moved, i);
      var db' := VoidSettling(db, i);
      assert db' == revoked.(effects := revoked.effects + multiset{OrderVoided(i)});
      forall j | 0 <= j < |db.orders| && j != i
        ensures ViewOf(db', j) == ViewOf(db, j)
      {
        assert ViewOf(moved, j) == ViewOf(db, j) && ViewOf(revoked, j) == ViewOf(moved, j);
      }
      OneRowStep(db, db', i);
    } else {
      ProgressRefl(db);
    }
  }

  /** Stamping a settlement reference on a provisional order changes nothing else. */
  lemma StampOk(db: Db, i: nat, ref: Hash)
    requires Inv(db) && i < |db.orders| && db.orders[i].channel == Agent && db.orders[i].status in {Settling, Delivered}
    ensures var db' := db.(orders := db.orders[i := db.orders[i].(settleRef := Some(ref))]);
            && Inv(db') && Frame(db, db', i)
  {
    var db' := db.(orders := db.orders[i := db.orders[i].(settleRef := Some(ref))]);
    assert Ok(ViewOf(db, i));
    assert ViewOf(db', i) == ViewOf(db, i).(o := db'.orders[i]);
    FrameKeepsRows(db, db', i);
    forall a, b | 0 <= a < b < |db'.orders|
      ensures !Clash(db'.orders[a], db'.orders[b])
      ensures db'.orders[a].nonce.None? || db'.orders[a].nonce != db'.orders[b].nonce
    {
      assert !Clash(db.orders[a], db.orders[b]);
    }
    forall j: nat | j >= |db'.orders|
      ensures EffectFree(db', j)
    {
      assert EffectFree(db, j);
    }
  }

  lemma RecordSettlementOk(db: Db, i: nat, txHash: Option<Hash>, deferredPending: bool)
    requires Inv(db) && i < |db.orders|
    ensures var db' := RecordSettlement(db, i, txHash, deferredPending);
            && Inv(db') && Progress(db, db') && Frame(db, db', i) && db'.transfers == db.transfers
            && (db'.orders[i].status == db.orders[i].status || (!deferredPending && txHash.Some? && db'.orders[i].txHash == txHash))
  {
    var o := db.orders[i];
    assert Ok(ViewOf(db, i));
    if o.channel != Agent {
      ProgressRefl(db);
    } else if txHash.None? || deferredPending {
      if o.status == Settling && txHash.Some? {
        StampOk(db, i, txHash.value);
        FrameProgress(db, RecordSettlement(db, i, txHash, deferredPending), i);
      } else {
        ProgressRefl(db);
      }
    } else {
      FinalizeOk(db, i, txHash);
    }
  }

  lemma ReconcileFinalizeOk(db: Db, i: nat, txHash: Hash)
    requires Inv(db) && i < |db.orders|
    ensures var db' := ReconcileFinalize(db, i, txHash);
            && Inv(db') && Progress(db, db') && Frame(db, db', i) && db'.transfers == db.transfers
            && (db'.orders[i].status == db.orders[i].status || db'.orders[i].txHash == Some(txHash))
  {
    assert Ok(ViewOf(db, i));
    if db.orders[i].status == Settling {
      FinalizeOk(db, i, Some(txHash));
      var done := Finalize(db, i, Some(txHash));
      StampOk(done, i, txHash);
      var db' := ReconcileFinalize(db, i, txHash);
      forall j | 0 <= j < |db.orders| && j != i
        ensures ViewOf(db', j) == ViewOf(db, j)
      {
        assert ViewOf(done, j) == ViewOf(db, j) && ViewOf(db', j) == ViewOf(done, j);
      }
      FrameProgress(db, db', i);
    } else {
      ProgressRefl(db);
    }
  }

  lemma SettleFailedOk(db: Db, nonce: Hash)
    requires Inv(db)
    ensures var db' := SettleFailed(db, nonce);
            && Inv(db') && Progress(db, db') && |db'.orders| == |db.orders| && db'.transfers == db.transfers
            && (forall j :: 0 <= j < |db.orders| && db'.orders[j] != db.orders[j] ==>
                  db.orders[j].status == Settling && db'.orders[j].status == Canceled && db.orders[j].nonce == Some(nonce))
  {
    ByNonceFacts(db.orders, nonce, 0);
    var k := ByNonce(db.orders, nonce, 0);
    var db' := SettleFailed(db, nonce);
    if k.Some? && db.orders[k.value].channel == Agent && db.orders[k.value].status !in TERMINAL_DELIVERED {
      VoidSettlingOk(db, k.value);
      forall j | 0 <= j < |db.orders| && j != k.value
        ensures db'.orders[j] == db.orders[j]
      {
        assert ViewOf(db', j) == ViewOf(db, j);
      }
    } else {
      ProgressRefl(db);
    }
  }

  // ------------------------------------------------------------ the reaper

  function Reaped(o: Order, i: nat, scanned: Option<set<nat>>, cutoff: Time): Order {
    if Reapable(o, i, scanned, cutoff) then o.(status := Canceled) else o
  }

  lemma ReapOneOk(db: Db, i: nat, scanned: Option<set<nat>>, cutoff: Time)
    requires Inv(db) && i < |db.orders|
    ensures var db' := ReapOne(db, i, scanned, cutoff);
            Inv(db') && Progress(db, db') && db'.transfers == db.transfers && db'.orders == db.orders[i := Reaped(db.orders[i], i, scanned, cutoff)]
  {
    if Reapable(db.orders[i], i, scanned, cutoff) {
      var db' := VoidSettling(db, i);
      VoidSettlingOk(db, i);
      assert db'.orders == db.orders[i := db'.orders[i]];
    } else {
      ProgressRefl(db);
    }
  }

  /** The reaper decides every row by that row alone. */
  ghost predicate ReapedTo(before: seq<Order>, after: seq<Order>, n: nat, scanned: Option<set<nat>>, cutoff: Time) {
    && |after| == |before|
    && forall j :: 0 <= j < |before| ==> after[j] == if j < n then Reaped(before[j], j, scanned, cutoff) else before[j]
  }

  lemma {:induction false} ReapFirstOk(db: Db, n: nat, scanned: Option<set<nat>>, cutoff: Time) returns (db': Db)
    requires Inv(db) && n <= |db.orders|
    ensures db' == ReapFirst(db, n, scanned, cutoff)
    ensures Inv(db') && Progress(db, db') && db'.transfers == db.transfers && ReapedTo(db.orders, db'.orders, n, scanned, cutoff)
  {
    if n == 0 {
      db' := db;
      ProgressRefl(db);
    } else {
      var prior := ReapFirstOk(db, n - 1, scanned, cutoff);
      db' := ReapOne(prior, n - 1, scanned, cutoff);
      ReapStep(db, prior, db', n, scanned, cutoff);
    }
  }

  lemma ReapStep(db: Db, prior: Db, db': Db, n: nat, scanned: Option<set<nat>>, cutoff: Time)
    requires 0 < n <= |db.orders| && Inv(prior) && Progress(db, prior) && prior.transfers == db.transfers && ReapedTo(db.orders, prior.orders, n - 1, scanned, cutoff)
    requires db' == ReapOne(prior, n - 1, scanned, cutoff)
    ensures Inv(db') && Progress(db, db') && db'.transfers == db.transfers && ReapedTo(db.orders, db'.orders, n, scanned, cutoff)
  {
    ReapOneOk(prior, n - 1, scanned, cutoff);
    ReapExtends(db.orders, prior.orders, n - 1, scanned, cutoff);
    PassProgress(db, prior, db', n - 1);
  }

  lemma ReapExtends(before: seq<Order>, prior: seq<Order>, i: nat, scanned: Option<set<nat>>, cutoff: Time)
    requires i < |before| && ReapedTo(before, prior, i, scanned, cutoff)
    ensures prior[i] == before[i]
    ensures ReapedTo(before, prior[i := Reaped(prior[i], i, scanned, cutoff)], i + 1, scanned, cutoff)
  {
  }

  // ------------------------------------------------------------ refunds

  lemma RefundFullOk(db: Db, i: nat, sent: int)
    requires Inv(db) && i < |db.orders|
    ensures var db' := RefundFull(db, i, sent);
            && Inv(db') && Progress(db, db') && Frame(db, db', i) && db'.transfers == db.transfers
            && (db' == db || (db'.orders[i].status == Refunded && sent == db.orders[i].paid > 0))
  {
    var o := db.orders[i];
    assert Ok(ViewOf(db, i));
    if o.status !in REFUNDABLE || o.paid - o.refunded <= 0 || sent != o.paid - o.refunded {
      ProgressRefl(db);
    } else {
      RefundView(db, i, sent);
      RefundedOk(ViewOf(db, i), ViewOf(RefundFull(db, i, sent), i));
      OneRowStep(db, RefundFull(db, i, sent), i);
    }
  }

  lemma RefundView(db: Db, i: nat, sent: int)
    requires i < |db.orders| && db.orders[i].status in REFUNDABLE
    requires db.orders[i].paid - db.orders[i].refunded == sent > 0
    ensures var db' := RefundFull(db, i, sent);
            && Frame(db, db', i) && StraysOnlyAt(db, db', i) && db'.transfers == db.transfers
            && Withdrawn(ViewOf(db', i))
            && ViewOf(db', i) == ViewOf(db, i).(o := db.orders[i].(status := Refunded, refunded := db.orders[i].refunded + sent),
                                                goods := ViewOf(db', i).goods)
  {
    var f := NO_FIELDS.(refunded := Some(db.orders[i].refunded + sent));
    var moved := Transitioned(db, i, REFUNDABLE, Refunded, f);
    TransitionView(db, i, REFUNDABLE, Refunded, f);
    RevokedView(moved, i);
    RefundHook(Revoked(moved, i), i);
    FrameTrans(db, moved, Revoked(moved, i), RefundFull(db, i, sent), i);
  }

  lemma RefundHook(db: Db, i: nat)
    requires i < |db.orders|
    ensures var db' := db.(effects := db.effects + multiset{OrderRefunded(i)});
            Frame(db, db', i) && StraysOnlyAt(db, db', i) && ViewOf(db', i) == ViewOf(db, i)
  {
  }

  lemma FrameTrans(a: Db, b: Db, c: Db, d: Db, i: nat)
    requires Frame(a, b, i) && Frame(b, c, i) && Frame(c, d, i)
    ensures Frame(a, d, i)
  {
    forall j | 0 <= j < |a.orders| && j != i
      ensures ViewOf(d, j) == ViewOf(a, j)
    {
      assert ViewOf(b, j) == ViewOf(a, j) && ViewOf(c, j) == ViewOf(b, j) && ViewOf(d, j) == ViewOf(c, j);
    }
  }

  lemma RefundedOk(v: View, v': View)
    requires Ok(v) && v.o.status in REFUNDABLE && v.o.paid - v.o.refunded > 0
    requires Withdrawn(v') && v' == v.(o := v.o.(status := Refunded, refunded := v.o.paid), goods := v'.goods)
    ensures Ok(v') && Evolves(v.o, v'.o) && v.o.refunded == 0
  {
  }
}
