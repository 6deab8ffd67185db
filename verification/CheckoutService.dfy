/** The checkout and agent-order code itself: the tables are fields, every operation updates
    them in place, and each is proved to leave the tables CheckoutLedger.dfy says. */
module CheckoutService {
  import opened Prelude
  import opened CheckoutLedger
  import opened CheckoutInvariant
  import opened CheckoutSteps
  import opened CheckoutRuns
  import opened Sweep

  /** Delivering is moving the row, granting the goods, and firing the sale. */
  lemma DeliverParts(before: Db, moved: Db, after: Db, i: nat, now: Time)
    requires i < |before.orders| && before.orders[i].status in READY_TO_DELIVER
    requires moved == before.(orders := before.orders[i := Written(before.orders[i], Delivered, NO_FIELDS.(paidAt := Some(now)))])
    requires after == moved.(entitlements := Granted(moved, i),
                             deliveries := if i in moved.deliveries then moved.deliveries else moved.deliveries[i := Delivery(Goods(moved, i).0)],
                             effects := moved.effects + SaleEffects(moved.orders[i], i))
    ensures after == Deliver(before, i, now)
  {
  }

  /** The entitlements once order i has been handed its goods. */
  function Granted(db: Db, i: nat): map<nat, Entitlement>
    requires i < |db.orders|
  {
    var goods := Goods(db, i).1;
    if goods.Some? && i !in db.entitlements
    then db.entitlements[i := Entitlement(goods.value, db.orders[i].fromAddr, false)]
    else db.entitlements
  }

  class Checkout {
    var orders: seq<Order>
    var transfers: seq<Transfer>
    var deliverables: seq<Deliverable>
    var deliveries: map<nat, Delivery>
    var entitlements: map<nat, Entitlement>
    var effects: multiset<Effect>
    var cursors: map<Network, int>

    ghost function Tables(): Db
      reads this
    {
      Db(orders, transfers, deliverables, deliveries, entitlements, effects, cursors)
    }

    constructor ()
      ensures Tables() == EMPTY
    {
      orders, transfers, deliverables := [], [], [];
      deliveries, entitlements, effects, cursors := map[], map[], multiset{}, map[];
    }

    // ---------------------------------------------------------- transitions and delivery

    /** The conditional UPDATE; moved says whether its guard matched. */
    method Transition(i: nat, from: set<Status>, to: Status, f: Fields) returns (moved: bool)
      requires i < |orders|
      modifies this`orders
      ensures Tables() == Transitioned(old(Tables()), i, from, to, f)
      ensures moved <==> old(orders[i]).status in from
      ensures |orders| == old(|orders|)
    {
      moved := orders[i].status in from;
      if moved {
        orders := orders[i := Written(orders[i], to, f)];
      }
    }

    method DeliverOrder(i: nat, now: Time)
      requires i < |orders|
      modifies this`orders, this`deliveries, this`entitlements, this`effects
      ensures Tables() == Deliver(old(Tables()), i, now)
      ensures |orders| == old(|orders|)
    {
      ghost var before := Tables();
      var won := Transition(i, READY_TO_DELIVER, Delivered, NO_FIELDS.(paidAt := Some(now)));
      if !won {
        assert orders == old(orders);
        return;
      }
      ghost var moved := Tables();
      var kind := GrantGoods(i);
      FireSale(i, kind);
      DeliverParts(before, moved, Tables(), i, now);
    }

    /** What is handed over, and the entitlement for it unless the order has one. */
    method GrantGoods(i: nat) returns (kind: Kind)
      requires i < |orders|
      modifies this`entitlements
      ensures kind == Goods(old(Tables()), i).0
      ensures entitlements == Granted(old(Tables()), i)
    {
      kind := Text;
      var o := orders[i];
      var goods := ActiveDeliverable(deliverables, o.storeId, o.productId);
      if goods.Some? && goods.value < |deliverables| {
        kind := deliverables[goods.value].kind;
        if i !in entitlements {
          entitlements := entitlements[i := Entitlement(goods.value, o.fromAddr, false)];
        }
      }
    }

    /** The Delivery row and the sale's effects. */
    method FireSale(i: nat, kind: Kind)
      requires i < |orders|
      modifies this`deliveries, this`effects
      ensures deliveries == if i in old(deliveries) then old(deliveries) else old(deliveries)[i := Delivery(kind)]
      ensures effects == old(effects) + SaleEffects(orders[i], i)
    {
      if i !in deliveries {
        deliveries := deliveries[i := Delivery(kind)];
      }
      if orders[i].channel != Agent {
        effects := effects + multiset{OrderPaid(i), OrderDelivered(i), Accrual(i)};
      } else {
        assert effects == effects + multiset{};
      }
    }

    // ---------------------------------------------------------- amount allocation

    method IsAmountTaken(payTo: Address, expected: int, now: Time) returns (taken: bool)
      ensures taken <==> AmountTaken(orders, payTo, expected, now)
    {
      for k := 0 to |orders|
        invariant forall j :: 0 <= j < k ==> !(SameAmount(orders[j], payTo, expected) && HoldsAmount(orders[j], now))
      {
        var o := orders[k];
        if o.payTo == payTo && o.expected == expected {
          if o.status in ALWAYS_HOLD {
            return true;
          }
          if o.status == Expired {
            if Deadline(o) + QUARANTINE > now {
              return true;
            }
          } else if o.status in COOLDOWN_HOLD {
            if o.paidAt.GetOr(o.createdAt) + QUARANTINE > now {
              return true;
            }
          }
        }
      }
      return false;
    }

    /** Redraw until an amount passes both the check and the index; None is AmountUnavailable. */
    method CreatePending(c: Cart, draws: seq<int>, now: Time) returns (made: Option<nat>)
      requires |draws| == ALLOC_RETRIES
      modifies this`orders
      ensures (Tables(), made) == CreateOrder(old(Tables()), c, draws, now)
    {
      for k := 0 to ALLOC_RETRIES
        invariant orders == old(orders)
        invariant CreateOrder(old(Tables()), c, draws[k..], now) == CreateOrder(old(Tables()), c, draws, now)
      {
        var expected := c.base + draws[k];
        var taken := IsAmountTaken(c.payTo, expected, now);
        assert draws[k..][1..] == draws[k + 1..];
        if taken {
          continue;
        }
        if IndexRefuses(orders, c.payTo, expected) {
          continue;
        }
        orders := orders + [NewOrder(c, expected, now)];
        made := Some(|orders| - 1);
        return;
      }
      made := None;
    }

    // ---------------------------------------------------------- matching and crediting

    method FindMatch(network: Network, payTo: Address, value: int, now: Time) returns (m: Option<nat>)
      ensures m == MatchOrder(orders, network, payTo, value, now)
      ensures m.Some? ==> m.value < |orders|
    {
      m := None;
      for k := 0 to |orders|
        invariant m == OldestInFlight(orders, network, payTo, value, k)
        invariant m.Some? ==> m.value < k
      {
        var o := orders[k];
        if o.network == network && o.payTo == payTo && o.expected == value && o.status in IN_FLIGHT {
          if m.None? || o.createdAt < orders[m.value].createdAt {
            m := Some(k);
          }
        }
      }
      if m.Some? {
        return;
      }
      for k := 0 to |orders|
        invariant FirstQuarantined(orders, network, payTo, value, now, k) == FirstQuarantined(orders, network, payTo, value, now, 0)
      {
        var o := orders[k];
        if o.network == network && o.payTo == payTo && o.expected == value && o.status == Expired {
          if Deadline(o) + QUARANTINE > now {
            return Some(k);
          }
        }
      }
    }

    method Drive(i: nat, added: int, block: int, from: Address, txHash: Hash, head: int, now: Time)
      requires i < |orders|
      modifies this`orders, this`deliveries, this`entitlements, this`effects
      ensures Tables() == DriveState(old(Tables()), i, added, block, from, txHash, head, now)
      ensures |orders| == old(|orders|)
    {
      var deep := head - block >= CONFIRMATIONS;
      var o := orders[i];
      var cumulative := o.paid + added;
      var f := NO_FIELDS.(paid := Some(cumulative), block := Some(block), fromAddr := Some(from), txHash := Some(txHash));
      if o.status == Expired {
        var _ := Transition(i, {Expired}, LatePaid, f);
        if deep {
          DeliverOrder(i, now);
        }
        return;
      }
      if cumulative < o.expected {
        var _ := Transition(i, {Pending, Underpaid}, Underpaid, f);
        return;
      }
      var over := cumulative - o.expected;
      if !deep {
        var _ := Transition(i, IN_FLIGHT, Detected, f.(over := Some(over)));
        return;
      }
      var _ := Transition(i, IN_FLIGHT, if over > 0 then Overpaid else Confirmed, f.(over := Some(over)));
      DeliverOrder(i, now);
    }

    method Process(network: Network, l: Log, head: int, now: Time)
      modifies this`orders, this`transfers, this`deliveries, this`entitlements, this`effects
      ensures Tables() == ProcessLog(old(Tables()), network, l, head, now)
    {
      if Recorded(transfers, l.txHash, l.logIndex) {
        return;
      }
      if AgentSettled(orders, l.txHash) {
        return;
      }
      var m := FindMatch(network, l.to, l.value, now);
      if m.None? {
        return;
      }
      transfers := transfers + [RowFor(m.value, orders[m.value].payTo, l)];
      Drive(m.value, l.value, l.block, l.from, l.txHash, head, now);
    }

    // ---------------------------------------------------------- the fast path

    /** Filter the receipt's logs and add up the new ones; the first bad one ends the scan. */
    method ScanReceipt(i: nat, asset: Address, logs: seq<RawLog>) returns (scan: Scan, total: nat)
      requires i < |orders|
      ensures scan == ScanLogs(Tables(), i, asset, logs)
      ensures scan.Clean? ==> total == Total(scan.unseen)
    {
      var o := orders[i];
      var matchedAny, newLogs := false, [];
      total := 0;
      for k := 0 to |logs|
        invariant ScanLogs(Tables(), i, asset, logs) == Resumed(matchedAny, newLogs, ScanLogs(Tables(), i, asset, logs[k..]))
        invariant total == Total(newLogs)
      {
        assert logs[k..][1..] == logs[k + 1..];
        if !Relevant(o, asset, logs[k]) {
          continue;
        }
        matchedAny := true;
        var l := logs[k].log;
        if o.createdBlock.Some? && l.block < o.createdBlock.value {
          return Bad(Predates), 0;
        }
        if Recorded(transfers, l.txHash, l.logIndex) {
          if !RecordedFor(transfers, l.txHash, l.logIndex, i) {
            return Bad(AlreadyUsed), 0;
          }
          continue;
        }
        assert !RecordedFor(transfers, l.txHash, l.logIndex, i);
        if o.channel != Agent && AgentSettled(orders, l.txHash) {
          return Bad(AlreadyUsed), 0;
        }
        TotalSnoc(newLogs, l);
        total, newLogs := total + l.value, newLogs + [l];
      }
      assert logs[|logs|..] == [];
      assert newLogs + [] == newLogs;
      scan := Clean(matchedAny, newLogs);
    }

    method RecordTransfers(i: nat, payTo: Address, newLogs: seq<Log>)
      modifies this`transfers
      ensures transfers == old(transfers) + RowsFor(i, payTo, newLogs)
    {
      for k := 0 to |newLogs|
        invariant transfers == old(transfers) + RowsFor(i, payTo, newLogs[..k])
      {
        assert RowsFor(i, payTo, newLogs[..k + 1]) == RowsFor(i, payTo, newLogs[..k]) + [RowFor(i, payTo, newLogs[k])];
        transfers := transfers + [RowFor(i, payTo, newLogs[k])];
      }
      assert newLogs[..|newLogs|] == newLogs;
    }

    /** Credits only an exact total of transfers nobody has used. */
    method VerifyTxHash(i: nat, txHash: Hash, v: ChainView, now: Time) returns (r: Verdict)
      requires i < |orders|
      modifies this`orders, this`transfers, this`deliveries, this`entitlements, this`effects
      ensures (Tables(), r) == VerifyTx(old(Tables()), i, txHash, v, now)
    {
      var o := orders[i];
      var gate := Gate(o, v, now);
      if gate.Some? {
        return gate.value;
      }
      var scan, total := ScanReceipt(i, v.asset.value, v.receipt.value.logs);
      if scan.Bad? {
        return Rejected(scan.reason);
      }
      if !scan.matched {
        return Rejected(NoTransfer);
      }
      var newLogs := scan.unseen;
      if newLogs == [] {
        return Ignored;
      }
      if total != o.expected {
        return Rejected(WrongTotal);
      }
      if v.head.None? {
        return Rejected(ChainUnavailable);
      }
      if !DistinctKeys(newLogs) {
        return Rejected(DuplicateKey);
      }
      RecordTransfers(i, o.payTo, newLogs);
      Drive(i, total, newLogs[0].block, newLogs[0].from, txHash, v.head.value, now);
      r := Applied;
    }

    // ---------------------------------------------------------- maturing, expiry, release

    method MatureOne(i: nat, asset: Address, receipt: Option<Receipt>, now: Time)
      requires i < |orders| && orders[i].status in {Detected, LatePaid}
      modifies this`orders, this`deliveries, this`entitlements, this`effects
      ensures Tables() == if ReceiptStillValid(old(orders[i]), asset, receipt) then Promote(old(Tables()), i, now)
                          else MarkReorged(old(Tables()), i)
      ensures |orders| == old(|orders|)
    {
      var o := orders[i];
      if !ReceiptStillValid(o, asset, receipt) {
        var _ := Transition(i, {Detected, LatePaid}, Reorged, NO_FIELDS);
        return;
      }
      if o.status == Detected {
        var over := o.paid - o.expected;
        var _ := Transition(i, {Detected}, if over > 0 then Overpaid else Confirmed, NO_FIELDS);
      }
      DeliverOrder(i, now);
    }

    method RefreshOrder(i: nat, v: ChainView, now: Time)
      requires i < |orders|
      modifies this`orders, this`deliveries, this`entitlements, this`effects
      ensures Tables() == Refresh(old(Tables()), i, v, now)
    {
      var o := orders[i];
      if o.status == Pending {
        if now > ExpiryOf(o) {
          var _ := Transition(i, {Pending}, Expired, NO_FIELDS);
        }
        return;
      }
      if o.status in {Detected, LatePaid} && o.block.Some? {
        if v.asset.None? || v.head.None? {
          return;
        }
        if o.block.value <= v.head.value - CONFIRMATIONS {
          MatureOne(i, v.asset.value, v.receipt, now);
        }
      }
    }

    method FlipAndRelease(now: Time)
      modifies this`orders
      ensures Tables() == ReleaseExpired(FlipExpired(old(Tables()), now), now)
    {
      var n := |orders|;
      for k := 0 to n
        invariant |orders| == n
        invariant forall j :: 0 <= j < n ==> orders[j] == if j < k then Flipped(old(orders)[j], now) else old(orders)[j]
      {
        if orders[k].status in {Pending, Underpaid} && now > ExpiryOf(orders[k]) {
          var _ := Transition(k, {Pending, Underpaid}, Expired, NO_FIELDS);
        }
      }
      assert orders == FlipExpired(old(Tables()), now).orders;
      ghost var flipped := orders;
      for k := 0 to n
        invariant |orders| == n
        invariant forall j :: 0 <= j < n ==> orders[j] == if j < k then Released(flipped[j], now) else flipped[j]
      {
        if orders[k].status == Expired && Deadline(orders[k]) + QUARANTINE <= now {
          var _ := Transition(k, {Expired}, Canceled, NO_FIELDS);
        }
      }
      assert orders == ReleaseExpired(FlipExpired(old(Tables()), now), now).orders;
    }

    method PromoteRows(want: Status, network: Network, asset: Option<Address>, head: int, receipts: Receipts, now: Time)
      modifies this`orders, this`deliveries, this`entitlements, this`effects
      requires want in {Detected, LatePaid}
      ensures Tables() == PromotePass(old(Tables()), old(|orders|), want, network, asset, head, receipts, now)
      ensures |orders| == old(|orders|)
    {
      var n := |orders|;
      for k := 0 to n
        invariant |orders| == n
        invariant Tables() == PromotePass(old(Tables()), k, want, network, asset, head, receipts, now)
      {
        var o := orders[k];
        if o.network == network && o.status == want && o.block.Some? && o.block.value <= head - CONFIRMATIONS {
          if asset.Some? {
            MatureOne(k, asset.value, ReceiptOf(o, receipts), now);
          }
        }
      }
    }

    // ---------------------------------------------------------- the sweep

    method Addresses(network: Network, now: Time) returns (addrs: set<Address>)
      ensures addrs == ActiveAddresses(orders, network, now)
    {
      addrs := {};
      for k := 0 to |orders|
        invariant addrs == set j | 0 <= j < k && Listening(orders[j], network, now) :: orders[j].payTo
      {
        var o := orders[k];
        if o.network == network && o.status in {Pending, Detected, Underpaid, Expired} {
          if o.status != Expired || Deadline(o) + QUARANTINE > now {
            addrs := addrs + {o.payTo};
          }
        }
      }
    }

    method ProcessWindow(network: Network, logs: seq<Log>, head: int, now: Time)
      modifies this`orders, this`transfers, this`deliveries, this`entitlements, this`effects
      ensures Tables() == Fold(old(Tables()), network, logs, head, now)
    {
      for k := 0 to |logs|
        invariant Fold(Tables(), network, logs[k..], head, now) == Fold(old(Tables()), network, logs, head, now)
      {
        assert logs[k..][1..] == logs[k + 1..];
        Process(network, logs[k], head, now);
      }
      assert logs[|logs|..] == [];
    }

    /** Fetch, process and commit one window. */
    method SweepWindow(network: Network, chain: seq<Log>, addrs: set<Address>, from: int, head: int, now: Time) returns (to: int)
      modifies this
      ensures to == WindowEnd(from, SafeHead(head))
      ensures Tables() == SetCursor(Fold(old(Tables()), network, ToAny(LogsIn(chain, from, to), addrs), head, now), network, to)
    {
      to := WindowEnd(from, head - CONFIRMATIONS);
      var logs := ToAny(LogsIn(chain, from, to), addrs);
      ProcessWindow(network, logs, head, now);
      cursors := cursors[network := to];
    }

    /** The window loop: one window after the other, as far as the budget goes. */
    method SweepFrom(network: Network, chain: seq<Log>, addrs: set<Address>, start: int, head: int, budget: nat, now: Time)
      modifies this
      ensures Tables() == SweepWindows(old(Tables()), network, chain, addrs, start, head, now, budget)
    {
      var safe := head - CONFIRMATIONS;
      var from, windows := start, 0;
      while from <= safe && windows < budget
        invariant windows <= budget
        invariant SweepWindows(Tables(), network, chain, addrs, from, head, now, budget - windows)
                  == SweepWindows(old(Tables()), network, chain, addrs, start, head, now, budget)
      {
        ghost var before := Tables();
        var to := SweepWindow(network, chain, addrs, from, head, now);
        WindowStep(before, Tables(), network, chain, addrs, from, head, now, budget - windows);
        from, windows := to + 1, windows + 1;
      }
    }

    /** Read the cursor, then sweep at most `budget` windows, one commit each. */
    method SweepSlice(network: Network, chain: seq<Log>, head: int, budget: nat, now: Time)
      modifies this
      ensures Tables() == SweepTick(old(Tables()), network, chain, head, now, budget)
    {
      var safe := head - CONFIRMATIONS;
      if safe < 0 {
        return;
      }
      var cursor := safe;
      if network in cursors {
        cursor := cursors[network];
      } else {
        cursors := cursors[network := safe];
      }
      if cursor < safe {
        var addrs := Addresses(network, now);
        if addrs == {} {
          cursors := cursors[network := safe];
        } else {
          SweepFrom(network, chain, addrs, cursor + 1, head, budget, now);
        }
      }
    }

    /** One chain's slice of a tick. It may stop after any number of windows, as a crash or an
        RPC failure makes it do; otherwise it ends by promoting what has matured. From a good
        state with a cursor, the swept part is one unfiltered fold over a stretch of blocks
        that starts right after the old cursor and ends at the block TickEnd names. */
    method SweepChain(network: Network, chain: seq<Log>, head: int, asset: Option<Address>, receipts: Receipts,
                      crashAfter: Option<nat>, now: Time)
      returns (ghost swept: Db)
      modifies this
      ensures Tables() == if crashAfter.Some? || SafeHead(head) < 0 then swept
                          else PromoteMatured(swept, network, asset, head, receipts, now)
      ensures network !in old(cursors) ==>
                swept == if SafeHead(head) < 0 then old(Tables()) else SetCursor(old(Tables()), network, SafeHead(head))
      ensures Inv(old(Tables())) && InBlockOrder(chain) && network in old(cursors) ==>
                var budget := if crashAfter.Some? then Least(crashAfter.value, MAX_WINDOWS) else MAX_WINDOWS;
                var c := old(cursors)[network];
                SweptOnce(old(Tables()), network, chain, TickEnd(old(orders), network, c, head, now, budget), now, swept)
    {
      var budget := if crashAfter.Some? then Least(crashAfter.value, MAX_WINDOWS) else MAX_WINDOWS;
      SweepSlice(network, chain, head, budget, now);
      swept := Tables();
      SweptAsOneFold(old(Tables()), network, chain, head, budget, now);
      if head - CONFIRMATIONS >= 0 && crashAfter.None? {
        PromoteRows(Detected, network, asset, head, receipts, now);
        PromoteRows(LatePaid, network, asset, head, receipts, now);
      }
    }

    // ---------------------------------------------------------- agent orders

    method LookupNonce(nonce: Hash) returns (k: Option<nat>)
      ensures k == ByNonce(orders, nonce, 0)
      ensures k.Some? ==> k.value < |orders|
    {
      for n := 0 to |orders|
        invariant ByNonce(orders, nonce, n) == ByNonce(orders, nonce, 0)
      {
        if orders[n].nonce == Some(nonce) {
          return Some(n);
        }
      }
      return None;
    }

    method FulfillAgentOrder(p: Purchase, now: Time) returns (r: Purchased)
      modifies this`orders, this`deliveries, this`entitlements, this`effects
      ensures (Tables(), r) == Fulfill(old(Tables()), p, now)
    {
      var existing := LookupNonce(p.nonce);
      if existing.Some? {
        var o := orders[existing.value];
        if o.storeId != p.storeId || o.fromAddr != Some(p.payer) {
          return NonceTaken;
        }
        return Replayed(existing.value);
      }
      var i := |orders|;
      orders := orders + [BornConfirmed(p, now)];
      DeliverOrder(i, now);
      var _ := Transition(i, TERMINAL_DELIVERED, Settling, NO_FIELDS);
      r := Fresh(i);
    }

    method RevokeEntitlement(i: nat)
      modifies this`entitlements
      ensures Tables() == Revoked(old(Tables()), i)
    {
      if i in entitlements {
        entitlements := entitlements[i := entitlements[i].(revoked := true)];
      }
    }

    method FinalizeSettled(i: nat, txHash: Option<Hash>) returns (won: bool)
      requires i < |orders|
      modifies this`orders, this`effects
      ensures Tables() == Finalize(old(Tables()), i, txHash)
      ensures won <==> old(orders[i]).status == Settling
      ensures |orders| == old(|orders|)
    {
      won := Transition(i, {Settling}, Delivered, NO_FIELDS.(paid := Some(orders[i].expected), txHash := txHash));
      if won {
        effects := effects + multiset{OrderPaid(i), OrderDelivered(i), Accrual(i)};
      } else {
        assert orders == old(orders);
      }
    }

    method VoidProvisional(i: nat) returns (won: bool)
      requires i < |orders|
      modifies this`orders, this`entitlements, this`effects
      ensures Tables() == VoidSettling(old(Tables()), i)
      ensures won <==> old(orders[i]).status == Settling
      ensures |orders| == old(|orders|)
    {
      won := Transition(i, {Settling}, Canceled, NO_FIELDS);
      if won {
        RevokeEntitlement(i);
        effects := effects + multiset{OrderVoided(i)};
      } else {
        assert orders == old(orders);
      }
    }

    method RecordSettlementOf(i: nat, txHash: Option<Hash>, deferredPending: bool)
      requires i < |orders|
      modifies this`orders, this`effects
      ensures Tables() == RecordSettlement(old(Tables()), i, txHash, deferredPending)
    {
      var o := orders[i];
      if o.channel != Agent {
        return;
      }
      if txHash.None? || deferredPending {
        if o.status == Settling && txHash.Some? {
          orders := orders[i := o.(settleRef := txHash)];
        }
        return;
      }
      var _ := FinalizeSettled(i, txHash);
    }

    method SettleFailedCore(nonce: Hash)
      modifies this`orders, this`entitlements, this`effects
      ensures Tables() == SettleFailed(old(Tables()), nonce)
    {
      var k := LookupNonce(nonce);
      if k.None? || orders[k.value].channel != Agent {
        return;
      }
      if orders[k.value].status in TERMINAL_DELIVERED {
        return;
      }
      var _ := VoidProvisional(k.value);
    }

    method ReapAgentOrders(chainScanned: bool, scanned: Option<set<nat>>, cutoff: Time) returns (reaped: nat)
      modifies this`orders, this`entitlements, this`effects
      ensures Tables() == Reap(old(Tables()), chainScanned, scanned, cutoff)
    {
      reaped := 0;
      if !chainScanned {
        return;
      }
      var n := |orders|;
      for k := 0 to n
        invariant |orders| == n
        invariant Tables() == ReapFirst(old(Tables()), k, scanned, cutoff)
      {
        var o := orders[k];
        if o.channel == Agent && o.status == Settling && o.settleRef.None? {
          if scanned.Some? && k !in scanned.value {
            continue;
          }
          if o.paidAt.GetOr(o.createdAt) <= cutoff {
            var won := VoidProvisional(k);
            if won {
              reaped := reaped + 1;
            }
          }
        }
      }
    }
  }

  function Least(a: nat, b: nat): nat { if a < b then a else b }

  /** A scan resumed after some logs: what was collected, followed by what is still to come. */
  ghost function Resumed(matched: bool, collected: seq<Log>, rest: Scan): Scan {
    if rest.Bad? then rest else Clean(matched || rest.matched, collected + rest.unseen)
  }

  /** One window committed leaves the rest of the budget to the rest of the blocks. */
  lemma {:induction false} WindowStep(db: Db, db': Db, network: Network, chain: seq<Log>, addrs: set<Address>, from: int, head: int, now: Time, k: nat)
    requires k > 0 && from <= SafeHead(head)
    requires var to := WindowEnd(from, SafeHead(head));
             db' == SetCursor(Fold(db, network, ToAny(LogsIn(chain, from, to), addrs), head, now), network, to)
    ensures SweepWindows(db', network, chain, addrs, WindowEnd(from, SafeHead(head)) + 1, head, now, k - 1)
         == SweepWindows(db, network, chain, addrs, from, head, now, k)
  {
  }

  lemma {:induction false} TotalSnoc(ls: seq<Log>, l: Log)
    ensures Total(ls + [l]) == Total(ls) + l.value
  {
    if ls == [] {
      assert ls + [l] == [l];
    } else {
      assert (ls + [l])[1..] == ls[1..] + [l];
      TotalSnoc(ls[1..], l);
    }
  }

  /** The tables after one fold over the blocks between the old cursor and c'. */
  ghost predicate SweptOnce(db: Db, network: Network, chain: seq<Log>, c': int, now: Time, r: Db) {
    && network in db.cursors
    && db.cursors[network] <= c'
    && r == SweptTo(db, network, chain, db.cursors[network], c', c' + CONFIRMATIONS, now)
  }

  lemma {:induction false} SweptAsOneFold(db: Db, network: Network, chain: seq<Log>, head: int, k: nat, now: Time)
    ensures Inv(db) && InBlockOrder(chain) && network in db.cursors ==>
              var c' := TickEnd(db.orders, network, db.cursors[network], head, now, k);
              SweptOnce(db, network, chain, c', now, SweepTick(db, network, chain, head, now, k))
  {
    if Inv(db) && InBlockOrder(chain) && network in db.cursors {
      var c := db.cursors[network];
      var c' := TickTiles(db, network, chain, head, now, k);
      var _ := TickToBlock(db, network, chain, c, c', head, now, SweepTick(db, network, chain, head, now, k));
    }
  }
}
