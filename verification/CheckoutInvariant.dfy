/** The joint invariant of the checkout tables and the proof that every commit keeps it.

    A view collects everything the tables say about one order. Each commit changes at most
    the views it names, so the per-order part of the invariant is checked one view at a
    time; only two facts are global: the partial unique index and the transfer keys. */
module CheckoutInvariant {
  import opened Prelude
  import opened CheckoutLedger

  ghost function Received(ts: seq<Transfer>, i: nat): int {
    if ts == [] then 0
    else (if ts[0].orderId == i then ts[0].amount else 0) + Received(ts[1..], i)
  }

  datatype View = View(
    o: Order, received: int, delivery: Option<Delivery>, goods: Option<Entitlement>,
    paidHooks: nat, deliveredHooks: nat, voidedHooks: nat, accruals: nat)

  ghost function ViewOf(db: Db, i: nat): View
    requires i < |db.orders|
  {
    View(db.orders[i], Received(db.transfers, i),
         if i in db.deliveries then Some(db.deliveries[i]) else None,
         if i in db.entitlements then Some(db.entitlements[i]) else None,
         db.effects[OrderPaid(i)], db.effects[OrderDelivered(i)], db.effects[OrderVoided(i)], db.effects[Accrual(i)])
  }

  ghost predicate Fired(v: View, n: nat) {
    v.paidHooks == n && v.deliveredHooks == n && v.accruals == n
  }

  /** The goods are out of reach: nothing was handed over, or it was revoked. */
  ghost predicate Withdrawn(v: View) {
    v.goods.Some? ==> v.goods.value.revoked
  }

  ghost predicate Live(v: View) {
    v.goods.Some? ==> !v.goods.value.revoked
  }

  ghost predicate WebOk(v: View) {
    && v.o.nonce.None?
    && v.voidedHooks == 0
    && 0 <= v.o.paid <= v.received
    && v.o.refunded >= 0
    && match v.o.status
       case Pending | Expired | Canceled =>
         v.o.paid == 0 && v.received == 0 && v.o.refunded == 0 && v.delivery.None? && v.goods.None? && Fired(v, 0)
       case Detected | LatePaid | Reorged =>
         v.o.paid >= v.o.expected && v.o.block.Some? && v.o.txHash.Some? && v.o.refunded == 0 &&
         v.delivery.None? && v.goods.None? && Fired(v, 0)
       case Delivered =>
         v.o.paid >= v.o.expected && v.o.refunded == 0 && v.o.txHash.Some? && v.delivery.Some? && Live(v) && Fired(v, 1)
       case Refunded =>
         v.o.paid == v.o.refunded >= v.o.expected && Withdrawn(v) && Fired(v, if v.delivery.Some? then 1 else 0)
       case _ => false
  }

  ghost predicate AgentOk(v: View) {
    && v.o.nonce.Some?
    && v.delivery.Some?
    && match v.o.status
       case Settling =>
         v.o.paid == 0 && v.o.refunded == 0 && Live(v) && Fired(v, 0) && v.voidedHooks == 0
       case Delivered =>
         v.o.paid == v.o.expected && v.o.refunded == 0 && v.o.txHash.Some? && Live(v) && Fired(v, 1) && v.voidedHooks == 0
       case Canceled =>
         v.o.paid == 0 && v.o.refunded == 0 && Withdrawn(v) && Fired(v, 0) && v.voidedHooks == 1
       case Refunded =>
         v.o.paid == v.o.refunded == v.o.expected && v.o.txHash.Some? && Withdrawn(v) && Fired(v, 1) && v.voidedHooks == 0
       case _ => false
  }

  ghost predicate Ok(v: View) {
    && v.o.expected > 0
    && if v.o.channel == Web then WebOk(v) else AgentOk(v)
  }

  ghost predicate RowsOk(db: Db) {
    forall i :: 0 <= i < |db.orders| ==> Ok(ViewOf(db, i))
  }

  ghost predicate Clash(a: Order, b: Order) {
    a.status in RESERVED && b.status in RESERVED && a.payTo == b.payTo && a.expected == b.expected
  }

  /** ux_orders_active_amount: at most one reserved row per address and amount. */
  ghost predicate NoClash(orders: seq<Order>) {
    forall a, b :: 0 <= a < b < |orders| ==> !Clash(orders[a], orders[b])
  }

  /** uq_processed_tx_log: one row per transfer log. */
  ghost predicate KeysDistinct(ts: seq<Transfer>) {
    forall a, b :: 0 <= a < b < |ts| ==> ts[a].txHash != ts[b].txHash || ts[a].logIndex != ts[b].logIndex
  }

  /** ux_orders_x402_nonce: one order per authorization nonce. */
  ghost predicate NoncesDistinct(orders: seq<Order>) {
    forall a, b :: 0 <= a < b < |orders| ==> orders[a].nonce.None? || orders[a].nonce != orders[b].nonce
  }

  /** Nothing refers to an order that does not exist yet. */
  ghost predicate NoStrays(db: Db) {
    && (forall k :: 0 <= k < |db.transfers| ==> db.transfers[k].orderId < |db.orders|)
    && (forall i :: i in db.deliveries ==> i < |db.orders|)
    && (forall i :: i in db.entitlements ==> i < |db.orders|)
    && (forall i: nat :: i >= |db.orders| ==> EffectFree(db, i))
  }

  ghost predicate EffectFree(db: Db, i: nat) {
    db.effects[OrderPaid(i)] == 0 && db.effects[OrderDelivered(i)] == 0 && db.effects[OrderVoided(i)] == 0 && db.effects[Accrual(i)] == 0
  }

  ghost predicate Inv(db: Db) {
    RowsOk(db) && NoClash(db.orders) && KeysDistinct(db.transfers) && NoncesDistinct(db.orders) && NoStrays(db)
  }

  // ------------------------------------------------------------ how a row may evolve

  /** The lifecycle graph: where one commit may take an order that already exists. */
  ghost predicate Allowed(c: Channel, from: Status, to: Status) {
    from == to ||
    if c == Web then
      match from
      case Pending => to in {Detected, Delivered, Expired, Canceled}
      case Detected => to in {Delivered, Reorged}
      case Expired => to in {LatePaid, Delivered, Canceled}
      case LatePaid => to in {Delivered, Reorged, Refunded}
      case Delivered => to == Refunded
      case _ => false
    else
      match from
      case Settling => to in {Delivered, Canceled}
      case Delivered => to == Refunded
      case _ => false
  }

  ghost predicate SameIdentity(a: Order, b: Order) {
    && a.payTo == b.payTo && a.expected == b.expected && a.network == b.network && a.amount == b.amount
    && a.channel == b.channel && a.nonce == b.nonce && a.storeId == b.storeId && a.productId == b.productId
    && a.createdAt == b.createdAt && a.expiresAt == b.expiresAt && a.createdBlock == b.createdBlock
  }

  ghost predicate Evolves(a: Order, b: Order) {
    SameIdentity(a, b) && Allowed(a.channel, a.status, b.status) && (a.channel == Agent ==> a.status != Settling ==> b.txHash == a.txHash && b.settleRef == a.settleRef)
  }

  /** Rows keep their place, never lose their identity and only follow the graph. */
  ghost predicate Progress(db: Db, db': Db) {
    && |db.orders| <= |db'.orders|
    && db.transfers <= db'.transfers
    && forall i :: 0 <= i < |db.orders| ==> Evolves(db.orders[i], db'.orders[i])
  }

  /** Only order i's view changed. */
  ghost predicate Frame(db: Db, db': Db, i: nat) {
    && |db'.orders| == |db.orders|
    && forall j :: 0 <= j < |db.orders| && j != i ==> ViewOf(db', j) == ViewOf(db, j)
  }

  // ------------------------------------------------------------ views of the primitives

  lemma TransitionView(db: Db, i: nat, from: set<Status>, to: Status, f: Fields)
    requires i < |db.orders|
    ensures var db' := Transitioned(db, i, from, to, f);
            Frame(db, db', i) &&
            ViewOf(db', i) == ViewOf(db, i).(o := Moved(db.orders[i], from, to, f))
  {
  }

  lemma DeliverView(db: Db, i: nat, now: Time)
    requires i < |db.orders| && db.orders[i].status in READY_TO_DELIVER
    ensures var db' := Deliver(db, i, now);
            var v, v' := ViewOf(db, i), ViewOf(db', i);
            var n := if v.o.channel == Agent then 0 else 1;
            && Frame(db, db', i)
            && v'.o == Written(v.o, Delivered, NO_FIELDS.(paidAt := Some(now)))
            && v'.received == v.received
            && v'.delivery.Some?
            && (v.goods.Some? ==> v'.goods == v.goods)
            && (v.goods.None? ==> Live(v'))
            && v'.paidHooks == v.paidHooks + n && v'.deliveredHooks == v.deliveredHooks + n
            && v'.accruals == v.accruals + n && v'.voidedHooks == v.voidedHooks
  {
    var db' := Deliver(db, i, now);
    var s := SaleEffects(db'.orders[i], i);
    assert db'.effects == db.effects + s;
    forall j | 0 <= j < |db.orders| && j != i
      ensures ViewOf(db', j) == ViewOf(db, j)
    {
      assert s[OrderPaid(j)] == 0 && s[OrderDelivered(j)] == 0 && s[OrderVoided(j)] == 0 && s[Accrual(j)] == 0;
    }
  }

  lemma {:induction false} ReceivedAppend(ts: seq<Transfer>, us: seq<Transfer>, i: nat)
    ensures Received(ts + us, i) == Received(ts, i) + Received(us, i)
  {
    if ts == [] {
      assert ts + us == us;
    } else {
      assert (ts + us)[1..] == ts[1..] + us;
      ReceivedAppend(ts[1..], us, i);
    }
  }

  lemma {:induction false} ReceivedRows(i: nat, payTo: Address, ls: seq<Log>, j: nat)
    ensures Received(RowsFor(i, payTo, ls), j) == if i == j then Total(ls) else 0
  {
    if ls != [] {
      assert RowsFor(i, payTo, ls)[1..] == RowsFor(i, payTo, ls[1..]);
      ReceivedRows(i, payTo, ls[1..], j);
    }
  }

  lemma {:induction false} RecordView(db: Db, i: nat, payTo: Address, ls: seq<Log>)
    requires i < |db.orders|
    ensures var db' := db.(transfers := db.transfers + RowsFor(i, payTo, ls));
            Frame(db, db', i) && ViewOf(db', i) == ViewOf(db, i).(received := ViewOf(db, i).received + Total(ls))
  {
    forall j | 0 <= j < |db.orders|
      ensures Received(db.transfers + RowsFor(i, payTo, ls), j) == Received(db.transfers, j) + if i == j then Total(ls) else 0
    {
      ReceivedAppend(db.transfers, RowsFor(i, payTo, ls), j);
      ReceivedRows(i, payTo, ls, j);
    }
  }

  // ------------------------------------------------------------ crediting one order

  /** What crediting `added` (exactly the amount due) to order i does to its view, from each
      status a crediting commit can meet. */
  ghost predicate Credited(v: View, v': View, added: int, deep: bool, txHash: Hash, block: int) {
    && Ok(v')
    && Evolves(v.o, v'.o)
    && (v.o.channel == Web && v.o.status in {Pending, Detected, Expired} ==>
          && v'.received - v'.o.paid == v.received - v.o.paid
          && v'.o.block == Some(block) && v'.o.txHash == Some(txHash)
          && v'.o.status == if deep then Delivered else if v.o.status == Expired then LatePaid else Detected)
    && (v.o.channel == Web && v.o.status == LatePaid ==>
          && v'.received - v'.o.paid == v.received - v.o.paid + added
          && v'.o.status == if deep then Delivered else LatePaid)
    && (v.o.channel == Agent ==> v'.o == v.o)
  }

  /** Statuses in which a crediting commit can find an order. */
  ghost predicate Creditable(o: Order) {
    o.status in {Pending, Detected, Expired, LatePaid} || (o.channel == Agent && o.status == Settling)
  }

  /** The view after one written transition, followed by a delivery when the row is ready. */
  ghost predicate MovedAndDelivered(v: View, o1: Order, deep: bool, now: Time, v': View) {
    if deep && o1.status in READY_TO_DELIVER then
      var n := if v.o.channel == Agent then 0 else 1;
      && v'.o == Written(o1, Delivered, NO_FIELDS.(paidAt := Some(now)))
      && v'.received == v.received && v'.delivery.Some?
      && (if v.goods.Some? then v'.goods == v.goods else Live(v'))
      && v'.paidHooks == v.paidHooks + n && v'.deliveredHooks == v.deliveredHooks + n
      && v'.accruals == v.accruals + n && v'.voidedHooks == v.voidedHooks
    else v' == v.(o := o1)
  }

  lemma CreditSteps(db: Db, i: nat, from: set<Status>, to: Status, f: Fields, deep: bool, now: Time)
    requires i < |db.orders|
    ensures var moved := Transitioned(db, i, from, to, f);
            var db' := if deep then Deliver(moved, i, now) else moved;
            && Frame(db, db', i)
            && db'.transfers == db.transfers
            && MovedAndDelivered(ViewOf(db, i), Moved(db.orders[i], from, to, f), deep, now, ViewOf(db', i))
  {
    var moved := Transitioned(db, i, from, to, f);
    TransitionView(db, i, from, to, f);
    if deep && moved.orders[i].status in READY_TO_DELIVER {
      DeliverView(moved, i, now);
    }
  }

  ghost function CreditFields(o: Order, added: int, block: int, from: Address, txHash: Hash): Fields {
    NO_FIELDS.(paid := Some(o.paid + added), block := Some(block), fromAddr := Some(from), txHash := Some(txHash))
  }

  lemma LateCreditOk(v: View, w: View, v': View, added: int, deep: bool, block: int, from: Address, txHash: Hash, now: Time)
    requires Ok(v) && v.o.status == Expired && added == v.o.expected
    requires w == v.(received := v.received + added)
    requires MovedAndDelivered(w, Moved(v.o, {Expired}, LatePaid, CreditFields(v.o, added, block, from, txHash)), deep, now, v')
    ensures Credited(v, v', added, deep, txHash, block)
  {
  }

  lemma InFlightCreditOk(v: View, w: View, v': View, added: int, deep: bool, block: int, from: Address, txHash: Hash, now: Time)
    requires Ok(v) && v.o.status in {Pending, Detected} && added == v.o.expected
    requires w == v.(received := v.received + added)
    requires var over := v.o.paid + added - v.o.expected;
             var to := if !deep then Detected else if over > 0 then Overpaid else Confirmed;
             var f := CreditFields(v.o, added, block, from, txHash).(over := Some(over));
             MovedAndDelivered(w, Moved(v.o, IN_FLIGHT, to, f), deep, now, v')
    ensures Credited(v, v', added, deep, txHash, block)
  {
  }

  /** The leak: the guard no longer matches, so the transfer is recorded and nothing is added. */
  lemma UnguardedCreditOk(v: View, w: View, v': View, added: int, deep: bool, block: int, from: Address, txHash: Hash, now: Time, to: Status, f: Fields)
    requires Ok(v) && (v.o.status == LatePaid || (v.o.channel == Agent && v.o.status == Settling)) && added == v.o.expected
    requires w == v.(received := v.received + added)
    requires MovedAndDelivered(w, Moved(v.o, IN_FLIGHT, to, f), deep, now, v')
    ensures Credited(v, v', added, deep, txHash, block)
  {
  }

  lemma DriveStateSteps(db: Db, i: nat, added: int, block: int, from: Address, txHash: Hash, head: int, now: Time)
    requires i < |db.orders| && (db.orders[i].status != Expired ==> db.orders[i].paid + added >= db.orders[i].expected)
    ensures var o, deep := db.orders[i], Deep(head, block);
            var f := CreditFields(o, added, block, from, txHash);
            var over := o.paid + added - o.expected;
            var to := if !deep then Detected else if over > 0 then Overpaid else Confirmed;
            var moved := if o.status == Expired then Transitioned(db, i, {Expired}, LatePaid, f)
                         else Transitioned(db, i, IN_FLIGHT, to, f.(over := Some(over)));
            DriveState(db, i, added, block, from, txHash, head, now) == if deep then Deliver(moved, i, now) else moved
  {
  }

  lemma {:induction false} DriveStateOk(db: Db, i: nat, added: int, block: int, from: Address, txHash: Hash, head: int, now: Time, before: View)
    requires i < |db.orders|
    requires Ok(before) && Creditable(before.o) && added == before.o.expected
    requires ViewOf(db, i) == before.(received := before.received + added)
    ensures var db' := DriveState(db, i, added, block, from, txHash, head, now);
            && Frame(db, db', i)
            && Credited(before, ViewOf(db', i), added, Deep(head, block), txHash, block)
            && db'.transfers == db.transfers
  {
    var o, w, deep := before.o, ViewOf(db, i), Deep(head, block);
    assert db.orders[i] == w.o == o;
    var f := CreditFields(o, added, block, from, txHash);
    var over := o.paid + added - o.expected;
    var to := if !deep then Detected else if over > 0 then Overpaid else Confirmed;
    var g := f.(over := Some(over));
    var db' := DriveState(db, i, added, block, from, txHash, head, now);
    var v' := ViewOf(db', i);
    assert o.paid >= 0;
    DriveStateSteps(db, i, added, block, from, txHash, head, now);
    if o.status == Expired {
      CreditSteps(db, i, {Expired}, LatePaid, f, deep, now);
      LateCreditOk(before, w, v', added, deep, block, from, txHash, now);
    } else {
      CreditSteps(db, i, IN_FLIGHT, to, g, deep, now);
      if o.status in {Pending, Detected} {
        InFlightCreditOk(before, w, v', added, deep, block, from, txHash, now);
      } else {
        UnguardedCreditOk(before, w, v', added, deep, block, from, txHash, now, to, g);
      }
    }
  }

  // ------------------------------------------------------------ from one view to the tables

  lemma FrameKeepsRows(db: Db, db': Db, i: nat)
    requires RowsOk(db) && i < |db.orders| && Frame(db, db', i) && Ok(ViewOf(db', i))
    ensures RowsOk(db')
  {
    forall j | 0 <= j < |db'.orders|
      ensures Ok(ViewOf(db', j))
    {
      if j != i {
        assert ViewOf(db', j) == ViewOf(db, j);
      }
    }
  }

  lemma FrameProgress(db: Db, db': Db, i: nat)
    requires i < |db.orders| && Frame(db, db', i) && db.transfers <= db'.transfers
    requires Evolves(db.orders[i], db'.orders[i])
    ensures Progress(db, db')
  {
    forall j | 0 <= j < |db.orders|
      ensures Evolves(db.orders[j], db'.orders[j])
    {
      if j != i {
        assert ViewOf(db', j) == ViewOf(db, j);
      }
    }
  }

  lemma ProgressKeepsIndexes(db: Db, db': Db)
    requires Progress(db, db') && |db.orders| == |db'.orders|
    requires NoClash(db.orders) && NoncesDistinct(db.orders)
    ensures NoClash(db'.orders) && NoncesDistinct(db'.orders)
  {
    forall a, b | 0 <= a < b < |db'.orders|
      ensures !Clash(db'.orders[a], db'.orders[b])
      ensures db'.orders[a].nonce.None? || db'.orders[a].nonce != db'.orders[b].nonce
    {
      assert Evolves(db.orders[a], db'.orders[a]) && Evolves(db.orders[b], db'.orders[b]);
      assert !Clash(db.orders[a], db.orders[b]);
    }
  }

  /** Tables of effects and goods only ever grow at order i. */
  ghost predicate StraysOnlyAt(db: Db, db': Db, i: nat) {
    && (forall k :: |db.transfers| <= k < |db'.transfers| ==> db'.transfers[k].orderId == i)
    && db'.deliveries.Keys <= db.deliveries.Keys + {i}
    && db'.entitlements.Keys <= db.entitlements.Keys + {i}
    && forall j: nat :: j != i ==> SameEffects(db, db', j)
  }

  ghost predicate SameEffects(db: Db, db': Db, j: nat) {
    && db'.effects[OrderPaid(j)] == db.effects[OrderPaid(j)]
    && db'.effects[OrderDelivered(j)] == db.effects[OrderDelivered(j)]
    && db'.effects[OrderVoided(j)] == db.effects[OrderVoided(j)]
    && db'.effects[Accrual(j)] == db.effects[Accrual(j)]
  }

  lemma OneRowStep(db: Db, db': Db, i: nat)
    requires Inv(db) && i < |db.orders|
    requires Frame(db, db', i) && Ok(ViewOf(db', i)) && Evolves(db.orders[i], db'.orders[i])
    requires db.transfers <= db'.transfers && KeysDistinct(db'.transfers) && StraysOnlyAt(db, db', i)
    ensures Inv(db') && Progress(db, db')
  {
    FrameKeepsRows(db, db', i);
    FrameProgress(db, db', i);
    ProgressKeepsIndexes(db, db');
    forall k | 0 <= k < |db'.transfers|
      ensures db'.transfers[k].orderId < |db'.orders|
    {
      if k < |db.transfers| {
        assert db'.transfers[k] == db.transfers[k];
      }
    }
    forall j: nat | j >= |db'.orders|
      ensures EffectFree(db', j)
    {
      assert SameEffects(db, db', j) && EffectFree(db, j);
    }
  }

  lemma ProgressTrans(a: Db, b: Db, c: Db)
    requires Progress(a, b) && Progress(b, c)
    requires forall i :: 0 <= i < |a.orders| ==> Allowed(a.orders[i].channel, a.orders[i].status, c.orders[i].status)
    ensures Progress(a, c)
  {
    forall i | 0 <= i < |a.orders|
      ensures Evolves(a.orders[i], c.orders[i])
    {
      assert Evolves(a.orders[i], b.orders[i]) && Evolves(b.orders[i], c.orders[i]);
    }
  }
}
