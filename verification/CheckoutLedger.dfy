/** The checkout tables and what one committed transaction does to them.

    A table with an auto-increment id is a sequence whose positions are the ids; a table
    with a UNIQUE order_id is a map keyed by it. Every function maps the tables before a
    commit to the tables after it; the class in CheckoutService.dfy computes the same
    tables by updating fields, and CheckoutInvariant.dfy and CheckoutRuns.dfy say what
    the tables then satisfy. */
module CheckoutLedger {
  import opened Prelude

  const CONFIRMATIONS: int := 3
  const ORDER_TTL: Time := 30 * 60
  const QUARANTINE: Time := 24 * 3600
  const OFFSET_MIN: int := 1
  const OFFSET_MAX: int := 4999
  const OFFSET_FLOOR: int := 50
  const OFFSET_MAX_PCT: int := 1
  const ALLOC_RETRIES: nat := 10

  datatype Status =
    | Pending | Detected | Underpaid | Expired | LatePaid | Confirmed | Overpaid
    | Delivered | Paid | Settling | Refunded | Canceled | Reorged

  datatype Channel = Web | Agent

  datatype Order = Order(
    storeId: nat, productId: Option<nat>, network: Network, payTo: Address,
    amount: int, expected: int, paid: int, over: int, refunded: int,
    status: Status, channel: Channel, nonce: Option<Hash>,
    txHash: Option<Hash>, settleRef: Option<Hash>, fromAddr: Option<Address>,
    block: Option<int>, createdBlock: Option<int>,
    createdAt: Time, expiresAt: Option<Time>, paidAt: Option<Time>)

  datatype Transfer = Transfer(
    txHash: Hash, logIndex: nat, orderId: nat, payTo: Address, fromAddr: Address, amount: nat, block: nat)

  datatype Kind = Text | License | File

  datatype Deliverable = Deliverable(storeId: nat, productId: Option<nat>, kind: Kind, active: bool)

  datatype Delivery = Delivery(kind: Kind)

  datatype Entitlement = Entitlement(deliverableId: nat, buyer: Option<Address>, revoked: bool)

  /** A row of the webhook outbox, or a call of the affiliate accrual, for one order. */
  datatype Effect =
    | OrderPaid(orderId: nat) | OrderDelivered(orderId: nat)
    | OrderVoided(orderId: nat) | OrderRefunded(orderId: nat)
    | Accrual(orderId: nat)

  datatype Db = Db(
    orders: seq<Order>,
    transfers: seq<Transfer>,
    deliverables: seq<Deliverable>,
    deliveries: map<nat, Delivery>,
    entitlements: map<nat, Entitlement>,
    effects: multiset<Effect>,
    cursors: map<Network, int>)

  const IN_FLIGHT := {Pending, Detected, Underpaid}
  const READY_TO_DELIVER := {Confirmed, Overpaid, LatePaid}
  const ALWAYS_HOLD := IN_FLIGHT + READY_TO_DELIVER
  const COOLDOWN_HOLD := {Delivered, Paid, Refunded}
  const TERMINAL_DELIVERED := {Delivered, Paid}
  /** The statuses of the partial unique index on (pay_to, expected_micro). */
  const RESERVED := {Pending, Detected, Underpaid, Expired, LatePaid}

  // ------------------------------------------------------------ one row

  /** The columns a transition may write beside the status; None leaves one alone. */
  datatype Fields = Fields(
    paid: Option<int>, over: Option<int>, refunded: Option<int>, block: Option<int>,
    fromAddr: Option<Address>, txHash: Option<Hash>, paidAt: Option<Time>)

  const NO_FIELDS := Fields(None, None, None, None, None, None, None)

  function Written(o: Order, to: Status, f: Fields): Order {
    o.(status := to,
       paid := f.paid.GetOr(o.paid),
       over := f.over.GetOr(o.over),
       refunded := f.refunded.GetOr(o.refunded),
       block := if f.block.Some? then f.block else o.block,
       fromAddr := if f.fromAddr.Some? then f.fromAddr else o.fromAddr,
       txHash := if f.txHash.Some? then f.txHash else o.txHash,
       paidAt := if f.paidAt.Some? then f.paidAt else o.paidAt)
  }

  function Moved(o: Order, from: set<Status>, to: Status, f: Fields): Order {
    if o.status in from then Written(o, to, f) else o
  }

  function Transitioned(db: Db, i: nat, from: set<Status>, to: Status, f: Fields): Db
    requires i < |db.orders|
  {
    db.(orders := db.orders[i := Moved(db.orders[i], from, to, f)])
  }

  /** The end of an order's payment window as the quarantine rules read it. */
  function Deadline(o: Order): Time {
    o.expiresAt.GetOr(o.createdAt)
  }

  /** The same deadline as the expiry rules read it: a row without one gets the TTL. */
  function ExpiryOf(o: Order): Time {
    o.expiresAt.GetOr(o.createdAt + ORDER_TTL)
  }

  predicate Quarantined(o: Order, now: Time) {
    o.status == Expired && Deadline(o) + QUARANTINE > now
  }

  // ------------------------------------------------------------ delivery

  predicate ServesProduct(d: Deliverable, storeId: nat, productId: Option<nat>) {
    d.active && d.storeId == storeId && d.productId == productId
  }

  /** The newest active deliverable bound to exactly this product (None: the store default). */
  function NewestFor(ds: seq<Deliverable>, storeId: nat, productId: Option<nat>): Option<nat> {
    if ds == [] then None
    else if ServesProduct(ds[|ds| - 1], storeId, productId) then Some(|ds| - 1)
    else NewestFor(ds[..|ds| - 1], storeId, productId)
  }

  function ActiveDeliverable(ds: seq<Deliverable>, storeId: nat, productId: Option<nat>): Option<nat> {
    var specific := if productId.Some? then NewestFor(ds, storeId, productId) else None;
    if specific.Some? then specific else NewestFor(ds, storeId, None)
  }

  /** What delivering order i hands over: the Delivery row's kind, and the deliverable if any. */
  function Goods(db: Db, i: nat): (Kind, Option<nat>)
    requires i < |db.orders|
  {
    var d := ActiveDeliverable(db.deliverables, db.orders[i].storeId, db.orders[i].productId);
    if d.Some? && d.value < |db.deliverables| then (db.deliverables[d.value].kind, d) else (Text, None)
  }

  function SaleEffects(o: Order, i: nat): multiset<Effect> {
    if o.channel == Agent then multiset{} else multiset{OrderPaid(i), OrderDelivered(i), Accrual(i)}
  }

  function Deliver(db: Db, i: nat, now: Time): Db
    requires i < |db.orders|
  {
    if db.orders[i].status !in READY_TO_DELIVER then db
    else
      var o := Written(db.orders[i], Delivered, NO_FIELDS.(paidAt := Some(now)));
      var (kind, goods) := Goods(db, i);
      db.(orders := db.orders[i := o],
          entitlements := if goods.Some? && i !in db.entitlements
                          then db.entitlements[i := Entitlement(goods.value, o.fromAddr, false)]
                          else db.entitlements,
          deliveries := if i in db.deliveries then db.deliveries else db.deliveries[i := Delivery(kind)],
          effects := db.effects + SaleEffects(o, i))
  }

  // ------------------------------------------------------------ amount allocation

  predicate HoldsAmount(o: Order, now: Time) {
    || o.status in ALWAYS_HOLD
    || Quarantined(o, now)
    || (o.status in COOLDOWN_HOLD && o.paidAt.GetOr(o.createdAt) + QUARANTINE > now)
  }

  predicate SameAmount(o: Order, payTo: Address, expected: int) {
    o.payTo == payTo && o.expected == expected
  }

  predicate AmountTaken(orders: seq<Order>, payTo: Address, expected: int, now: Time) {
    exists k :: 0 <= k < |orders| && SameAmount(orders[k], payTo, expected) && HoldsAmount(orders[k], now)
  }

  /** The unique index refuses a second reserved row for the same address and amount. */
  predicate IndexRefuses(orders: seq<Order>, payTo: Address, expected: int) {
    exists k :: 0 <= k < |orders| && SameAmount(orders[k], payTo, expected) && orders[k].status in RESERVED
  }

  function Max(a: int, b: int): int { if a > b then a else b }
  function Min(a: int, b: int): int { if a < b then a else b }

  function OffsetSpan(base: int): int
    requires base > 0
  {
    Min(OFFSET_MAX, Max(OFFSET_FLOOR, base * OFFSET_MAX_PCT / 100))
  }

  /** What the buyer asked for; the price is positive at every caller. */
  datatype Cart = Cart(storeId: nat, productId: nat, network: Network, payTo: Address, base: int, createdBlock: Option<int>)

  function NewOrder(c: Cart, expected: int, now: Time): Order {
    Order(c.storeId, Some(c.productId), c.network, c.payTo, c.base, expected, 0, 0, 0,
          Pending, Web, None, None, None, None, None, c.createdBlock, now, Some(now + ORDER_TTL), None)
  }

  predicate DrawWorks(orders: seq<Order>, c: Cart, draw: int, now: Time) {
    && !AmountTaken(orders, c.payTo, c.base + draw, now)
    && !IndexRefuses(orders, c.payTo, c.base + draw)
  }

  /** The first usable draw wins; with none the caller sees AmountUnavailable. */
  function CreateOrder(db: Db, c: Cart, draws: seq<int>, now: Time): (Db, Option<nat>)
    decreases |draws|
  {
    if draws == [] then (db, None)
    else if DrawWorks(db.orders, c, draws[0], now) then
      (db.(orders := db.orders + [NewOrder(c, c.base + draws[0], now)]), Some(|db.orders|))
    else CreateOrder(db, c, draws[1..], now)
  }

  // ------------------------------------------------------------ matching

  predicate Pinned(o: Order, network: Network, payTo: Address, value: int) {
    o.network == network && o.payTo == payTo && o.expected == value
  }

  /** Whether a transfer of value to payTo on this network may credit the order now. */
  predicate Matchable(o: Order, network: Network, payTo: Address, value: int, now: Time) {
    Pinned(o, network, payTo, value) && (o.status in IN_FLIGHT || Quarantined(o, now))
  }

  /** Oldest in-flight order among the first n rows. */
  function OldestInFlight(orders: seq<Order>, network: Network, payTo: Address, value: int, n: nat): Option<nat>
    requires n <= |orders|
  {
    if n == 0 then None
    else
      var best := OldestInFlight(orders, network, payTo, value, n - 1);
      var o := orders[n - 1];
      if Pinned(o, network, payTo, value) && o.status in IN_FLIGHT &&
         (best.None? || (best.value < |orders| && o.createdAt < orders[best.value].createdAt))
      then Some(n - 1) else best
  }

  /** First quarantined expired order from row n on. */
  function FirstQuarantined(orders: seq<Order>, network: Network, payTo: Address, value: int, now: Time, n: nat): Option<nat>
    requires n <= |orders|
    decreases |orders| - n
  {
    if n == |orders| then None
    else if Pinned(orders[n], network, payTo, value) && Quarantined(orders[n], now) then Some(n)
    else FirstQuarantined(orders, network, payTo, value, now, n + 1)
  }

  function MatchOrder(orders: seq<Order>, network: Network, payTo: Address, value: int, now: Time): Option<nat> {
    var live := OldestInFlight(orders, network, payTo, value, |orders|);
    if live.Some? then live else FirstQuarantined(orders, network, payTo, value, now, 0)
  }

  // ------------------------------------------------------------ crediting

  /** A decoded ERC-20 Transfer log of the chain's asset. */
  datatype Log = Log(txHash: Hash, logIndex: nat, to: Address, from: Address, value: nat, block: nat)

  predicate Recorded(ts: seq<Transfer>, txHash: Hash, logIndex: nat) {
    exists k :: 0 <= k < |ts| && ts[k].txHash == txHash && ts[k].logIndex == logIndex
  }

  predicate RecordedFor(ts: seq<Transfer>, txHash: Hash, logIndex: nat, i: nat) {
    exists k :: 0 <= k < |ts| && ts[k].txHash == txHash && ts[k].logIndex == logIndex && ts[k].orderId == i
  }

  /** Whether an agent order already names this transaction as its settlement. */
  predicate AgentSettled(orders: seq<Order>, txHash: Hash) {
    exists k :: 0 <= k < |orders| && orders[k].channel == Agent &&
                (orders[k].txHash == Some(txHash) || orders[k].settleRef == Some(txHash))
  }

  function RowFor(i: nat, payTo: Address, l: Log): Transfer {
    Transfer(l.txHash, l.logIndex, i, payTo, l.from, l.value, l.block)
  }

  predicate Deep(head: int, block: int) {
    head - block >= CONFIRMATIONS
  }

  function DriveState(db: Db, i: nat, added: int, block: int, from: Address, txHash: Hash, head: int, now: Time): Db
    requires i < |db.orders|
  {
    var o := db.orders[i];
    var total := o.paid + added;
    var f := NO_FIELDS.(paid := Some(total), block := Some(block), fromAddr := Some(from), txHash := Some(txHash));
    if o.status == Expired then
      var late := Transitioned(db, i, {Expired}, LatePaid, f);
      if Deep(head, block) then Deliver(late, i, now) else late
    else if total < o.expected then
      Transitioned(db, i, {Pending, Underpaid}, Underpaid, f)
    else
      var over := total - o.expected;
      var g := f.(over := Some(over));
      if !Deep(head, block) then Transitioned(db, i, IN_FLIGHT, Detected, g)
      else Deliver(Transitioned(db, i, IN_FLIGHT, if over > 0 then Overpaid else Confirmed, g), i, now)
  }

  function ApplyTransfer(db: Db, i: nat, l: Log, head: int, now: Time): Db
    requires i < |db.orders|
  {
    DriveState(db.(transfers := db.transfers + [RowFor(i, db.orders[i].payTo, l)]),
               i, l.value, l.block, l.from, l.txHash, head, now)
  }

  /** One swept log. (The unmatched-transfer event row is not modelled.) */
  function ProcessLog(db: Db, network: Network, l: Log, head: int, now: Time): Db {
    if Recorded(db.transfers, l.txHash, l.logIndex) || AgentSettled(db.orders, l.txHash) then db
    else
      var m := MatchOrder(db.orders, network, l.to, l.value, now);
      if m.Some? && m.value < |db.orders| then ApplyTransfer(db, m.value, l, head, now) else db
  }

  /** A window of logs, in the order the chain returned them. */
  function Fold(db: Db, network: Network, logs: seq<Log>, head: int, now: Time): Db
    decreases |logs|
  {
    if logs == [] then db
    else Fold(ProcessLog(db, network, logs[0], head, now), network, logs[1..], head, now)
  }

  // ------------------------------------------------------------ the tx-hash fast path

  /** A receipt log before filtering: any contract, any event. */
  datatype RawLog = RawLog(asset: Address, isTransfer: bool, log: Log)

  datatype Receipt = Receipt(succeeded: bool, block: Option<int>, logs: seq<RawLog>)

  datatype Reason =
    | NotActive | WindowClosed | NotFound | Failed | Predates | AlreadyUsed
    | NoTransfer | WrongTotal | ChainUnavailable | DuplicateKey

  datatype Verdict = Ignored | Applied | Rejected(reason: Reason)

  datatype Scan = Bad(reason: Reason) | Clean(matched: bool, unseen: seq<Log>)

  predicate Relevant(o: Order, asset: Address, r: RawLog) {
    r.asset == asset && r.isTransfer && r.log.to == o.payTo
  }

  /** Why one relevant log spoils the submission, if it does. */
  function Objection(db: Db, i: nat, l: Log): Option<Reason>
    requires i < |db.orders|
  {
    var o := db.orders[i];
    if o.createdBlock.Some? && l.block < o.createdBlock.value then Some(Predates)
    else if RecordedFor(db.transfers, l.txHash, l.logIndex, i) then None
    else if Recorded(db.transfers, l.txHash, l.logIndex) then Some(AlreadyUsed)
    else if o.channel != Agent && AgentSettled(db.orders, l.txHash) then Some(AlreadyUsed)
    else None
  }

  function ScanLogs(db: Db, i: nat, asset: Address, logs: seq<RawLog>): Scan
    requires i < |db.orders|
  {
    if logs == [] then Clean(false, [])
    else
      var l := logs[0].log;
      if !Relevant(db.orders[i], asset, logs[0]) then ScanLogs(db, i, asset, logs[1..])
      else if Objection(db, i, l).Some? then Bad(Objection(db, i, l).value)
      else
        var rest := ScanLogs(db, i, asset, logs[1..]);
        if rest.Bad? then rest
        else if Recorded(db.transfers, l.txHash, l.logIndex) then Clean(true, rest.unseen)
        else Clean(true, [l] + rest.unseen)
  }

  function Total(ls: seq<Log>): nat {
    if ls == [] then 0 else ls[0].value + Total(ls[1..])
  }

  predicate DistinctKeys(ls: seq<Log>) {
    forall a, b :: 0 <= a < b < |ls| ==> ls[a].txHash != ls[b].txHash || ls[a].logIndex != ls[b].logIndex
  }

  function RowsFor(i: nat, payTo: Address, ls: seq<Log>): seq<Transfer> {
    seq(|ls|, k requires 0 <= k < |ls| => RowFor(i, payTo, ls[k]))
  }

  /** What the chain answers for one submission: the asset of the order's own chain (None
      when the chain is not registered), the receipt, and the head (None on an RPC failure). */
  datatype ChainView = ChainView(asset: Option<Address>, receipt: Option<Receipt>, head: Option<int>)

  function Gate(o: Order, v: ChainView, now: Time): Option<Verdict> {
    if o.status in TERMINAL_DELIVERED || o.status == Refunded then Some(Ignored)
    else if o.status in {Canceled, Reorged} then Some(Rejected(NotActive))
    else if o.status == Expired && !Quarantined(o, now) then Some(Rejected(WindowClosed))
    else if v.asset.None? then Some(Rejected(ChainUnavailable))
    else if v.receipt.None? then Some(Rejected(NotFound))
    else if !v.receipt.value.succeeded then Some(Rejected(Failed))
    else None
  }

  function VerifyTx(db: Db, i: nat, txHash: Hash, v: ChainView, now: Time): (Db, Verdict)
    requires i < |db.orders|
  {
    var o := db.orders[i];
    var gate := Gate(o, v, now);
    if gate.Some? then (db, gate.value)
    else
      var scan := ScanLogs(db, i, v.asset.value, v.receipt.value.logs);
      if scan.Bad? then (db, Rejected(scan.reason))
      else if !scan.matched then (db, Rejected(NoTransfer))
      else if scan.unseen == [] then (db, Ignored)
      else if Total(scan.unseen) != o.expected then (db, Rejected(WrongTotal))
      else if v.head.None? then (db, Rejected(ChainUnavailable))
      else if !DistinctKeys(scan.unseen) then (db, Rejected(DuplicateKey))
      else
        var recorded := db.(transfers := db.transfers + RowsFor(i, o.payTo, scan.unseen));
        (DriveState(recorded, i, o.expected, scan.unseen[0].block, scan.unseen[0].from, txHash, v.head.value, now),
         Applied)
  }

  // ------------------------------------------------------------ re-checking, expiry, release

  predicate ReceiptStillValid(o: Order, asset: Address, receipt: Option<Receipt>) {
    && receipt.Some?
    && receipt.value.succeeded
    && receipt.value.block.Some?
    && receipt.value.block == o.block
    && exists k :: 0 <= k < |receipt.value.logs| && Relevant(o, asset, receipt.value.logs[k])
  }

  function MarkReorged(db: Db, i: nat): Db
    requires i < |db.orders|
  {
    Transitioned(db, i, {Detected, LatePaid}, Reorged, NO_FIELDS)
  }

  /** Confirm a matured detected order (a late-paid one needs no confirming) and deliver it. */
  function Promote(db: Db, i: nat, now: Time): Db
    requires i < |db.orders|
  {
    var o := db.orders[i];
    var confirmed := if o.status == Detected
                     then Transitioned(db, i, {Detected}, if o.paid - o.expected > 0 then Overpaid else Confirmed, NO_FIELDS)
                     else db;
    Deliver(confirmed, i, now)
  }

  predicate Matured(o: Order, head: int) {
    o.status in {Detected, LatePaid} && o.block.Some? && o.block.value <= head - CONFIRMATIONS
  }

  /** A polling buyer's read: flip an overdue order, or mature a deep one after its re-check. */
  function Refresh(db: Db, i: nat, v: ChainView, now: Time): Db
    requires i < |db.orders|
  {
    var o := db.orders[i];
    if o.status == Pending then
      if now > ExpiryOf(o) then Transitioned(db, i, {Pending}, Expired, NO_FIELDS) else db
    else if v.asset.None? || v.head.None? || !Matured(o, v.head.value) then db
    else if !ReceiptStillValid(o, v.asset.value, v.receipt) then MarkReorged(db, i)
    else Promote(db, i, now)
  }

  function Flipped(o: Order, now: Time): Order {
    if o.status in {Pending, Underpaid} && now > ExpiryOf(o) then o.(status := Expired) else o
  }

  function Released(o: Order, now: Time): Order {
    if o.status == Expired && Deadline(o) + QUARANTINE <= now then o.(status := Canceled) else o
  }

  function FlipExpired(db: Db, now: Time): Db {
    db.(orders := seq(|db.orders|, k requires 0 <= k < |db.orders| => Flipped(db.orders[k], now)))
  }

  function ReleaseExpired(db: Db, now: Time): Db {
    db.(orders := seq(|db.orders|, k requires 0 <= k < |db.orders| => Released(db.orders[k], now)))
  }

  /** Receipts as the chain would answer them during one promotion pass. */
  type Receipts = map<Hash, Receipt>

  function ReceiptOf(o: Order, receipts: Receipts): Option<Receipt> {
    if o.txHash.Some? && o.txHash.value in receipts then Some(receipts[o.txHash.value]) else None
  }

  function PromoteOne(db: Db, i: nat, want: Status, network: Network, asset: Option<Address>, head: int, receipts: Receipts, now: Time): Db
    requires i < |db.orders|
  {
    var o := db.orders[i];
    if o.network != network || o.status != want || !Matured(o, head) || asset.None? then db
    else if !ReceiptStillValid(o, asset.value, ReceiptOf(o, receipts)) then MarkReorged(db, i)
    else Promote(db, i, now)
  }

  /** The pass over the first n rows that are in one status. */
  function PromotePass(db: Db, n: nat, want: Status, network: Network, asset: Option<Address>, head: int, receipts: Receipts, now: Time): (r: Db)
    requires n <= |db.orders|
    ensures |r.orders| == |db.orders|
  {
    if n == 0 then db
    else PromoteOne(PromotePass(db, n - 1, want, network, asset, head, receipts, now),
                    n - 1, want, network, asset, head, receipts, now)
  }

  function PromoteMatured(db: Db, network: Network, asset: Option<Address>, head: int, receipts: Receipts, now: Time): Db {
    PromotePass(PromotePass(db, |db.orders|, Detected, network, asset, head, receipts, now),
                |db.orders|, LatePaid, network, asset, head, receipts, now)
  }

  // ------------------------------------------------------------ refunds

  const REFUNDABLE := {Underpaid, Expired, Canceled, Confirmed, Overpaid, LatePaid, Delivered, Paid}

  function Revoked(db: Db, i: nat): Db {
    if i in db.entitlements
    then db.(entitlements := db.entitlements[i := db.entitlements[i].(revoked := true)])
    else db
  }

  /** A verified full refund of exactly the amount still due. */
  function RefundFull(db: Db, i: nat, sent: int): Db
    requires i < |db.orders|
  {
    var o := db.orders[i];
    if o.status !in REFUNDABLE || o.paid - o.refunded <= 0 || sent != o.paid - o.refunded then db
    else
      var moved := Transitioned(db, i, REFUNDABLE, Refunded, NO_FIELDS.(refunded := Some(o.refunded + sent)));
      var revoked := Revoked(moved, i);
      revoked.(effects := revoked.effects + multiset{OrderRefunded(i)})
  }

  // ------------------------------------------------------------ agent orders

  /** A fresh agent order is born at the exact price, delivered and held provisional. */
  datatype Purchase = Purchase(storeId: nat, productId: nat, network: Network, payTo: Address, payer: Address,
                               nonce: Hash, price: int, createdBlock: Option<int>)

  function BornConfirmed(p: Purchase, now: Time): Order {
    Order(p.storeId, Some(p.productId), p.network, p.payTo, p.price, p.price, 0, 0, 0,
          Confirmed, Agent, Some(p.nonce), None, None, Some(p.payer), None, p.createdBlock, now, None, Some(now))
  }

  function ByNonce(orders: seq<Order>, nonce: Hash, n: nat): Option<nat>
    requires n <= |orders|
    decreases |orders| - n
  {
    if n == |orders| then None
    else if orders[n].nonce == Some(nonce) then Some(n)
    else ByNonce(orders, nonce, n + 1)
  }

  datatype Purchased = Fresh(orderId: nat) | Replayed(orderId: nat) | NonceTaken

  function Fulfill(db: Db, p: Purchase, now: Time): (Db, Purchased) {
    var existing := ByNonce(db.orders, p.nonce, 0);
    if existing.Some? && existing.value < |db.orders| then
      var o := db.orders[existing.value];
      (db, if o.storeId == p.storeId && o.fromAddr == Some(p.payer) then Replayed(existing.value) else NonceTaken)
    else
      var i := |db.orders|;
      var born := db.(orders := db.orders + [BornConfirmed(p, now)]);
      (Transitioned(Deliver(born, i, now), i, TERMINAL_DELIVERED, Settling, NO_FIELDS), Fresh(i))
  }

  /** The winning settling -> delivered flip and everything it fires. */
  function Finalize(db: Db, i: nat, txHash: Option<Hash>): Db
    requires i < |db.orders|
  {
    var o := db.orders[i];
    if o.status != Settling then db
    else
      var moved := Transitioned(db, i, {Settling}, Delivered, NO_FIELDS.(paid := Some(o.expected), txHash := txHash));
      moved.(effects := moved.effects + multiset{OrderPaid(i), OrderDelivered(i), Accrual(i)})
  }

  function VoidSettling(db: Db, i: nat): Db
    requires i < |db.orders|
  {
    if db.orders[i].status != Settling then db
    else
      var revoked := Revoked(Transitioned(db, i, {Settling}, Canceled, NO_FIELDS), i);
      revoked.(effects := revoked.effects + multiset{OrderVoided(i)})
  }

  /** The settle receipt as the middleware decodes it: no transaction means unconfirmed. */
  function RecordSettlement(db: Db, i: nat, txHash: Option<Hash>, deferredPending: bool): Db
    requires i < |db.orders|
  {
    var o := db.orders[i];
    if o.channel != Agent then db
    else if txHash.None? || deferredPending then
      if o.status == Settling && txHash.Some?
      then db.(orders := db.orders[i := o.(settleRef := txHash)])
      else db
    else Finalize(db, i, txHash)
  }

  /** The chain reconciler's finalisation also stamps the settlement reference. */
  function ReconcileFinalize(db: Db, i: nat, txHash: Hash): Db
    requires i < |db.orders|
  {
    if db.orders[i].status != Settling then db
    else
      var done := Finalize(db, i, Some(txHash));
      done.(orders := done.orders[i := done.orders[i].(settleRef := Some(txHash))])
  }

  function SettleFailed(db: Db, nonce: Hash): Db {
    var k := ByNonce(db.orders, nonce, 0);
    if k.Some? && k.value < |db.orders| && db.orders[k.value].channel == Agent &&
       db.orders[k.value].status !in TERMINAL_DELIVERED
    then VoidSettling(db, k.value)
    else db
  }

  predicate Reapable(o: Order, i: nat, scanned: Option<set<nat>>, cutoff: Time) {
    && o.channel == Agent
    && o.status == Settling
    && o.settleRef.None?
    && (scanned.Some? ==> i in scanned.value)
    && o.paidAt.GetOr(o.createdAt) <= cutoff
  }

  function ReapOne(db: Db, i: nat, scanned: Option<set<nat>>, cutoff: Time): (r: Db)
    requires i < |db.orders|
    ensures |r.orders| == |db.orders|
  {
    if Reapable(db.orders[i], i, scanned, cutoff) then VoidSettling(db, i) else db
  }

  function ReapFirst(db: Db, n: nat, scanned: Option<set<nat>>, cutoff: Time): (r: Db)
    requires n <= |db.orders|
    ensures |r.orders| == |db.orders|
  {
    if n == 0 then db else ReapOne(ReapFirst(db, n - 1, scanned, cutoff), n - 1, scanned, cutoff)
  }

  /** Without a completed chain scan nothing may be voided. */
  function Reap(db: Db, chainScanned: bool, scanned: Option<set<nat>>, cutoff: Time): Db {
    if chainScanned then ReapFirst(db, |db.orders|, scanned, cutoff) else db
  }
}
