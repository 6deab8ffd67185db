/** The block sweeper: windows, cursors, crashes between windows, and replays.

    The chain is one sequence of transfer logs in block order; every read below the safe head
    answers from it. Heads, crash points and the number of ticks are arbitrary. */
module Sweep {
  import opened Prelude
  import opened CheckoutLedger
  import opened CheckoutInvariant
  import opened CheckoutSteps
  import opened CheckoutRuns

  const MAX_SPAN: int := 100
  const MAX_WINDOWS: nat := 10

  ghost predicate InBlockOrder(chain: seq<Log>) {
    forall a, b :: 0 <= a < b < |chain| ==> chain[a].block <= chain[b].block
  }

  /** The logs of an inclusive block range. */
  function LogsIn(chain: seq<Log>, from: int, to: int): seq<Log> {
    if chain == [] then []
    else (if from <= chain[0].block <= to then [chain[0]] else []) + LogsIn(chain[1..], from, to)
  }

  /** The recipient filter of eth_getLogs. */
  function ToAny(logs: seq<Log>, addrs: set<Address>): seq<Log> {
    if logs == [] then []
    else (if logs[0].to in addrs then [logs[0]] else []) + ToAny(logs[1..], addrs)
  }

  predicate Listening(o: Order, network: Network, now: Time) {
    o.network == network && (o.status in IN_FLIGHT || Quarantined(o, now))
  }

  function ActiveAddresses(orders: seq<Order>, network: Network, now: Time): set<Address> {
    set k | 0 <= k < |orders| && Listening(orders[k], network, now) :: orders[k].payTo
  }

  function SafeHead(head: int): int {
    head - CONFIRMATIONS
  }

  function WindowEnd(from: int, safe: int): int {
    Min(from + MAX_SPAN, safe)
  }

  /** At most k windows from a block on; stopping early is what a crash leaves behind. */
  function SweepWindows(db: Db, network: Network, chain: seq<Log>, addrs: set<Address>, from: int, head: int, now: Time, k: nat): Db
    decreases k
  {
    if k == 0 || from > SafeHead(head) then db
    else
      var to := WindowEnd(from, SafeHead(head));
      SweepWindows(SetCursor(Fold(db, network, ToAny(LogsIn(chain, from, to), addrs), head, now), network, to),
                   network, chain, addrs, to + 1, head, now, k - 1)
  }

  /** One tick of one chain up to its promotion step, cut off after k windows. */
  function SweepTick(db: Db, network: Network, chain: seq<Log>, head: int, now: Time, k: nat): Db {
    var safe := SafeHead(head);
    if safe < 0 then db
    else if network !in db.cursors then SetCursor(db, network, safe)
    else if db.cursors[network] >= safe then db
    else
      var addrs := ActiveAddresses(db.orders, network, now);
      if addrs == {} then SetCursor(db, network, safe)
      else SweepWindows(db, network, chain, addrs, db.cursors[network] + 1, head, now, k)
  }

  // ------------------------------------------------------------ folding

  lemma {:induction false} FoldConcat(db: Db, network: Network, a: seq<Log>, b: seq<Log>, head: int, now: Time)
    ensures Fold(db, network, a + b, head, now) == Fold(Fold(db, network, a, head, now), network, b, head, now)
    decreases |a|
  {
    if a == [] {
      assert a + b == b;
    } else {
      assert (a + b)[1..] == a[1..] + b;
      FoldConcat(ProcessLog(db, network, a[0], head, now), network, a[1..], b, head, now);
    }
  }

  /** Delivering never reads or moves the cursor, and so neither does crediting. */
  lemma DeliverKeepsCursor(db: Db, c: map<Network, int>, i: nat, now: Time)
    requires i < |db.orders|
    ensures Deliver(db.(cursors := c), i, now) == Deliver(db, i, now).(cursors := c)
  {
  }

  lemma StepsKeepCursor(db: Db, c: map<Network, int>, i: nat, from: set<Status>, to: Status, f: Fields, deep: bool, now: Time)
    requires i < |db.orders|
    ensures var moved := Transitioned(db, i, from, to, f);
            var moved' := Transitioned(db.(cursors := c), i, from, to, f);
            (if deep then Deliver(moved', i, now) else moved') == (if deep then Deliver(moved, i, now) else moved).(cursors := c)
  {
    DeliverKeepsCursor(Transitioned(db, i, from, to, f), c, i, now);
  }

  lemma DriveKeepsCursor(db: Db, c: map<Network, int>, i: nat, added: int, block: int, from: Address, txHash: Hash, head: int, now: Time)
    requires i < |db.orders| && (db.orders[i].status != Expired ==> db.orders[i].paid + added >= db.orders[i].expected)
    ensures DriveState(db.(cursors := c), i, added, block, from, txHash, head, now)
            == DriveState(db, i, added, block, from, txHash, head, now).(cursors := c)
  {
    var o, deep := db.orders[i], Deep(head, block);
    var f := CreditFields(o, added, block, from, txHash);
    var over := o.paid + added - o.expected;
    DriveStateSteps(db, i, added, block, from, txHash, head, now);
    DriveStateSteps(db.(cursors := c), i, added, block, from, txHash, head, now);
    if o.status == Expired {
      StepsKeepCursor(db, c, i, {Expired}, LatePaid, f, deep, now);
    } else {
      var to := if !deep then Detected else if over > 0 then Overpaid else Confirmed;
      StepsKeepCursor(db, c, i, IN_FLIGHT, to, f.(over := Some(over)), deep, now);
    }
  }

  lemma UnderpaidKeepsCursor(db: Db, c: map<Network, int>, i: nat, added: int, block: int, from: Address, txHash: Hash, head: int, now: Time)
    requires i < |db.orders| && db.orders[i].status != Expired && db.orders[i].paid + added < db.orders[i].expected
    ensures DriveState(db.(cursors := c), i, added, block, from, txHash, head, now)
            == DriveState(db, i, added, block, from, txHash, head, now).(cursors := c)
  {
  }

  lemma ProcessKeepsCursor(db: Db, c: map<Network, int>, network: Network, l: Log, head: int, now: Time)
    ensures ProcessLog(db.(cursors := c), network, l, head, now) == ProcessLog(db, network, l, head, now).(cursors := c)
  {
    var m := MatchOrder(db.orders, network, l.to, l.value, now);
    if !Recorded(db.transfers, l.txHash, l.logIndex) && !AgentSettled(db.orders, l.txHash) && m.Some? && m.value < |db.orders| {
      var recorded := db.(transfers := db.transfers + [RowFor(m.value, db.orders[m.value].payTo, l)]);
      if db.orders[m.value].status == Expired || db.orders[m.value].paid + l.value >= db.orders[m.value].expected {
        DriveKeepsCursor(recorded, c, m.value, l.value, l.block, l.from, l.txHash, head, now);
      } else {
        UnderpaidKeepsCursor(recorded, c, m.value, l.value, l.block, l.from, l.txHash, head, now);
      }
      assert recorded.(cursors := c) == db.(cursors := c).(transfers := recorded.transfers);
    }
  }

  lemma {:induction false} FoldKeepsCursor(db: Db, c: map<Network, int>, network: Network, logs: seq<Log>, head: int, now: Time)
    ensures Fold(db.(cursors := c), network, logs, head, now) == Fold(db, network, logs, head, now).(cursors := c)
    decreases |logs|
  {
    if logs != [] {
      ProcessKeepsCursor(db, c, network, logs[0], head, now);
      FoldKeepsCursor(ProcessLog(db, network, logs[0], head, now), c, network, logs[1..], head, now);
    }
  }

  // ------------------------------------------------------------ the head does not matter

  ghost predicate AllDeep(logs: seq<Log>, head: int) {
    forall k :: 0 <= k < |logs| ==> Deep(head, logs[k].block)
  }

  /** Logs at or below the safe head have the same effect whatever the head was. */
  lemma {:induction false} FoldIgnoresHead(db: Db, network: Network, logs: seq<Log>, h1: int, h2: int, now: Time)
    requires AllDeep(logs, h1) && AllDeep(logs, h2)
    ensures Fold(db, network, logs, h1, now) == Fold(db, network, logs, h2, now)
    decreases |logs|
  {
    if logs != [] {
      assert Deep(h1, logs[0].block) && Deep(h2, logs[0].block);
      assert ProcessLog(db, network, logs[0], h1, now) == ProcessLog(db, network, logs[0], h2, now);
      FoldIgnoresHead(ProcessLog(db, network, logs[0], h1, now), network, logs[1..], h1, h2, now);
    }
  }

  // ------------------------------------------------------------ the address filter loses nothing

  lemma MatchListens(orders: seq<Order>, network: Network, payTo: Address, value: int, now: Time)
    ensures MatchOrder(orders, network, payTo, value, now).Some? ==> payTo in ActiveAddresses(orders, network, now)
  {
    MatchFacts(orders, network, payTo, value, now);
    var m := MatchOrder(orders, network, payTo, value, now);
    if m.Some? {
      assert Listening(orders[m.value], network, now);
      assert orders[m.value].payTo in ActiveAddresses(orders, network, now);
    }
  }

  /** Processing a log never makes an order match what it did not match before. */
  lemma MatchableShrinks(db: Db, network: Network, l: Log, head: int, now: Time, j: nat)
    requires Inv(db) && j < |db.orders|
    ensures var db' := ProcessLog(db, network, l, head, now);
            && |db'.orders| == |db.orders|
            && SameIdentity(db.orders[j], db'.orders[j])
            && (db'.orders[j].status in IN_FLIGHT ==> db.orders[j].status in IN_FLIGHT)
            && (Quarantined(db'.orders[j], now) ==> Quarantined(db.orders[j], now))
            && (db.orders[j].channel == Agent ==> db'.orders[j] == db.orders[j])
  {
    SweepLogOrder(db, network, l, head, now, j);
    assert Ok(ViewOf(db, j));
  }

  lemma ActiveShrinks(db: Db, network: Network, l: Log, head: int, now: Time)
    requires Inv(db)
    ensures ActiveAddresses(ProcessLog(db, network, l, head, now).orders, network, now) <= ActiveAddresses(db.orders, network, now)
  {
    var db' := ProcessLog(db, network, l, head, now);
    ProcessLogOk(db, network, l, head, now);
    forall p | p in ActiveAddresses(db'.orders, network, now)
      ensures p in ActiveAddresses(db.orders, network, now)
    {
      var k :| 0 <= k < |db'.orders| && Listening(db'.orders[k], network, now) && db'.orders[k].payTo == p;
      MatchableShrinks(db, network, l, head, now, k);
      assert Listening(db.orders[k], network, now);
    }
  }

  lemma {:induction false} FilterLosesNothing(db: Db, network: Network, logs: seq<Log>, addrs: set<Address>, head: int, now: Time)
    requires Inv(db) && ActiveAddresses(db.orders, network, now) <= addrs
    ensures Fold(db, network, ToAny(logs, addrs), head, now) == Fold(db, network, logs, head, now)
    decreases |logs|
  {
    if logs != [] {
      var l, rest := logs[0], logs[1..];
      var next := ProcessLog(db, network, l, head, now);
      ProcessLogOk(db, network, l, head, now);
      ActiveShrinks(db, network, l, head, now);
      FilterLosesNothing(next, network, rest, addrs, head, now);
      if l.to in addrs {
        assert ToAny(logs, addrs) == [l] + ToAny(rest, addrs);
        assert ToAny(logs, addrs)[1..] == ToAny(rest, addrs);
      } else {
        MatchListens(db.orders, network, l.to, l.value, now);
        assert next == db;
        assert ToAny(logs, addrs) == ToAny(rest, addrs);
      }
    }
  }

  // ------------------------------------------------------------ windows tile the range

  lemma {:induction false} LogsInFacts(chain: seq<Log>, from: int, to: int, head: int)
    requires to <= SafeHead(head)
    ensures AllDeep(LogsIn(chain, from, to), head)
  {
    if chain != [] {
      LogsInFacts(chain[1..], from, to, head);
    }
  }

  lemma {:induction false} NoneBelow(chain: seq<Log>, from: int, to: int)
    requires forall k :: 0 <= k < |chain| ==> chain[k].block > to
    ensures LogsIn(chain, from, to) == []
  {
    if chain != [] {
      NoneBelow(chain[1..], from, to);
    }
  }

  /** Two adjacent ranges read one after the other are one range: no log twice, none missed. */
  lemma {:induction false} RangesJoin(chain: seq<Log>, from: int, mid: int, to: int)
    requires InBlockOrder(chain) && from <= mid + 1 && mid <= to
    ensures LogsIn(chain, from, mid) + LogsIn(chain, mid + 1, to) == LogsIn(chain, from, to)
  {
    if chain != [] {
      if mid < chain[0].block {
        AllLater(chain, mid);
        NoneBelow(chain, from, mid);
        StartsLater(chain, from, mid + 1, to);
      } else {
        AllLater(chain, chain[0].block - 1);
        RangesJoin(chain[1..], from, mid, to);
        JoinHead(chain, from, mid, to);
      }
    }
  }

  lemma AllLater(chain: seq<Log>, block: int)
    requires InBlockOrder(chain) && chain != [] && block < chain[0].block
    ensures forall k :: 0 <= k < |chain| ==> chain[k].block > block
    ensures InBlockOrder(chain[1..])
  {
    forall k | 0 <= k < |chain|
      ensures chain[k].block > block
    {
      assert k > 0 ==> chain[0].block <= chain[k].block;
    }
    forall a, b | 0 <= a < b < |chain[1..]|
      ensures chain[1..][a].block <= chain[1..][b].block
    {
      assert chain[a + 1].block <= chain[b + 1].block;
    }
  }

  lemma {:induction false} JoinHead(chain: seq<Log>, from: int, mid: int, to: int)
    requires chain != [] && chain[0].block <= mid <= to
    requires LogsIn(chain[1..], from, mid) + LogsIn(chain[1..], mid + 1, to) == LogsIn(chain[1..], from, to)
    ensures LogsIn(chain, from, mid) + LogsIn(chain, mid + 1, to) == LogsIn(chain, from, to)
  {
    var head := if from <= chain[0].block then [chain[0]] else [];
    HeadOfRange(chain, mid + 1, to, []);
    HeadOfRange(chain, from, mid, head);
    HeadOfRange(chain, from, to, head);
    Regroup(head, LogsIn(chain[1..], from, mid), LogsIn(chain, mid + 1, to), LogsIn(chain, from, mid), LogsIn(chain, from, to));
  }

  lemma {:induction false} HeadOfRange(chain: seq<Log>, from: int, to: int, head: seq<Log>)
    requires chain != [] && head == if from <= chain[0].block <= to then [chain[0]] else []
    ensures LogsIn(chain, from, to) == head + LogsIn(chain[1..], from, to)
    ensures head == [] ==> LogsIn(chain, from, to) == LogsIn(chain[1..], from, to)
  {
  }

  lemma Regroup(a: seq<Log>, b: seq<Log>, c: seq<Log>, ab: seq<Log>, abc: seq<Log>)
    requires ab == a + b && abc == a + (b + c)
    ensures ab + c == abc
  {
  }

  /** The first block asked for does not matter below the first log. */
  lemma {:induction false} StartsLater(chain: seq<Log>, from: int, later: int, to: int)
    requires from <= later && forall k :: 0 <= k < |chain| ==> chain[k].block >= later
    ensures LogsIn(chain, later, to) == LogsIn(chain, from, to)
  {
    if chain != [] {
      StartsLater(chain[1..], from, later, to);
    }
  }

  lemma {:induction false} EmptyRange(chain: seq<Log>, from: int, to: int)
    requires to < from
    ensures LogsIn(chain, from, to) == []
  {
    if chain != [] {
      EmptyRange(chain[1..], from, to);
    }
  }

  /** The state in which everything in (c, c'] was processed once, unfiltered and in one go. */
  function SweptTo(db: Db, network: Network, chain: seq<Log>, c: int, c': int, head: int, now: Time): Db {
    SetCursor(Fold(db, network, LogsIn(chain, c + 1, c'), head, now), network, c')
  }

  lemma SweptOk(db: Db, network: Network, chain: seq<Log>, c: int, c': int, head: int, now: Time)
    requires Inv(db)
    ensures var r := SweptTo(db, network, chain, c, c', head, now);
            Inv(r) && ActiveAddresses(r.orders, network, now) <= ActiveAddresses(db.orders, network, now)
  {
    WindowOk(db, network, LogsIn(chain, c + 1, c'), head, now, c');
    FoldActiveShrinks(db, network, LogsIn(chain, c + 1, c'), head, now);
  }

  lemma {:induction false} FoldActiveShrinks(db: Db, network: Network, logs: seq<Log>, head: int, now: Time)
    requires Inv(db)
    ensures ActiveAddresses(Fold(db, network, logs, head, now).orders, network, now) <= ActiveAddresses(db.orders, network, now)
    decreases |logs|
  {
    if logs != [] {
      ProcessLogOk(db, network, logs[0], head, now);
      ActiveShrinks(db, network, logs[0], head, now);
      FoldActiveShrinks(ProcessLog(db, network, logs[0], head, now), network, logs[1..], head, now);
    }
  }

  /** Sweeping on from where a sweep stopped is one longer sweep, whatever heads the two saw. */
  lemma SweepsCompose(db: Db, network: Network, chain: seq<Log>, c: int, mid: int, to: int, h1: int, h2: int, now: Time)
    requires InBlockOrder(chain) && c <= mid <= to && mid <= SafeHead(h1) && to <= SafeHead(h2)
    ensures SweptTo(SweptTo(db, network, chain, c, mid, h1, now), network, chain, mid, to, h2, now)
            == SweptTo(db, network, chain, c, to, h2, now)
  {
    var first, second := LogsIn(chain, c + 1, mid), LogsIn(chain, mid + 1, to);
    LogsInFacts(chain, c + 1, mid, h1);
    if mid <= SafeHead(h2) {
      LogsInFacts(chain, c + 1, mid, h2);
    }
    FoldIgnoresHead(db, network, first, h1, h2, now);
    var a := Fold(db, network, first, h2, now);
    FoldKeepsCursor(a, a.cursors[network := mid], network, second, h2, now);
    RangesJoin(chain, c + 1, mid, to);
    FoldConcat(db, network, first, second, h2, now);
    FoldCursors(db, network, LogsIn(chain, c + 1, to), h2, now);
    FoldCursors(db, network, first, h2, now);
    assert db.cursors[network := mid][network := to] == db.cursors[network := to];
  }

  lemma {:induction false} FoldCursors(db: Db, network: Network, logs: seq<Log>, head: int, now: Time)
    ensures Fold(db, network, logs, head, now).cursors == db.cursors
  {
    FoldKeepsCursor(db, db.cursors, network, logs, head, now);
    assert db.(cursors := db.cursors) == db;
  }

  /** Any number of windows from the cursor on: some contiguous stretch (c, c'] was processed,
      exactly as one unfiltered fold would. */
  lemma {:induction false} WindowsTile(db: Db, network: Network, chain: seq<Log>, addrs: set<Address>, c: int, head: int, now: Time, k: nat) returns (c': int)
    requires Inv(db) && InBlockOrder(chain) && network in db.cursors && db.cursors[network] == c
    requires ActiveAddresses(db.orders, network, now) <= addrs
    ensures c' == Max(c, Min(c + k * (MAX_SPAN + 1), SafeHead(head)))
    ensures SweepWindows(db, network, chain, addrs, c + 1, head, now, k) == SweptTo(db, network, chain, c, c', head, now)
    decreases k
  {
    if k == 0 || c + 1 > SafeHead(head) {
      c' := c;
      EmptyRange(chain, c + 1, c);
      assert db.cursors[network := c] == db.cursors;
    } else {
      var to := WindowEnd(c + 1, SafeHead(head));
      var logs := LogsIn(chain, c + 1, to);
      FilterLosesNothing(db, network, logs, addrs, head, now);
      var next := SweptTo(db, network, chain, c, to, head, now);
      SweptOk(db, network, chain, c, to, head, now);
      c' := WindowsTile(next, network, chain, addrs, to, head, now, k - 1);
      SweepsCompose(db, network, chain, c, to, c', head, head, now);
    }
  }

  /** No order of this network waits for a transfer: none is pending, detected or underpaid, and
      none expired within the quarantine. */
  ghost predicate NobodyWaits(orders: seq<Order>, network: Network, now: Time) {
    forall j :: 0 <= j < |orders| && orders[j].network == network ==>
      && orders[j].status != Pending && orders[j].status != Detected && orders[j].status != Underpaid
      && (orders[j].status == Expired ==> orders[j].expiresAt.GetOr(orders[j].createdAt) + QUARANTINE <= now)
  }

  /** The block one tick of k windows gets to from block c: nowhere without anything deep enough to
      read, all the way when nobody waits, and otherwise k whole windows or up to the safe head. */
  ghost function TickEnd(orders: seq<Order>, network: Network, c: int, head: int, now: Time, k: nat): (end: int)
    ensures end >= c
  {
    if SafeHead(head) < 0 || c >= SafeHead(head) then c
    else if NobodyWaits(orders, network, now) then SafeHead(head)
    else Max(c, Min(c + k * (MAX_SPAN + 1), SafeHead(head)))
  }

  lemma WaitingIsListening(orders: seq<Order>, network: Network, now: Time)
    ensures NobodyWaits(orders, network, now) <==> ActiveAddresses(orders, network, now) == {}
  {
    forall j | 0 <= j < |orders|
      ensures Listening(orders[j], network, now) ==> orders[j].payTo in ActiveAddresses(orders, network, now)
    {
    }
    if NobodyWaits(orders, network, now) {
      assert forall j :: 0 <= j < |orders| ==> !Listening(orders[j], network, now);
    } else {
      var j :| 0 <= j < |orders| && Listening(orders[j], network, now);
    }
  }

  /** One tick, cut off after k windows, ends at exactly the block TickEnd names and has processed
      exactly the logs in between, once each. */
  lemma {:induction false} TickTiles(db: Db, network: Network, chain: seq<Log>, head: int, now: Time, k: nat) returns (c': int)
    requires Inv(db) && InBlockOrder(chain) && network in db.cursors
    ensures c' == TickEnd(db.orders, network, db.cursors[network], head, now, k)
    ensures var c := db.cursors[network];
            && (c' == c || c' <= SafeHead(head))
            && SweepTick(db, network, chain, head, now, k) == SweptTo(db, network, chain, c, c', if c' <= SafeHead(head) then head else c' + CONFIRMATIONS, now)
  {
    var c, safe := db.cursors[network], SafeHead(head);
    if safe < 0 || c >= safe {
      c' := c;
      NoMove(db, network, chain, now);
    } else {
      var addrs := ActiveAddresses(db.orders, network, now);
      WaitingIsListening(db.orders, network, now);
      if NobodyWaits(db.orders, network, now) {
        c' := safe;
        NothingToFind(db, network, LogsIn(chain, c + 1, safe), head, now);
      } else {
        c' := WindowsTile(db, network, chain, addrs, c, head, now, k);
      }
    }
  }

  /** A chain seen for the first time starts at its safe head, and nothing else happens. */
  lemma TickWithoutCursor(db: Db, network: Network, chain: seq<Log>, head: int, now: Time, k: nat)
    requires network !in db.cursors
    ensures SweepTick(db, network, chain, head, now, k)
         == if head < CONFIRMATIONS then db else db.(cursors := db.cursors[network := head - CONFIRMATIONS])
  {
  }

  lemma {:induction false} NothingToFind(db: Db, network: Network, logs: seq<Log>, head: int, now: Time)
    requires Inv(db) && ActiveAddresses(db.orders, network, now) == {}
    ensures Fold(db, network, logs, head, now) == db
  {
    FilterLosesNothing(db, network, logs, {}, head, now);
    NoRecipients(logs);
  }

  lemma {:induction false} NoRecipients(logs: seq<Log>)
    ensures ToAny(logs, {}) == []
  {
    if logs != [] {
      NoRecipients(logs[1..]);
    }
  }

  // ------------------------------------------------------------ many ticks

  /** One tick's head, and how many windows it got through before it stopped or crashed. */
  datatype Tick = Tick(head: int, windows: nat)

  function SweepTicks(db: Db, network: Network, chain: seq<Log>, ticks: seq<Tick>, now: Time): Db
    decreases |ticks|
  {
    if ticks == [] then db
    else SweepTicks(SweepTick(db, network, chain, ticks[0].head, now, ticks[0].windows), network, chain, ticks[1..], now)
  }

  /** The block a sequence of ticks gets to, one tick after the other. */
  ghost function TicksEnd(db: Db, network: Network, chain: seq<Log>, ticks: seq<Tick>, now: Time, c: int): (end: int)
    ensures end >= c
    decreases |ticks|
  {
    if ticks == [] then c
    else
      var mid := TickEnd(db.orders, network, c, ticks[0].head, now, ticks[0].windows);
      TicksEnd(SweptTo(db, network, chain, c, mid, mid + CONFIRMATIONS, now), network, chain, ticks[1..], now, mid)
  }

  /** However many ticks ran, with whatever heads and crash points, the cursor moved from c to
      exactly the block TicksEnd names, and the tables are those of a single fold over the logs in
      between: no log is skipped, none counts twice, and the split into windows and ticks leaves no
      trace. */
  lemma {:induction false} TicksAreOneFold(db: Db, network: Network, chain: seq<Log>, ticks: seq<Tick>, now: Time) returns (c': int)
    requires Inv(db) && InBlockOrder(chain) && network in db.cursors
    ensures c' == TicksEnd(db, network, chain, ticks, now, db.cursors[network])
    ensures SweepTicks(db, network, chain, ticks, now) == SweptTo(db, network, chain, db.cursors[network], c', c' + CONFIRMATIONS, now)
    decreases |ticks|
  {
    var c := db.cursors[network];
    if ticks == [] {
      c' := c;
      NoMove(db, network, chain, now);
    } else {
      var h := ticks[0].head;
      var mid := TickTiles(db, network, chain, h, now, ticks[0].windows);
      var next := TickToBlock(db, network, chain, c, mid, h, now, SweepTick(db, network, chain, h, now, ticks[0].windows));
      SweptOk(db, network, chain, c, mid, mid + CONFIRMATIONS, now);
      FirstTick(db, network, chain, ticks, now, c, mid, next);
      c' := TicksAreOneFold(next, network, chain, ticks[1..], now);
      ThenSwept(db, network, chain, c, mid, c', now, next, SweepTicks(db, network, chain, ticks, now));
    }
  }

  lemma NoMove(db: Db, network: Network, chain: seq<Log>, now: Time)
    requires network in db.cursors
    ensures var c := db.cursors[network]; forall head :: SweptTo(db, network, chain, c, c, head, now) == db
  {
    var c := db.cursors[network];
    EmptyRange(chain, c + 1, c);
    assert db.cursors[network := c] == db.cursors;
  }

  lemma ThenSwept(db: Db, network: Network, chain: seq<Log>, c: int, mid: int, to: int, now: Time, next: Db, end: Db)
    requires InBlockOrder(chain) && c <= mid <= to
    requires next == SweptTo(db, network, chain, c, mid, mid + CONFIRMATIONS, now)
    requires end == SweptTo(next, network, chain, mid, to, to + CONFIRMATIONS, now)
    ensures end == SweptTo(db, network, chain, c, to, to + CONFIRMATIONS, now)
  {
    SweepsCompose(db, network, chain, c, mid, to, mid + CONFIRMATIONS, to + CONFIRMATIONS, now);
  }

  lemma {:induction false} FirstTick(db: Db, network: Network, chain: seq<Log>, ticks: seq<Tick>, now: Time, c: int, mid: int, next: Db)
    requires ticks != [] && mid == TickEnd(db.orders, network, c, ticks[0].head, now, ticks[0].windows)
    requires next == SweptTo(db, network, chain, c, mid, mid + CONFIRMATIONS, now)
    requires next == SweepTick(db, network, chain, ticks[0].head, now, ticks[0].windows)
    ensures TicksEnd(db, network, chain, ticks, now, c) == TicksEnd(next, network, chain, ticks[1..], now, mid)
    ensures SweepTicks(db, network, chain, ticks, now) == SweepTicks(next, network, chain, ticks[1..], now)
    ensures c <= mid <= TicksEnd(next, network, chain, ticks[1..], now, mid)
    ensures next.cursors == db.cursors[network := mid]
  {
    FoldCursors(db, network, LogsIn(chain, c + 1, mid), mid + CONFIRMATIONS, now);
  }

  lemma TickToBlock(db: Db, network: Network, chain: seq<Log>, c: int, mid: int, head: int, now: Time, after: Db) returns (next: Db)
    requires after == SweptTo(db, network, chain, c, mid, if mid <= SafeHead(head) then head else mid + CONFIRMATIONS, now)
    ensures next == after == SweptTo(db, network, chain, c, mid, mid + CONFIRMATIONS, now)
  {
    next := after;
    if mid <= SafeHead(head) {
      EitherHead(db, network, chain, c, mid, head, now);
    }
  }

  lemma EitherHead(db: Db, network: Network, chain: seq<Log>, c: int, mid: int, head: int, now: Time)
    requires mid <= SafeHead(head)
    ensures SweptTo(db, network, chain, c, mid, head, now) == SweptTo(db, network, chain, c, mid, mid + CONFIRMATIONS, now)
  {
    LogsInFacts(chain, c + 1, mid, head);
    LogsInFacts(chain, c + 1, mid, mid + CONFIRMATIONS);
    FoldIgnoresHead(db, network, LogsIn(chain, c + 1, mid), head, mid + CONFIRMATIONS, now);
  }

  ghost predicate Advancing(ticks: seq<Tick>, head: int) {
    forall i :: 0 <= i < |ticks| ==> ticks[i].head >= head && ticks[i].windows > 0
  }

  lemma {:induction false} TicksReach(db: Db, network: Network, chain: seq<Log>, ticks: seq<Tick>, now: Time, c: int, head: int)
    requires Advancing(ticks, head)
    ensures SafeHead(head) >= 0 ==> TicksEnd(db, network, chain, ticks, now, c) >= Min(c + |ticks| * (MAX_SPAN + 1), SafeHead(head))
    decreases |ticks|
  {
    if ticks != [] {
      var t := ticks[0];
      var mid := TickEnd(db.orders, network, c, t.head, now, t.windows);
      var next := SweptTo(db, network, chain, c, mid, mid + CONFIRMATIONS, now);
      if SafeHead(head) >= 0 {
        TickAdvances(db.orders, network, c, t.head, now, t.windows, head);
      }
      assert TicksEnd(db, network, chain, ticks, now, c) == TicksEnd(next, network, chain, ticks[1..], now, mid);
      TicksReach(next, network, chain, ticks[1..], now, mid, head);
    }
  }

  lemma TickAdvances(orders: seq<Order>, network: Network, c: int, tickHead: int, now: Time, k: nat, head: int)
    requires k > 0 && tickHead >= head && SafeHead(head) >= 0
    ensures TickEnd(orders, network, c, tickHead, now, k) >= Min(c + (MAX_SPAN + 1), SafeHead(head))
  {
    WindowsAtLeastOne(k);
  }

  lemma WindowsAtLeastOne(k: nat)
    requires k > 0
    ensures k * (MAX_SPAN + 1) >= MAX_SPAN + 1
  {
  }

  /** The sweeper catches up, and misses nothing: after n ticks that each finished a window under
      heads no lower than some head, the cursor has come n windows or to that head's safe block, and
      every log on the way is dealt with for good: recorded, an agent's settlement, or nobody's. */
  lemma {:induction false} TicksCatchUp(db: Db, network: Network, chain: seq<Log>, ticks: seq<Tick>, now: Time, head: int, l: Log)
    requires Inv(db) && InBlockOrder(chain) && network in db.cursors && Advancing(ticks, head) && SafeHead(head) >= 0
    ensures var r := SweepTicks(db, network, chain, ticks, now);
            && network in r.cursors && r.cursors[network] >= Min(db.cursors[network] + |ticks| * (MAX_SPAN + 1), SafeHead(head))
            && (l in chain && db.cursors[network] < l.block <= r.cursors[network] ==> Spent(r, network, l, now))
  {
    var c := db.cursors[network];
    var c' := TicksAreOneFold(db, network, chain, ticks, now);
    TicksReach(db, network, chain, ticks, now, c, head);
    if l in chain && c < l.block <= c' {
      SweptIsSpent(db, network, chain, c, c', c' + CONFIRMATIONS, now, l);
    }
  }

  lemma {:induction false} SweptIsSpent(db: Db, network: Network, chain: seq<Log>, c: int, c': int, head: int, now: Time, l: Log)
    requires Inv(db) && l in chain && c < l.block <= c'
    ensures Spent(SweptTo(db, network, chain, c, c', head, now), network, l, now)
  {
    var logs := LogsIn(chain, c + 1, c');
    FoldSpends(db, network, logs, head, now);
    InRange(chain, c + 1, c', l);
    var k :| 0 <= k < |logs| && logs[k] == l;
    var swept := Fold(db, network, logs, head, now);
    assert Spent(swept, network, logs[k], now);
    SpentElsewhere(swept, SetCursor(swept, network, c'), network, l, now);
  }

  lemma SpentElsewhere(a: Db, b: Db, network: Network, l: Log, now: Time)
    requires Spent(a, network, l, now) && b == a.(cursors := b.cursors)
    ensures Spent(b, network, l, now)
  {
  }

  /** A range read answers every log of its blocks and no other. */
  lemma {:induction false} InRange(chain: seq<Log>, from: int, to: int, l: Log)
    ensures l in LogsIn(chain, from, to) <==> l in chain && from <= l.block <= to
  {
    if chain != [] {
      InRange(chain[1..], from, to, l);
      assert l in chain <==> l == chain[0] || l in chain[1..];
    }
  }

  /** On a chain in block order that is one piece of it, every log as often and in the same order. */
  lemma {:induction false} RangeIsSlice(chain: seq<Log>, from: int, to: int) returns (a: nat, b: nat)
    requires InBlockOrder(chain)
    ensures a <= b <= |chain| && LogsIn(chain, from, to) == chain[a..b]
    ensures forall k :: 0 <= k < |chain| ==> (a <= k < b <==> from <= chain[k].block <= to)
  {
    if chain == [] || from > to {
      a, b := 0, 0;
      if from > to {
        EmptyRange(chain, from, to);
      }
    } else {
      var rest := chain[1..];
      forall i, k | 0 <= i < k < |rest|
        ensures rest[i].block <= rest[k].block
      {
        assert rest[i] == chain[i + 1] && rest[k] == chain[k + 1];
      }
      var x, y := RangeIsSlice(rest, from, to);
      forall k | 0 < k < |chain|
        ensures chain[k] == rest[k - 1] && (x + 1 <= k < y + 1 <==> from <= chain[k].block <= to)
      {
      }
      SliceGrows(chain, from, to, x, y);
      a, b := SliceFrom(chain, from, to, x, y);
    }
  }

  lemma SliceGrows(chain: seq<Log>, from: int, to: int, x: nat, y: nat)
    requires chain != [] && x <= y <= |chain| - 1 && LogsIn(chain[1..], from, to) == chain[1..][x..y]
    ensures LogsIn(chain, from, to) == (if from <= chain[0].block <= to then [chain[0]] else []) + chain[x + 1..y + 1]
  {
    assert chain[1..][x..y] == chain[x + 1..y + 1];
  }

  lemma SliceFrom(chain: seq<Log>, from: int, to: int, x: nat, y: nat) returns (a: nat, b: nat)
    requires InBlockOrder(chain) && chain != [] && x <= y <= |chain| - 1
    requires LogsIn(chain, from, to) == (if from <= chain[0].block <= to then [chain[0]] else []) + chain[x + 1..y + 1]
    requires forall k :: 0 < k < |chain| ==> (x + 1 <= k < y + 1 <==> from <= chain[k].block <= to)
    ensures a <= b <= |chain| && LogsIn(chain, from, to) == chain[a..b]
    ensures forall k :: 0 <= k < |chain| ==> (a <= k < b <==> from <= chain[k].block <= to)
  {
    if !(from <= chain[0].block <= to) {
      a, b := x + 1, y + 1;
    } else if x == y {
      a, b := 0, 1;
      assert chain[x + 1..y + 1] == [];
    } else {
      a, b := 0, y + 1;
      assert from <= chain[x + 1].block <= to;
      assert chain[0].block <= chain[1].block <= chain[x + 1].block;
      assert x == 0;
      assert [chain[0]] + chain[1..y + 1] == chain[0..y + 1];
    }
  }

  lemma SweptCursor(db: Db, network: Network, chain: seq<Log>, to: int, now: Time)
    requires network in db.cursors
    ensures var r := SweptTo(db, network, chain, db.cursors[network], to, to + CONFIRMATIONS, now);
            network in r.cursors && r.cursors[network] == to
  {
  }

  /** Two runs of ticks that end at the same block end in the same tables. */
  lemma SplitsAgree(db: Db, network: Network, chain: seq<Log>, a: seq<Tick>, b: seq<Tick>, now: Time)
    requires Inv(db) && InBlockOrder(chain) && network in db.cursors
    requires var ra, rb := SweepTicks(db, network, chain, a, now), SweepTicks(db, network, chain, b, now);
             network in ra.cursors && network in rb.cursors && ra.cursors[network] == rb.cursors[network]
    ensures SweepTicks(db, network, chain, a, now) == SweepTicks(db, network, chain, b, now)
  {
    var ra, ca := TicksStop(db, network, chain, a, now);
    var rb, cb := TicksStop(db, network, chain, b, now);
    SameBlockSameTables(db, network, chain, ra, ca, rb, cb, now);
  }

  lemma SameBlockSameTables(db: Db, network: Network, chain: seq<Log>, ra: Db, ca: int, rb: Db, cb: int, now: Time)
    requires network in db.cursors && ca == cb
    requires ra == SweptTo(db, network, chain, db.cursors[network], ca, ca + CONFIRMATIONS, now)
    requires rb == SweptTo(db, network, chain, db.cursors[network], cb, cb + CONFIRMATIONS, now)
    ensures ra == rb
  {
  }

  lemma TicksStop(db: Db, network: Network, chain: seq<Log>, ticks: seq<Tick>, now: Time) returns (r: Db, c': int)
    requires Inv(db) && InBlockOrder(chain) && network in db.cursors
    ensures r == SweepTicks(db, network, chain, ticks, now) && network in r.cursors && r.cursors[network] == c'
    ensures r == SweptTo(db, network, chain, db.cursors[network], c', c' + CONFIRMATIONS, now)
  {
    c' := TicksAreOneFold(db, network, chain, ticks, now);
    r := SweptTo(db, network, chain, db.cursors[network], c', c' + CONFIRMATIONS, now);
    SweptCursor(db, network, chain, c', now);
  }

  // ------------------------------------------------------------ replays

  /** Nothing is left for this log to do. */
  ghost predicate Spent(db: Db, network: Network, l: Log, now: Time) {
    || Recorded(db.transfers, l.txHash, l.logIndex)
    || AgentSettled(db.orders, l.txHash)
    || forall k :: 0 <= k < |db.orders| ==> !Matchable(db.orders[k], network, l.to, l.value, now)
  }

  lemma SpentIsInert(db: Db, network: Network, l: Log, head: int, now: Time)
    requires Inv(db) && Spent(db, network, l, now)
    ensures ProcessLog(db, network, l, head, now) == db
  {
    MatchFacts(db.orders, network, l.to, l.value, now);
  }

  lemma ProcessedIsSpent(db: Db, network: Network, l: Log, head: int, now: Time)
    requires Inv(db)
    ensures Spent(ProcessLog(db, network, l, head, now), network, l, now)
  {
    ProcessLogOk(db, network, l, head, now);
    MatchFacts(db.orders, network, l.to, l.value, now);
    var db' := ProcessLog(db, network, l, head, now);
    if Credits(db, network, l, now) {
      assert db'.transfers[|db.transfers|].txHash == l.txHash && db'.transfers[|db.transfers|].logIndex == l.logIndex;
    }
  }

  /** Processing another log never gives a spent one something to do again. */
  lemma SpentStays(db: Db, network: Network, l: Log, m: Log, head: int, now: Time)
    requires Inv(db) && Spent(db, network, l, now)
    ensures Spent(ProcessLog(db, network, m, head, now), network, l, now)
  {
    var db' := ProcessLog(db, network, m, head, now);
    ProcessLogOk(db, network, m, head, now);
    if Recorded(db.transfers, l.txHash, l.logIndex) {
      var k :| 0 <= k < |db.transfers| && db.transfers[k].txHash == l.txHash && db.transfers[k].logIndex == l.logIndex;
      assert db'.transfers[k] == db.transfers[k];
    } else if AgentSettled(db.orders, l.txHash) {
      var k :| 0 <= k < |db.orders| && db.orders[k].channel == Agent &&
               (db.orders[k].txHash == Some(l.txHash) || db.orders[k].settleRef == Some(l.txHash));
      MatchableShrinks(db, network, m, head, now, k);
      assert db'.orders[k] == db.orders[k];
    } else {
      forall k | 0 <= k < |db'.orders|
        ensures !Matchable(db'.orders[k], network, l.to, l.value, now)
      {
        MatchableShrinks(db, network, m, head, now, k);
        assert !Matchable(db.orders[k], network, l.to, l.value, now);
      }
    }
  }

  lemma {:induction false} FoldKeepsSpent(db: Db, network: Network, l: Log, logs: seq<Log>, head: int, now: Time)
    requires Inv(db) && Spent(db, network, l, now)
    ensures Spent(Fold(db, network, logs, head, now), network, l, now)
    decreases |logs|
  {
    if logs != [] {
      ProcessLogOk(db, network, logs[0], head, now);
      SpentStays(db, network, l, logs[0], head, now);
      FoldKeepsSpent(ProcessLog(db, network, logs[0], head, now), network, l, logs[1..], head, now);
    }
  }

  lemma {:induction false} FoldSpends(db: Db, network: Network, logs: seq<Log>, head: int, now: Time)
    requires Inv(db)
    ensures forall k :: 0 <= k < |logs| ==> Spent(Fold(db, network, logs, head, now), network, logs[k], now)
    decreases |logs|
  {
    if logs != [] {
      var next := ProcessLog(db, network, logs[0], head, now);
      ProcessLogOk(db, network, logs[0], head, now);
      ProcessedIsSpent(db, network, logs[0], head, now);
      FoldKeepsSpent(next, network, logs[0], logs[1..], head, now);
      FoldSpends(next, network, logs[1..], head, now);
      forall k | 0 <= k < |logs|
        ensures Spent(Fold(db, network, logs, head, now), network, logs[k], now)
      {
        if k > 0 {
          assert logs[k] == logs[1..][k - 1];
        }
      }
    }
  }

  lemma {:induction false} FoldOfSpent(db: Db, network: Network, logs: seq<Log>, head: int, now: Time)
    requires Inv(db) && forall k :: 0 <= k < |logs| ==> Spent(db, network, logs[k], now)
    ensures Fold(db, network, logs, head, now) == db
    decreases |logs|
  {
    if logs != [] {
      SpentIsInert(db, network, logs[0], head, now);
      FoldOfSpent(db, network, logs[1..], head, now);
    }
  }

  /** Sweeping a window a second time, even with a later head, changes nothing at all. */
  lemma ReplayIsNoOp(db: Db, network: Network, logs: seq<Log>, h1: int, h2: int, now: Time)
    requires Inv(db)
    ensures var once := Fold(db, network, logs, h1, now);
            Fold(once, network, logs, h2, now) == once
  {
    FoldOk(db, network, logs, h1, now);
    FoldSpends(db, network, logs, h1, now);
    FoldOfSpent(Fold(db, network, logs, h1, now), network, logs, h2, now);
  }
}
