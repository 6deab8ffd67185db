/** The affiliate rev-share ledger: accruals written when a referred order is delivered, voided by
    a full refund, and covered by on-chain payouts that are verified and recorded. */
module AffiliateLedger {
  import opened Prelude

  const RATE_BPS := 200

  datatype Standing = Accrued | Voided | Paid

  datatype Accrual = Accrual(
    order: nat,
    merchant: nat,
    referrer: Address,
    basis: int,
    amount: int,
    standing: Standing,
    payout: Option<nat>)

  datatype Payout = Payout(merchant: nat, referrer: Address, tx: Hash, logIndex: nat, amount: nat)

  /** Rows of both tables; a row's id is its position. */
  datatype Ledger = Ledger(accruals: seq<Accrual>, payouts: seq<Payout>)

  /** What accrual needs of a delivered order and its store. */
  datatype Sale = Sale(
    order: nat,
    merchant: nat,
    referrer: Option<Address>,
    buyer: Option<Address>,
    payTo: Address,
    expected: int)

  datatype Log = Log(usdt: bool, transfer: bool, to: Address, tx: Hash, logIndex: nat, value: nat)

  datatype Receipt = Receipt(succeeded: bool, logs: seq<Log>)

  datatype PayoutError = NothingOwed | NotFound | Reverted | AlreadyRecorded | NoTransfer | ZeroSum | ExceedsOwed

  datatype Outcome = Refused(error: PayoutError) | Recorded(recorded: int, covered: int, owedBefore: int, owedAfter: int)

  const EMPTY := Ledger([], [])

  // ------------------------------------------------------------ sums

  predicate Counts(a: Accrual, m: nat, r: Option<Address>, s: Standing) {
    a.merchant == m && (r.None? || r.value == a.referrer) && a.standing == s
  }

  /** The micro-amount of one merchant's accruals in one standing, for one referrer or for all. */
  function Total(accruals: seq<Accrual>, m: nat, r: Option<Address>, s: Standing): int {
    if accruals == [] then 0
    else
      var a := accruals[|accruals| - 1];
      Total(accruals[..|accruals| - 1], m, r, s) + if Counts(a, m, r, s) then a.amount else 0
  }

  function Owed(accruals: seq<Accrual>, m: nat, r: Address): int {
    Total(accruals, m, Some(r), Accrued)
  }

  function Sent(payouts: seq<Payout>, m: nat, r: Address): int {
    if payouts == [] then 0
    else
      var p := payouts[|payouts| - 1];
      Sent(payouts[..|payouts| - 1], m, r) + if p.merchant == m && p.referrer == r then p.amount else 0
  }

  function Values(logs: seq<Log>): int {
    if logs == [] then 0 else Values(logs[..|logs| - 1]) + logs[|logs| - 1].value
  }

  lemma {:induction false} TotalAppend(a: seq<Accrual>, b: seq<Accrual>, m: nat, r: Option<Address>, s: Standing)
    ensures Total(a + b, m, r, s) == Total(a, m, r, s) + Total(b, m, r, s)
    decreases |b|
  {
    if b == [] {
      assert a + b == a;
    } else {
      var front := b[..|b| - 1];
      assert (a + b)[..|a + b| - 1] == a + front;
      TotalAppend(a, front, m, r, s);
    }
  }

  lemma {:induction false} TotalOne(a: Accrual, m: nat, r: Option<Address>, s: Standing)
    ensures Total([a], m, r, s) == if Counts(a, m, r, s) then a.amount else 0
  {
    assert [a][..0] == [];
  }

  /** Replacing one row moves each total by the difference. */
  lemma {:induction false} TotalUpdate(accruals: seq<Accrual>, i: nat, b: Accrual, m: nat, r: Option<Address>, s: Standing)
    requires i < |accruals|
    ensures Total(accruals[i := b], m, r, s)
         == Total(accruals, m, r, s) - (if Counts(accruals[i], m, r, s) then accruals[i].amount else 0)
            + (if Counts(b, m, r, s) then b.amount else 0)
  {
    var before, after := accruals[..i], accruals[i + 1..];
    assert accruals == before + [accruals[i]] + after && accruals[i := b] == before + [b] + after;
    TotalAppend(before + [accruals[i]], after, m, r, s);
    TotalAppend(before, [accruals[i]], m, r, s);
    TotalAppend(before + [b], after, m, r, s);
    TotalAppend(before, [b], m, r, s);
    TotalOne(accruals[i], m, r, s);
    TotalOne(b, m, r, s);
  }

  // ------------------------------------------------------------ operations

  predicate SelfReferred(sale: Sale) {
    sale.referrer.Some? && (sale.buyer == sale.referrer || sale.payTo == sale.referrer.value)
  }

  predicate HasAccrual(accruals: seq<Accrual>, order: nat) {
    exists i :: 0 <= i < |accruals| && accruals[i].order == order
  }

  function Share(basis: int): int {
    basis * RATE_BPS / 10000
  }

  predicate Earns(accruals: seq<Accrual>, sale: Sale) {
    sale.referrer.Some? && !SelfReferred(sale) && Share(sale.expected) > 0 && !HasAccrual(accruals, sale.order)
  }

  function Accrue(l: Ledger, sale: Sale): Ledger {
    if Earns(l.accruals, sale)
    then l.(accruals := l.accruals + [Accrual(sale.order, sale.merchant, sale.referrer.value, sale.expected, Share(sale.expected), Accrued, None)])
    else l
  }

  /** The order's accrual, if it is still outstanding. */
  function Outstanding(accruals: seq<Accrual>, order: nat): (i: Option<nat>)
    ensures i.Some? ==> i.value < |accruals| && accruals[i.value].order == order && accruals[i.value].standing == Accrued
    ensures i.None? ==> forall k :: 0 <= k < |accruals| && accruals[k].order == order ==> accruals[k].standing != Accrued
  {
    if accruals == [] then None
    else
      var n := |accruals| - 1;
      if accruals[n].order == order && accruals[n].standing == Accrued then Some(n) else Outstanding(accruals[..n], order)
  }

  function VoidAccrual(l: Ledger, order: nat): Ledger {
    match Outstanding(l.accruals, order)
    case Some(i) => l.(accruals := l.accruals[i := l.accruals[i].(standing := Voided)])
    case None => l
  }

  predicate Pays(log: Log, r: Address) {
    log.usdt && log.transfer && log.to == r
  }

  function Paying(logs: seq<Log>, r: Address): seq<Log> {
    if logs == [] then []
    else
      var rest := Paying(logs[..|logs| - 1], r);
      if Pays(logs[|logs| - 1], r) then rest + [logs[|logs| - 1]] else rest
  }

  predicate IsRecorded(payouts: seq<Payout>, log: Log) {
    exists i :: 0 <= i < |payouts| && payouts[i].tx == log.tx && payouts[i].logIndex == log.logIndex
  }

  predicate AnyRecorded(payouts: seq<Payout>, logs: seq<Log>) {
    exists i :: 0 <= i < |logs| && IsRecorded(payouts, logs[i])
  }

  /** Two logs of one receipt that claim the same identity fail on the unique index. */
  predicate Repeats(logs: seq<Log>) {
    exists i, j :: 0 <= i < j < |logs| && logs[i].tx == logs[j].tx && logs[i].logIndex == logs[j].logIndex
  }

  function Rows(m: nat, r: Address, logs: seq<Log>): seq<Payout> {
    seq(|logs|, i requires 0 <= i < |logs| => Payout(m, r, logs[i].tx, logs[i].logIndex, logs[i].value))
  }

  /** Why a payout is refused, in the order the checks are made. */
  function Objection(l: Ledger, m: nat, r: Address, receipt: Option<Receipt>): Option<PayoutError> {
    if Owed(l.accruals, m, r) <= 0 then Some(NothingOwed)
    else if receipt.None? then Some(NotFound)
    else if !receipt.value.succeeded then Some(Reverted)
    else
      var logs := Paying(receipt.value.logs, r);
      if AnyRecorded(l.payouts, logs) then Some(AlreadyRecorded)
      else if logs == [] then Some(NoTransfer)
      else if Values(logs) <= 0 then Some(ZeroSum)
      else if Values(logs) > Owed(l.accruals, m, r) then Some(ExceedsOwed)
      else if Repeats(logs) then Some(AlreadyRecorded)
      else None
  }

  /** Oldest first, every outstanding accrual that still fits is paid; the sum paid is returned. */
  function Cover(accruals: seq<Accrual>, m: nat, r: Address, total: int, payout: nat): (seq<Accrual>, int) {
    if accruals == [] then ([], 0)
    else
      var a := accruals[|accruals| - 1];
      var (done, covered) := Cover(accruals[..|accruals| - 1], m, r, total, payout);
      if Counts(a, m, Some(r), Accrued) && a.amount <= total - covered
      then (done + [a.(standing := Paid, payout := Some(payout))], covered + a.amount)
      else (done + [a], covered)
  }

  function RecordPayout(l: Ledger, m: nat, r: Address, receipt: Option<Receipt>): Ledger {
    if Objection(l, m, r, receipt).Some? then l
    else
      var logs := Paying(receipt.value.logs, r);
      Ledger(Cover(l.accruals, m, r, Values(logs), |l.payouts|).0, l.payouts + Rows(m, r, logs))
  }

  datatype Event =
    | Deliver(sale: Sale)
    | FullRefund(order: nat)
    | Pay(merchant: nat, referrer: Address, receipt: Option<Receipt>)

  function Step(l: Ledger, e: Event): Ledger {
    match e
    case Deliver(sale) => Accrue(l, sale)
    case FullRefund(o) => VoidAccrual(l, o)
    case Pay(m, r, receipt) => RecordPayout(l, m, r, receipt)
  }

  function Run(l: Ledger, es: seq<Event>): Ledger {
    if es == [] then l else Step(Run(l, es[..|es| - 1]), es[|es| - 1])
  }

  // ------------------------------------------------------------ covering

  ghost predicate AllPositive(accruals: seq<Accrual>) {
    forall i :: 0 <= i < |accruals| ==> accruals[i].amount > 0
  }

  /** A row kept, or paid by this payout. */
  ghost predicate KeptOrPaid(a: Accrual, b: Accrual, m: nat, r: Address, payout: nat) {
    b == a || (Counts(a, m, Some(r), Accrued) && b == a.(standing := Paid, payout := Some(payout)))
  }

  ghost predicate Covered(before: seq<Accrual>, after: seq<Accrual>, covered: int, m: nat, r: Address, total: int, payout: nat) {
    && |after| == |before| && 0 <= covered <= total
    && (forall i :: 0 <= i < |before| ==> KeptOrPaid(before[i], after[i], m, r, payout))
    && (forall i :: 0 <= i < |after| && Counts(after[i], m, Some(r), Accrued) ==> after[i].amount > total - covered)
  }

  lemma {:induction false} CoverFacts(accruals: seq<Accrual>, m: nat, r: Address, total: int, payout: nat)
    requires AllPositive(accruals) && total >= 0
    ensures Covered(accruals, Cover(accruals, m, r, total, payout).0, Cover(accruals, m, r, total, payout).1, m, r, total, payout)
    decreases |accruals|
  {
    if accruals != [] {
      CoverFacts(accruals[..|accruals| - 1], m, r, total, payout);
    }
  }

  /** How a payout of c to (m, r) shifts the total of (m2, r2) in standing s. */
  function Shift(c: int, m: nat, r: Address, m2: nat, r2: Option<Address>, s: Standing): int {
    if m2 != m || (r2.Some? && r2.value != r) || s == Voided then 0 else if s == Paid then c else -c
  }

  lemma {:induction false} CoverLast(accruals: seq<Accrual>, m: nat, r: Address, total: int, payout: nat)
    requires accruals != []
    ensures var a := accruals[|accruals| - 1];
            var front := Cover(accruals[..|accruals| - 1], m, r, total, payout);
            var fits := Counts(a, m, Some(r), Accrued) && a.amount <= total - front.1;
            Cover(accruals, m, r, total, payout) ==
              if fits then (front.0 + [a.(standing := Paid, payout := Some(payout))], front.1 + a.amount) else (front.0 + [a], front.1)
  {
  }

  lemma {:induction false} TotalLast(accruals: seq<Accrual>, a: Accrual, m: nat, r: Option<Address>, s: Standing)
    ensures Total(accruals + [a], m, r, s) == Total(accruals, m, r, s) + if Counts(a, m, r, s) then a.amount else 0
  {
    TotalAppend(accruals, [a], m, r, s);
    TotalOne(a, m, r, s);
  }

  /** Covering moves the covered amount from owed to paid, for this pair only. */
  lemma {:induction false} CoverTotals(accruals: seq<Accrual>, m: nat, r: Address, total: int, payout: nat, m2: nat, r2: Option<Address>, s: Standing)
    ensures var done := Cover(accruals, m, r, total, payout);
            Total(done.0, m2, r2, s) == Total(accruals, m2, r2, s) + Shift(done.1, m, r, m2, r2, s)
    decreases |accruals|
  {
    if accruals != [] {
      var front, a := accruals[..|accruals| - 1], accruals[|accruals| - 1];
      CoverTotals(front, m, r, total, payout, m2, r2, s);
      CoverLast(accruals, m, r, total, payout);
      var done := Cover(front, m, r, total, payout);
      TotalLast(done.0, a, m2, r2, s);
      TotalLast(done.0, a.(standing := Paid, payout := Some(payout)), m2, r2, s);
      assert accruals == front + [a];
      TotalLast(front, a, m2, r2, s);
    }
  }

  lemma {:induction false} SentAppend(payouts: seq<Payout>, m: nat, r: Address, logs: seq<Log>, m2: nat, r2: Address)
    ensures Sent(payouts + Rows(m, r, logs), m2, r2) == Sent(payouts, m2, r2) + if m == m2 && r == r2 then Values(logs) else 0
    decreases |logs|
  {
    if logs == [] {
      assert payouts + Rows(m, r, logs) == payouts;
    } else {
      var n := |logs| - 1;
      var all := payouts + Rows(m, r, logs);
      assert all[..|all| - 1] == payouts + Rows(m, r, logs[..n]);
      SentAppend(payouts, m, r, logs[..n], m2, r2);
    }
  }

  // ------------------------------------------------------------ the invariant

  ghost predicate OrdersUnique(l: Ledger) {
    forall i, j :: 0 <= i < j < |l.accruals| ==> l.accruals[i].order != l.accruals[j].order
  }

  ghost predicate TransfersUnique(payouts: seq<Payout>) {
    forall i, j :: 0 <= i < j < |payouts| ==> payouts[i].tx != payouts[j].tx || payouts[i].logIndex != payouts[j].logIndex
  }

  /** A paid accrual names the payout that covered it, of the same merchant to the same referrer. */
  ghost predicate Linked(l: Ledger) {
    forall i :: 0 <= i < |l.accruals| ==>
      (l.accruals[i].standing == Paid <==> l.accruals[i].payout.Some?) &&
      (l.accruals[i].payout.Some? ==> LinkOk(l, l.accruals[i]))
  }

  ghost predicate LinkOk(l: Ledger, a: Accrual) {
    a.payout.Some? && a.payout.value < |l.payouts| &&
    l.payouts[a.payout.value].merchant == a.merchant && l.payouts[a.payout.value].referrer == a.referrer
  }

  ghost predicate Backed(l: Ledger) {
    forall m: nat, r: Address {:trigger Sent(l.payouts, m, r)} :: Total(l.accruals, m, Some(r), Paid) <= Sent(l.payouts, m, r)
  }

  ghost predicate Inv(l: Ledger) {
    AllPositive(l.accruals) && OrdersUnique(l) && TransfersUnique(l.payouts) && Linked(l) && Backed(l)
  }

  lemma {:induction false} AccrueOk(l: Ledger, sale: Sale)
    requires Inv(l)
    ensures Inv(Accrue(l, sale))
  {
    var l' := Accrue(l, sale);
    forall m: nat, r: Address
      ensures Total(l'.accruals, m, Some(r), Paid) <= Sent(l'.payouts, m, r)
    {
      assert Total(l.accruals, m, Some(r), Paid) <= Sent(l.payouts, m, r);
      if l' != l {
        var a := l'.accruals[|l.accruals|];
        TotalAppend(l.accruals, [a], m, Some(r), Paid);
        TotalOne(a, m, Some(r), Paid);
      }
    }
    assert Linked(l');
  }

  lemma {:induction false} VoidOk(l: Ledger, order: nat)
    requires Inv(l)
    ensures Inv(VoidAccrual(l, order))
  {
    var l' := VoidAccrual(l, order);
    var found := Outstanding(l.accruals, order);
    forall m: nat, r: Address
      ensures Total(l'.accruals, m, Some(r), Paid) <= Sent(l'.payouts, m, r)
    {
      assert Total(l.accruals, m, Some(r), Paid) <= Sent(l.payouts, m, r);
      if found.Some? {
        TotalUpdate(l.accruals, found.value, l.accruals[found.value].(standing := Voided), m, Some(r), Paid);
      }
    }
    assert Linked(l');
  }

  lemma {:induction false} PayingFrom(logs: seq<Log>, r: Address)
    ensures forall i :: 0 <= i < |Paying(logs, r)| ==> Pays(Paying(logs, r)[i], r) && Paying(logs, r)[i] in logs
    decreases |logs|
  {
    if logs != [] {
      PayingFrom(logs[..|logs| - 1], r);
    }
  }

  lemma RowsUnique(payouts: seq<Payout>, m: nat, r: Address, logs: seq<Log>)
    requires TransfersUnique(payouts) && !AnyRecorded(payouts, logs) && !Repeats(logs)
    ensures TransfersUnique(payouts + Rows(m, r, logs))
  {
    var all := payouts + Rows(m, r, logs);
    forall i, j | 0 <= i < j < |all|
      ensures all[i].tx != all[j].tx || all[i].logIndex != all[j].logIndex
    {
      if i < |payouts| <= j {
        assert !IsRecorded(payouts, logs[j - |payouts|]);
      }
    }
  }

  lemma {:induction false} PayoutLinks(l: Ledger, m: nat, r: Address, receipt: Option<Receipt>)
    requires Inv(l) && Objection(l, m, r, receipt).None?
    ensures var l' := RecordPayout(l, m, r, receipt);
            AllPositive(l'.accruals) && OrdersUnique(l') && TransfersUnique(l'.payouts) && Linked(l')
  {
    var l' := RecordPayout(l, m, r, receipt);
    var logs := Paying(receipt.value.logs, r);
    CoverFacts(l.accruals, m, r, Values(logs), |l.payouts|);
    RowsUnique(l.payouts, m, r, logs);
    forall i | 0 <= i < |l'.accruals|
      ensures (l'.accruals[i].standing == Paid <==> l'.accruals[i].payout.Some?)
      ensures l'.accruals[i].payout.Some? ==> LinkOk(l', l'.accruals[i])
      ensures l'.accruals[i].order == l.accruals[i].order && l'.accruals[i].amount == l.accruals[i].amount
    {
      assert KeptOrPaid(l.accruals[i], l'.accruals[i], m, r, |l.payouts|);
      assert l.accruals[i].payout.Some? ==> LinkOk(l, l.accruals[i]);
    }
  }

  lemma {:induction false} PayoutOk(l: Ledger, m: nat, r: Address, receipt: Option<Receipt>)
    requires Inv(l)
    ensures Inv(RecordPayout(l, m, r, receipt))
  {
    if Objection(l, m, r, receipt).None? {
      var logs := Paying(receipt.value.logs, r);
      var l' := RecordPayout(l, m, r, receipt);
      PayoutLinks(l, m, r, receipt);
      CoverFacts(l.accruals, m, r, Values(logs), |l.payouts|);
      forall m2: nat, r2: Address
        ensures Total(l'.accruals, m2, Some(r2), Paid) <= Sent(l'.payouts, m2, r2)
      {
        assert Total(l.accruals, m2, Some(r2), Paid) <= Sent(l.payouts, m2, r2);
        CoverTotals(l.accruals, m, r, Values(logs), |l.payouts|, m2, Some(r2), Paid);
        SentAppend(l.payouts, m, r, logs, m2, r2);
      }
    }
  }

  lemma {:induction false} RunOk(es: seq<Event>)
    ensures Inv(Run(EMPTY, es))
    decreases |es|
  {
    if es != [] {
      var l := Run(EMPTY, es[..|es| - 1]);
      RunOk(es[..|es| - 1]);
      match es[|es| - 1]
      case Deliver(sale) => AccrueOk(l, sale);
      case FullRefund(o) => VoidOk(l, o);
      case Pay(m, r, receipt) => PayoutOk(l, m, r, receipt);
    }
  }

  // ------------------------------------------------------------ what it promises

  /** Over every run: what a merchant's accruals to a referrer count as paid never exceeds the
      transfers recorded for that pair, each transfer is recorded once, each order accrues at most
      once, and each paid accrual points at a payout of the same pair. */
  lemma PaidIsBacked(es: seq<Event>, m: nat, r: Address)
    ensures var l := Run(EMPTY, es);
            && Total(l.accruals, m, Some(r), Paid) <= Sent(l.payouts, m, r)
            && TransfersUnique(l.payouts) && OrdersUnique(l) && Linked(l)
  {
    RunOk(es);
    var l := Run(EMPTY, es);
    assert Backed(l) && Sent(l.payouts, m, r) == Sent(l.payouts, m, r);
  }

  /** A recorded payout: covered <= recorded <= owed before; the ledger's own recomputed balance
      drops by exactly what was covered; nothing still outstanding would fit in the leftover; and
      no other merchant or referrer is affected. */
  lemma PayoutIsExact(es: seq<Event>, m: nat, r: Address, receipt: Option<Receipt>)
    requires Objection(Run(EMPTY, es), m, r, receipt).None?
    ensures var l := Run(EMPTY, es);
            var l' := RecordPayout(l, m, r, receipt);
            var recorded := Values(Paying(receipt.value.logs, r));
            var covered := Cover(l.accruals, m, r, recorded, |l.payouts|).1;
            && 0 <= covered <= recorded <= Owed(l.accruals, m, r) && recorded > 0
            && Owed(l'.accruals, m, r) == Owed(l.accruals, m, r) - covered
            && Total(l'.accruals, m, Some(r), Paid) == Total(l.accruals, m, Some(r), Paid) + covered
            && Sent(l'.payouts, m, r) == Sent(l.payouts, m, r) + recorded
            && (forall i :: 0 <= i < |l'.accruals| && Counts(l'.accruals[i], m, Some(r), Accrued) ==> l'.accruals[i].amount > recorded - covered)
            && (forall m2: nat, r2: Address, s :: m2 != m || r2 != r ==> Total(l'.accruals, m2, Some(r2), s) == Total(l.accruals, m2, Some(r2), s))
  {
    RunOk(es);
    var l := Run(EMPTY, es);
    var logs := Paying(receipt.value.logs, r);
    CoverFacts(l.accruals, m, r, Values(logs), |l.payouts|);
    CoverTotals(l.accruals, m, r, Values(logs), |l.payouts|, m, Some(r), Accrued);
    CoverTotals(l.accruals, m, r, Values(logs), |l.payouts|, m, Some(r), Paid);
    SentAppend(l.payouts, m, r, logs, m, r);
    forall m2: nat, r2: Address, s | m2 != m || r2 != r
      ensures Total(RecordPayout(l, m, r, receipt).accruals, m2, Some(r2), s) == Total(l.accruals, m2, Some(r2), s)
    {
      CoverTotals(l.accruals, m, r, Values(logs), |l.payouts|, m2, Some(r2), s);
    }
  }

  /** Paid and void are absorbing, and a row's parties and amounts never change. */
  lemma SettledRowsStay(l: Ledger, e: Event, i: nat)
    requires Inv(l) && i < |l.accruals|
    ensures i < |Step(l, e).accruals|
    ensures var a, b := l.accruals[i], Step(l, e).accruals[i];
            && b.order == a.order && b.merchant == a.merchant && b.referrer == a.referrer && b.amount == a.amount
            && (a.standing != Accrued ==> b == a)
            && (b.standing == Voided && a.standing == Accrued ==> e == FullRefund(a.order))
  {
    match e
    case Deliver(_) =>
    case FullRefund(_) =>
    case Pay(m, r, receipt) =>
      if Objection(l, m, r, receipt).None? {
        var total := Values(Paying(receipt.value.logs, r));
        CoverFacts(l.accruals, m, r, total, |l.payouts|);
        assert KeptOrPaid(l.accruals[i], Step(l, e).accruals[i], m, r, |l.payouts|);
      }
  }

  /** An order earns exactly its floored share, once, and never for its own buyer or payee. */
  lemma AccruesIff(l: Ledger, sale: Sale)
    ensures Accrue(l, sale) != l <==> sale.referrer.Some? && sale.buyer != sale.referrer && sale.payTo != sale.referrer.value
                                      && sale.expected >= 50 && !HasAccrual(l.accruals, sale.order)
    ensures Accrue(l, sale) != l ==>
              var a := Accrue(l, sale).accruals[|l.accruals|];
              50 * a.amount <= sale.expected < 50 * (a.amount + 1) && HasAccrual(Accrue(l, sale).accruals, sale.order)
  {
    var l' := Accrue(l, sale);
    if Earns(l.accruals, sale) {
      assert |l'.accruals| == |l.accruals| + 1;
      assert l'.accruals[|l.accruals|].order == sale.order;
    }
  }

  /** No outstanding accrual of the pair fits in the amount. */
  ghost predicate NoneFits(accruals: seq<Accrual>, m: nat, r: Address, total: int) {
    forall i :: 0 <= i < |accruals| && Counts(accruals[i], m, Some(r), Accrued) ==> accruals[i].amount > total
  }

  lemma {:induction false} CoversNothingIff(accruals: seq<Accrual>, m: nat, r: Address, total: int, payout: nat)
    requires AllPositive(accruals) && total >= 0
    ensures Cover(accruals, m, r, total, payout).1 == 0 <==> NoneFits(accruals, m, r, total)
    ensures Cover(accruals, m, r, total, payout).1 == 0 ==> Cover(accruals, m, r, total, payout).0 == accruals
    decreases |accruals|
  {
    if accruals != [] {
      var front := accruals[..|accruals| - 1];
      CoverFacts(front, m, r, total, payout);
      CoversNothingIff(front, m, r, total, payout);
      assert accruals == front + [accruals[|accruals| - 1]];
    }
  }

  /** Covered and recorded need not be equal, and a payout covers nothing at all exactly when every
      outstanding accrual exceeds it. It is recorded all the same: the balance is as it was, and the
      transfer can never be used again. */
  lemma TooSmallPayoutIsForgotten(l: Ledger, m: nat, r: Address, receipt: Option<Receipt>)
    requires Inv(l) && Objection(l, m, r, receipt).None?
    ensures var l' := RecordPayout(l, m, r, receipt);
            var recorded := Values(Paying(receipt.value.logs, r));
            && (Owed(l'.accruals, m, r) == Owed(l.accruals, m, r) <==> NoneFits(l.accruals, m, r, recorded))
            && (NoneFits(l.accruals, m, r, recorded) ==> l'.accruals == l.accruals)
            && Sent(l'.payouts, m, r) > Sent(l.payouts, m, r)
            && (Owed(l'.accruals, m, r) > 0 ==> Objection(l', m, r, receipt) == Some(AlreadyRecorded))
  {
    var l' := RecordPayout(l, m, r, receipt);
    var logs := Paying(receipt.value.logs, r);
    CoversNothingIff(l.accruals, m, r, Values(logs), |l.payouts|);
    CoverFacts(l.accruals, m, r, Values(logs), |l.payouts|);
    CoverTotals(l.accruals, m, r, Values(logs), |l.payouts|, m, Some(r), Accrued);
    SentAppend(l.payouts, m, r, logs, m, r);
    assert l'.payouts[|l.payouts|].tx == logs[0].tx && l'.payouts[|l.payouts|].logIndex == logs[0].logIndex;
    assert IsRecorded(l'.payouts, logs[0]);
  }
}
