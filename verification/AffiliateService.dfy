/** The affiliate ledger as the program it is: queries, accumulating loops and rows flipped in place. */
module AffiliateService {
  import opened Prelude
  import opened AffiliateLedger

  /** One referrer's line of the merchant's summary. */
  datatype Line = Line(referrer: Address, accrued: int, voided: int, paid: int)

  function Column(line: Line, s: Standing): int {
    match s
    case Accrued => line.accrued
    case Voided => line.voided
    case Paid => line.paid
  }

  function Credit(line: Line, a: Accrual): Line {
    match a.standing
    case Accrued => line.(accrued := line.accrued + a.amount)
    case Voided => line.(voided := line.voided + a.amount)
    case Paid => line.(paid := line.paid + a.amount)
  }

  function OwedLines(lines: seq<Line>): int {
    if lines == [] then 0 else OwedLines(lines[..|lines| - 1]) + lines[|lines| - 1].accrued
  }

  lemma {:induction false} OwedLinesUpdate(lines: seq<Line>, k: nat, line: Line)
    requires k < |lines|
    ensures OwedLines(lines[k := line]) == OwedLines(lines) - lines[k].accrued + line.accrued
    decreases |lines|
  {
    var n := |lines| - 1;
    if k < n {
      assert lines[k := line][..n] == lines[..n][k := line];
      OwedLinesUpdate(lines[..n], k, line);
    } else {
      assert lines[k := line][..n] == lines[..n];
    }
  }

  lemma OwedLinesAppend(lines: seq<Line>, line: Line)
    ensures OwedLines(lines + [line]) == OwedLines(lines) + line.accrued
  {
    assert (lines + [line])[..|lines|] == lines;
  }

  /** The lines are exactly the totals of these accruals, one line for each referrer among them. */
  ghost predicate Summarises(lines: seq<Line>, accruals: seq<Accrual>, m: nat) {
    && (forall k, s :: 0 <= k < |lines| ==> Column(lines[k], s) == Total(accruals, m, Some(lines[k].referrer), s))
    && (forall i, k :: 0 <= i < k < |lines| ==> lines[i].referrer != lines[k].referrer)
    && (forall i :: 0 <= i < |accruals| && accruals[i].merchant == m ==> HasLine(lines, accruals[i].referrer))
    && OwedLines(lines) == Total(accruals, m, None, Accrued)
  }

  /** One order of the merchant's dashboard, with the payout transaction once it is paid. */
  datatype SummaryRow = SummaryRow(order: nat, referrer: Address, standing: Standing, basis: int, amount: int, payoutTx: Option<Hash>)

  function RowOf(a: Accrual, payouts: seq<Payout>): SummaryRow {
    var tx := if a.payout.Some? && a.payout.value < |payouts| then Some(payouts[a.payout.value].tx) else None;
    SummaryRow(a.order, a.referrer, a.standing, a.basis, a.amount, tx)
  }

  /** The merchant's orders, newest accrual first. */
  function RowsOf(accruals: seq<Accrual>, payouts: seq<Payout>, m: nat): seq<SummaryRow> {
    if accruals == [] then []
    else
      var a := accruals[|accruals| - 1];
      (if a.merchant == m then [RowOf(a, payouts)] else []) + RowsOf(accruals[..|accruals| - 1], payouts, m)
  }

  /** What is already listed, followed by the rows of the first n accruals, is the whole list. */
  ghost predicate ListedDownTo(done: seq<SummaryRow>, accruals: seq<Accrual>, payouts: seq<Payout>, m: nat, n: nat)
    requires n <= |accruals|
  {
    done + RowsOf(accruals[..n], payouts, m) == RowsOf(accruals, payouts, m)
  }

  lemma {:induction false} ListOne(done: seq<SummaryRow>, accruals: seq<Accrual>, payouts: seq<Payout>, m: nat, n: nat)
    requires n < |accruals| && ListedDownTo(done, accruals, payouts, m, n + 1)
    ensures ListedDownTo(if accruals[n].merchant == m then done + [RowOf(accruals[n], payouts)] else done, accruals, payouts, m, n)
  {
    assert accruals[..n + 1][..n] == accruals[..n];
  }

  lemma {:induction false} ListStart(accruals: seq<Accrual>, payouts: seq<Payout>, m: nat)
    ensures ListedDownTo([], accruals, payouts, m, |accruals|)
    ensures forall done :: ListedDownTo(done, accruals, payouts, m, 0) ==> done == RowsOf(accruals, payouts, m)
  {
    assert accruals[..|accruals|] == accruals && accruals[..0] == [];
  }

  lemma {:induction false} RowsComeFrom(accruals: seq<Accrual>, payouts: seq<Payout>, m: nat, k: nat)
    requires k < |RowsOf(accruals, payouts, m)|
    ensures exists i :: 0 <= i < |accruals| && accruals[i].merchant == m && RowsOf(accruals, payouts, m)[k] == RowOf(accruals[i], payouts)
    decreases |accruals|
  {
    var n := |accruals| - 1;
    var a := accruals[n];
    if a.merchant == m && k == 0 {
      assert RowsOf(accruals, payouts, m)[0] == RowOf(a, payouts);
    } else {
      var back := if a.merchant == m then k - 1 else k;
      RowsComeFrom(accruals[..n], payouts, m, back);
      var i :| 0 <= i < n && accruals[..n][i].merchant == m && RowsOf(accruals[..n], payouts, m)[back] == RowOf(accruals[..n][i], payouts);
      assert accruals[i] == accruals[..n][i];
    }
  }

  /** After any run, an order of the summary shows a payout transaction exactly when it is paid, and
      that transaction is one recorded for this merchant and the order's referrer. */
  lemma PaidRowsShowTheirPayout(es: seq<Event>, m: nat, k: nat)
    requires var l := Run(EMPTY, es); k < |RowsOf(l.accruals, l.payouts, m)|
    ensures var l := Run(EMPTY, es);
            var row := RowsOf(l.accruals, l.payouts, m)[k];
            && (row.standing == Paid <==> row.payoutTx.Some?)
            && (row.payoutTx.Some? ==>
                  exists p :: 0 <= p < |l.payouts| && l.payouts[p].tx == row.payoutTx.value &&
                              l.payouts[p].merchant == m && l.payouts[p].referrer == row.referrer)
  {
    RunOk(es);
    var l := Run(EMPTY, es);
    RowsComeFrom(l.accruals, l.payouts, m, k);
    var i :| 0 <= i < |l.accruals| && l.accruals[i].merchant == m && RowsOf(l.accruals, l.payouts, m)[k] == RowOf(l.accruals[i], l.payouts);
    assert l.accruals[i].payout.Some? ==> LinkOk(l, l.accruals[i]);
  }

  predicate HasLine(lines: seq<Line>, r: Address) {
    exists k :: 0 <= k < |lines| && lines[k].referrer == r
  }

  lemma {:induction false} TotalCons(a: Accrual, accruals: seq<Accrual>, m: nat, r: Option<Address>, s: Standing)
    ensures Total([a] + accruals, m, r, s) == Total(accruals, m, r, s) + if Counts(a, m, r, s) then a.amount else 0
  {
    TotalAppend([a], accruals, m, r, s);
    TotalOne(a, m, r, s);
  }

  /** A referrer none of whose accruals is among them has nothing in any standing. */
  lemma {:induction false} NoLineNoTotal(accruals: seq<Accrual>, m: nat, r: Address, s: Standing)
    requires forall i :: 0 <= i < |accruals| && accruals[i].merchant == m ==> accruals[i].referrer != r
    ensures Total(accruals, m, Some(r), s) == 0
    decreases |accruals|
  {
    if accruals != [] {
      NoLineNoTotal(accruals[..|accruals| - 1], m, r, s);
    }
  }

  /** Crediting one more accrual to its line keeps the summary exact. */
  lemma {:induction false} CreditOk(lines: seq<Line>, k: nat, a: Accrual, accruals: seq<Accrual>, m: nat)
    requires Summarises(lines, accruals, m) && a.merchant == m && k < |lines| && lines[k].referrer == a.referrer
    ensures Summarises(lines[k := Credit(lines[k], a)], [a] + accruals, m)
  {
    var lines' := lines[k := Credit(lines[k], a)];
    forall j, s | 0 <= j < |lines'|
      ensures Column(lines'[j], s) == Total([a] + accruals, m, Some(lines'[j].referrer), s)
    {
      TotalCons(a, accruals, m, Some(lines'[j].referrer), s);
      assert Column(lines[j], s) == Total(accruals, m, Some(lines[j].referrer), s);
    }
    forall i | 0 <= i < |[a] + accruals| && ([a] + accruals)[i].merchant == m
      ensures HasLine(lines', ([a] + accruals)[i].referrer)
    {
      if i == 0 {
        assert lines'[k].referrer == a.referrer;
      } else {
        var j :| 0 <= j < |lines| && lines[j].referrer == accruals[i - 1].referrer;
        assert lines'[j].referrer == lines[j].referrer;
      }
    }
    OwedLinesUpdate(lines, k, Credit(lines[k], a));
    TotalCons(a, accruals, m, None, Accrued);
  }

  /** A new referrer starts with an empty line. */
  lemma {:induction false} NewLineOk(lines: seq<Line>, r: Address, accruals: seq<Accrual>, m: nat)
    requires Summarises(lines, accruals, m) && !HasLine(lines, r)
    ensures Summarises(lines + [Line(r, 0, 0, 0)], accruals, m)
  {
    var lines' := lines + [Line(r, 0, 0, 0)];
    forall i | 0 <= i < |accruals| && accruals[i].merchant == m
      ensures accruals[i].referrer != r && HasLine(lines', accruals[i].referrer)
    {
      var j :| 0 <= j < |lines| && lines[j].referrer == accruals[i].referrer;
      assert lines'[j].referrer == accruals[i].referrer;
    }
    forall j, s | 0 <= j < |lines'|
      ensures Column(lines'[j], s) == Total(accruals, m, Some(lines'[j].referrer), s)
    {
      if j < |lines| {
        assert Column(lines[j], s) == Total(accruals, m, Some(lines[j].referrer), s);
      } else {
        NoLineNoTotal(accruals, m, r, s);
      }
    }
    OwedLinesAppend(lines, Line(r, 0, 0, 0));
  }

  lemma {:induction false} SkipOk(lines: seq<Line>, a: Accrual, accruals: seq<Accrual>, m: nat)
    requires Summarises(lines, accruals, m) && a.merchant != m
    ensures Summarises(lines, [a] + accruals, m)
  {
    forall j, s | 0 <= j < |lines|
      ensures Column(lines[j], s) == Total([a] + accruals, m, Some(lines[j].referrer), s)
    {
      TotalCons(a, accruals, m, Some(lines[j].referrer), s);
      assert Column(lines[j], s) == Total(accruals, m, Some(lines[j].referrer), s);
    }
    forall i | 0 <= i < |[a] + accruals| && ([a] + accruals)[i].merchant == m
      ensures HasLine(lines, ([a] + accruals)[i].referrer)
    {
      assert accruals[i - 1].merchant == m;
    }
    TotalCons(a, accruals, m, None, Accrued);
  }

  lemma {:induction false} PayingSnoc(logs: seq<Log>, i: nat, r: Address)
    requires i < |logs|
    ensures Paying(logs[..i + 1], r) == if Pays(logs[i], r) then Paying(logs[..i], r) + [logs[i]] else Paying(logs[..i], r)
  {
    assert logs[..i + 1][..i] == logs[..i];
  }

  lemma {:induction false} PayingPrefix(logs: seq<Log>, i: nat, r: Address)
    requires i <= |logs|
    ensures Paying(logs[..i], r) <= Paying(logs, r)
    decreases |logs|
  {
    if i < |logs| {
      var front := logs[..|logs| - 1];
      assert logs[..i] == front[..i];
      PayingPrefix(front, i, r);
    } else {
      assert logs[..i] == logs;
    }
  }

  lemma {:induction false} ValuesSnoc(logs: seq<Log>, log: Log)
    ensures Values(logs + [log]) == Values(logs) + log.value
  {
    assert (logs + [log])[..|logs|] == logs;
  }

  class Affiliates {
    var accruals: seq<Accrual>
    var payouts: seq<Payout>

    constructor ()
      ensures View() == EMPTY
    {
      accruals := [];
      payouts := [];
    }

    function View(): Ledger
      reads this
    {
      Ledger(accruals, payouts)
    }

    /** Returns what was accrued, if the sale earned anything. */
    method AccrueSale(sale: Sale) returns (accrued: Option<int>)
      modifies this
      ensures View() == Accrue(old(View()), sale)
      ensures accrued == if Earns(old(accruals), sale) then Some(Share(sale.expected)) else None
    {
      if sale.referrer.None? || sale.buyer == sale.referrer || sale.payTo == sale.referrer.value {
        return None;
      }
      var share := sale.expected * RATE_BPS / 10000;
      if share <= 0 {
        return None;
      }
      for i := 0 to |accruals|
        invariant View() == old(View())
        invariant forall k :: 0 <= k < i ==> accruals[k].order != sale.order
      {
        if accruals[i].order == sale.order {
          return None;
        }
      }
      accruals := accruals + [Accrual(sale.order, sale.merchant, sale.referrer.value, sale.expected, share, Accrued, None)];
      return Some(share);
    }

    method VoidSale(order: nat) returns (voided: bool)
      modifies this`accruals
      ensures View() == VoidAccrual(old(View()), order)
      ensures voided <==> Outstanding(old(accruals), order).Some?
    {
      var found := Outstanding(accruals, order);
      voided := found.Some?;
      if voided {
        accruals := accruals[found.value := accruals[found.value].(standing := Voided)];
      }
    }

    method OwedTo(m: nat, r: Address) returns (owed: int)
      ensures owed == Owed(accruals, m, r)
    {
      owed := 0;
      for i := 0 to |accruals|
        invariant owed == Owed(accruals[..i], m, r)
      {
        assert accruals[..i + 1] == accruals[..i] + [accruals[i]];
        TotalLast(accruals[..i], accruals[i], m, Some(r), Accrued);
        if accruals[i].merchant == m && accruals[i].referrer == r && accruals[i].standing == Accrued {
          owed := owed + accruals[i].amount;
        }
      }
      assert accruals[..|accruals|] == accruals;
    }

    method MerchantOwed(m: nat) returns (owed: int)
      ensures owed == Total(accruals, m, None, Accrued)
    {
      owed := 0;
      for i := 0 to |accruals|
        invariant owed == Total(accruals[..i], m, None, Accrued)
      {
        assert accruals[..i + 1] == accruals[..i] + [accruals[i]];
        TotalLast(accruals[..i], accruals[i], m, None, Accrued);
        if accruals[i].merchant == m && accruals[i].standing == Accrued {
          owed := owed + accruals[i].amount;
        }
      }
      assert accruals[..|accruals|] == accruals;
    }

    /** The transfers to the referrer, with their sum; refused at the first one already recorded. */
    method Collect(logs: seq<Log>, r: Address) returns (newLogs: seq<Log>, total: int, replayed: bool)
      ensures replayed == AnyRecorded(payouts, Paying(logs, r))
      ensures !replayed ==> newLogs == Paying(logs, r) && total == Values(newLogs)
    {
      newLogs, total, replayed := [], 0, false;
      for i := 0 to |logs|
        invariant newLogs == Paying(logs[..i], r) && total == Values(newLogs)
        invariant !AnyRecorded(payouts, newLogs) && !replayed
      {
        PayingSnoc(logs, i, r);
        var log := logs[i];
        if log.usdt && log.transfer && log.to == r {
          if IsRecorded(payouts, log) {
            PayingPrefix(logs, i + 1, r);
            assert Paying(logs, r)[|newLogs|] == log;
            replayed := true;
            return;
          }
          ValuesSnoc(newLogs, log);
          newLogs, total := newLogs + [log], total + log.value;
        }
      }
      assert logs[..|logs|] == logs;
    }

    /** Oldest first, flips every outstanding accrual that still fits. */
    method CoverAccruals(m: nat, r: Address, total: int, payout: nat) returns (covered: int)
      modifies this`accruals
      ensures (accruals, covered) == Cover(old(accruals), m, r, total, payout)
    {
      ghost var before := accruals;
      var remaining := total;
      covered := 0;
      for i := 0 to |accruals|
        invariant |accruals| == |before| && remaining == total - covered
        invariant (accruals[..i], covered) == Cover(before[..i], m, r, total, payout) && accruals[i..] == before[i..]
      {
        assert before[..i + 1][..i] == before[..i] && accruals[i] == before[i];
        CoverLast(before[..i + 1], m, r, total, payout);
        ghost var done := accruals[..i];
        var a := accruals[i];
        if a.merchant == m && a.referrer == r && a.standing == Accrued && a.amount <= remaining {
          accruals := accruals[i := a.(standing := Paid, payout := Some(payout))];
          remaining := remaining - a.amount;
          covered := covered + a.amount;
        }
        assert accruals[..i + 1] == done + [accruals[i]];
      }
      assert before[..|before|] == before && accruals[..|accruals|] == accruals;
    }

    /** Verify and record: every refusal leaves both tables alone. */
    method VerifyAndRecord(m: nat, r: Address, receipt: Option<Receipt>) returns (outcome: Outcome)
      modifies this
      ensures View() == RecordPayout(old(View()), m, r, receipt)
      ensures match Objection(old(View()), m, r, receipt)
              case Some(error) => outcome == Refused(error)
              case None =>
                var total := Values(Paying(receipt.value.logs, r));
                var covered := Cover(old(accruals), m, r, total, |old(payouts)|).1;
                outcome == Recorded(total, covered, Owed(old(accruals), m, r), Owed(accruals, m, r))
    {
      var owed := OwedTo(m, r);
      if owed <= 0 {
        return Refused(NothingOwed);
      }
      if receipt.None? {
        return Refused(NotFound);
      }
      if !receipt.value.succeeded {
        return Refused(Reverted);
      }
      var newLogs, total, replayed := Collect(receipt.value.logs, r);
      if replayed {
        return Refused(AlreadyRecorded);
      }
      if newLogs == [] {
        return Refused(NoTransfer);
      }
      if total <= 0 {
        return Refused(ZeroSum);
      }
      if total > owed {
        return Refused(ExceedsOwed);
      }
      if Repeats(newLogs) {
        return Refused(AlreadyRecorded);
      }
      CoverTotals(accruals, m, r, total, |payouts|, m, Some(r), Accrued);
      var first := |payouts|;
      payouts := payouts + Rows(m, r, newLogs);
      var covered := CoverAccruals(m, r, total, first);
      return Recorded(total, covered, owed, owed - covered);
    }

    /** One line per referrer, one row per order, newest accrual first; the owed column adds up to
        what is owed. */
    method MerchantSummary(m: nat) returns (lines: seq<Line>, orders: seq<SummaryRow>, owed: int)
      ensures Summarises(lines, accruals, m)
      ensures orders == RowsOf(accruals, payouts, m)
      ensures owed == OwedLines(lines) == Total(accruals, m, None, Accrued)
      ensures forall k :: 0 <= k < |lines| ==> lines[k].accrued == Owed(accruals, m, lines[k].referrer)
    {
      lines, orders := [], [];
      var i := |accruals|;
      assert accruals[i..] == [];
      ListStart(accruals, payouts, m);
      while i > 0
        invariant 0 <= i <= |accruals| && Summarises(lines, accruals[i..], m)
        invariant ListedDownTo(orders, accruals, payouts, m, i)
      {
        i := i - 1;
        var a := accruals[i];
        assert accruals[i..] == [a] + accruals[i + 1..];
        ListOne(orders, accruals, payouts, m, i);
        if a.merchant == m {
          lines := AddToLine(lines, a, accruals[i + 1..], m);
          orders := orders + [RowOf(a, payouts)];
        } else {
          SkipOk(lines, a, accruals[i + 1..], m);
        }
      }
      assert accruals[0..] == accruals;
      owed := OwedColumn(lines);
      assert forall k :: 0 <= k < |lines| ==> lines[k].accrued == Column(lines[k], Accrued);
    }

    static method OwedColumn(lines: seq<Line>) returns (owed: int)
      ensures owed == OwedLines(lines)
    {
      owed := 0;
      for j := 0 to |lines|
        invariant owed == OwedLines(lines[..j])
      {
        assert lines[..j + 1] == lines[..j] + [lines[j]];
        OwedLinesAppend(lines[..j], lines[j]);
        owed := owed + lines[j].accrued;
      }
      assert lines[..|lines|] == lines;
    }

    /** Credits an accrual to its referrer's line, which it starts if there is none. */
    method AddToLine(lines: seq<Line>, a: Accrual, ghost newer: seq<Accrual>, m: nat) returns (credited: seq<Line>)
      requires a.merchant == m && Summarises(lines, newer, m)
      ensures Summarises(credited, [a] + newer, m)
    {
      credited := lines;
      var k := LineOf(lines, a.referrer);
      if k == |lines| {
        NewLineOk(lines, a.referrer, newer, m);
        credited := credited + [Line(a.referrer, 0, 0, 0)];
      }
      CreditOk(credited, k, a, newer, m);
      credited := credited[k := Credit(credited[k], a)];
    }

    method LineOf(lines: seq<Line>, r: Address) returns (k: nat)
      ensures k <= |lines| && (k < |lines| ==> lines[k].referrer == r)
      ensures k == |lines| <==> !HasLine(lines, r)
    {
      k := 0;
      while k < |lines| && lines[k].referrer != r
        invariant 0 <= k <= |lines| && forall j :: 0 <= j < k ==> lines[j].referrer != r
      {
        k := k + 1;
      }
    }
  }
}
