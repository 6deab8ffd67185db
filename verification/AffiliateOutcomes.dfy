/** Which payouts are taken, and which accruals each one pays, told from the receipt and the rows. */
module AffiliateOutcomes {
  import opened Prelude
  import opened AffiliateLedger

  ghost predicate ToReferrer(log: Log, r: Address) {
    log.usdt && log.transfer && log.to == r
  }

  /** What the receipt moved to the referrer. */
  ghost function MovedTo(logs: seq<Log>, r: Address): int {
    if logs == [] then 0 else (if ToReferrer(logs[0], r) then logs[0].value else 0) + MovedTo(logs[1..], r)
  }

  ghost predicate NoneRecorded(logs: seq<Log>, payouts: seq<Payout>, r: Address) {
    forall i, k :: 0 <= i < |logs| && ToReferrer(logs[i], r) && 0 <= k < |payouts| ==>
      payouts[k].tx != logs[i].tx || payouts[k].logIndex != logs[i].logIndex
  }

  ghost predicate NoneTwice(logs: seq<Log>, r: Address) {
    forall i, j :: 0 <= i < j < |logs| && ToReferrer(logs[i], r) && ToReferrer(logs[j], r) ==>
      logs[i].tx != logs[j].tx || logs[i].logIndex != logs[j].logIndex
  }

  /** Which places of the receipt the collected transfers come from, in order. */
  ghost predicate Picks(logs: seq<Log>, r: Address, at: seq<nat>) {
    && |at| == |Paying(logs, r)|
    && (forall k :: 0 <= k < |at| ==> at[k] < |logs| && ToReferrer(logs[at[k]], r) && Paying(logs, r)[k] == logs[at[k]])
    && (forall k, l :: 0 <= k < l < |at| ==> at[k] < at[l])
    && (forall i :: 0 <= i < |logs| && ToReferrer(logs[i], r) ==> i in at)
  }

  lemma {:induction false} PayingPicks(logs: seq<Log>, r: Address) returns (at: seq<nat>)
    ensures Picks(logs, r, at)
    decreases |logs|
  {
    if logs == [] {
      at := [];
    } else {
      var n := |logs| - 1;
      at := PayingPicks(logs[..n], r);
      forall k | 0 <= k < |at|
        ensures logs[at[k]] == logs[..n][at[k]]
      {
      }
      if ToReferrer(logs[n], r) {
        var before := at;
        at := at + [n];
        assert forall i :: i in before ==> i in at;
      }
      forall i | 0 <= i < |logs| && ToReferrer(logs[i], r)
        ensures i in at
      {
        if i < n {
          assert logs[..n][i] == logs[i];
        } else {
          assert at[|at| - 1] == n;
        }
      }
    }
  }

  lemma {:induction false} MovedSnoc(logs: seq<Log>, log: Log, r: Address)
    ensures MovedTo(logs + [log], r) == MovedTo(logs, r) + if ToReferrer(log, r) then log.value else 0
  {
    if logs == [] {
      assert logs + [log] == [log];
    } else {
      assert (logs + [log])[1..] == logs[1..] + [log];
      MovedSnoc(logs[1..], log, r);
    }
  }

  lemma {:induction false} MovedIsValues(logs: seq<Log>, r: Address)
    ensures MovedTo(logs, r) == Values(Paying(logs, r))
    decreases |logs|
  {
    if logs != [] {
      var front, log := logs[..|logs| - 1], logs[|logs| - 1];
      assert logs == front + [log];
      MovedSnoc(front, log, r);
      MovedIsValues(front, r);
      ValuesLast(Paying(front, r), log);
    }
  }

  lemma {:induction false} ValuesLast(logs: seq<Log>, log: Log)
    ensures Values(logs + [log]) == Values(logs) + log.value
  {
    assert (logs + [log])[..|logs|] == logs;
  }

  /** A payout is recorded if and only if something is owed, the receipt succeeded and moved more than
      nothing and no more than that to the referrer, and none of its transfers there was recorded
      before or appears twice. */
  lemma {:induction false} PayoutTakenIff(l: Ledger, m: nat, r: Address, receipt: Option<Receipt>)
    ensures Objection(l, m, r, receipt).None? <==>
              && receipt.Some? && receipt.value.succeeded
              && 0 < MovedTo(receipt.value.logs, r) <= Owed(l.accruals, m, r)
              && NoneRecorded(receipt.value.logs, l.payouts, r) && NoneTwice(receipt.value.logs, r)
    ensures Objection(l, m, r, receipt).Some? ==> RecordPayout(l, m, r, receipt) == l
  {
    if receipt.Some? {
      var logs := receipt.value.logs;
      var at := PayingPicks(logs, r);
      MovedIsValues(logs, r);
      RecordedIs(logs, l.payouts, r, at);
      TwiceIs(logs, r, at);
    }
  }

  lemma RecordedIs(logs: seq<Log>, payouts: seq<Payout>, r: Address, at: seq<nat>)
    requires Picks(logs, r, at)
    ensures AnyRecorded(payouts, Paying(logs, r)) <==> !NoneRecorded(logs, payouts, r)
  {
    var paying := Paying(logs, r);
    if i, k :| 0 <= i < |logs| && ToReferrer(logs[i], r) && 0 <= k < |payouts| && payouts[k].tx == logs[i].tx && payouts[k].logIndex == logs[i].logIndex {
      var p :| 0 <= p < |at| && at[p] == i;
      assert IsRecorded(payouts, paying[p]);
    }
    if p :| 0 <= p < |paying| && IsRecorded(payouts, paying[p]) {
      assert ToReferrer(logs[at[p]], r);
    }
  }

  lemma TwiceIs(logs: seq<Log>, r: Address, at: seq<nat>)
    requires Picks(logs, r, at)
    ensures Repeats(Paying(logs, r)) <==> !NoneTwice(logs, r)
  {
    var paying := Paying(logs, r);
    if i, j :| 0 <= i < j < |logs| && ToReferrer(logs[i], r) && ToReferrer(logs[j], r) && logs[i].tx == logs[j].tx && logs[i].logIndex == logs[j].logIndex {
      var p :| 0 <= p < |at| && at[p] == i;
      var q :| 0 <= q < |at| && at[q] == j;
      assert paying[p] == logs[i] && paying[q] == logs[j] && p < q;
    }
    if p, q :| 0 <= p < q < |paying| && paying[p].tx == paying[q].tx && paying[p].logIndex == paying[q].logIndex {
      assert at[p] < at[q] && ToReferrer(logs[at[p]], r) && ToReferrer(logs[at[q]], r);
    }
  }

  // ------------------------------------------------------------ oldest first

  ghost predicate Outstands(a: Accrual, m: nat, r: Address) {
    a.merchant == m && a.referrer == r && a.standing == Accrued
  }

  /** What this payout spent on the first n rows. */
  ghost function SpentOn(before: seq<Accrual>, after: seq<Accrual>, m: nat, r: Address, n: nat): int
    requires n <= |before| == |after|
  {
    if n == 0 then 0
    else SpentOn(before, after, m, r, n - 1) + if Outstands(before[n - 1], m, r) && after[n - 1].standing == Paid then before[n - 1].amount else 0
  }

  lemma {:induction false} SpentSame(a: seq<Accrual>, b: seq<Accrual>, a': seq<Accrual>, b': seq<Accrual>, m: nat, r: Address, n: nat)
    requires n <= |a| == |b| && n <= |a'| == |b'| && a[..n] == a'[..n] && b[..n] == b'[..n]
    ensures SpentOn(a, b, m, r, n) == SpentOn(a', b', m, r, n)
  {
    if n > 0 {
      assert a[..n][n - 1] == a[n - 1] && a'[..n][n - 1] == a'[n - 1];
      assert b[..n][n - 1] == b[n - 1] && b'[..n][n - 1] == b'[n - 1];
      assert a[..n - 1] == a[..n][..n - 1] && a'[..n - 1] == a'[..n][..n - 1];
      assert b[..n - 1] == b[..n][..n - 1] && b'[..n - 1] == b'[..n][..n - 1];
      SpentSame(a, b, a', b', m, r, n - 1);
    }
  }

  ghost predicate OldestFirst(before: seq<Accrual>, after: seq<Accrual>, m: nat, r: Address, total: int, payout: nat) {
    && |after| == |before|
    && forall i :: 0 <= i < |before| ==>
         after[i] == if Outstands(before[i], m, r) && before[i].amount <= total - SpentOn(before, after, m, r, i)
                     then before[i].(standing := Paid, payout := Some(payout)) else before[i]
  }

  /** Each outstanding accrual of the pair, in the order they were written, is paid if and only if it
      fits in what the older ones left over, and no other row is touched. */
  lemma {:induction false} CoversOldestFirst(accruals: seq<Accrual>, m: nat, r: Address, total: int, payout: nat)
    ensures var (after, covered) := Cover(accruals, m, r, total, payout);
            OldestFirst(accruals, after, m, r, total, payout) && covered == SpentOn(accruals, after, m, r, |accruals|)
    decreases |accruals|
  {
    if accruals != [] {
      var n := |accruals| - 1;
      CoversOldestFirst(accruals[..n], m, r, total, payout);
      var (front, spent) := Cover(accruals[..n], m, r, total, payout);
      var fits := Outstands(accruals[n], m, r) && accruals[n].amount <= total - spent;
      OneMoreRow(accruals, front, if fits then accruals[n].(standing := Paid, payout := Some(payout)) else accruals[n], m, r, total, payout);
    }
  }

  lemma {:induction false} OneMoreRow(accruals: seq<Accrual>, front: seq<Accrual>, last: Accrual, m: nat, r: Address, total: int, payout: nat)
    requires accruals != [] && OldestFirst(accruals[..|accruals| - 1], front, m, r, total, payout)
    requires var a, spent := accruals[|accruals| - 1], SpentOn(accruals[..|accruals| - 1], front, m, r, |accruals| - 1);
             last == if Outstands(a, m, r) && a.amount <= total - spent then a.(standing := Paid, payout := Some(payout)) else a
    ensures OldestFirst(accruals, front + [last], m, r, total, payout)
    ensures SpentOn(accruals, front + [last], m, r, |accruals|)
         == SpentOn(accruals[..|accruals| - 1], front, m, r, |accruals| - 1) + if last != accruals[|accruals| - 1] then last.amount else 0
  {
    var n := |accruals| - 1;
    var after := front + [last];
    forall i | 0 <= i <= n
      ensures SpentOn(accruals, after, m, r, i) == SpentOn(accruals[..n], front, m, r, i)
    {
      assert accruals[..n][..i] == accruals[..i] && front[..i] == after[..i];
      SpentSame(accruals, after, accruals[..n], front, m, r, i);
    }
    forall i | 0 <= i < n
      ensures after[i] == front[i] && accruals[..n][i] == accruals[i]
    {
    }
  }

  /** So a payout that is taken appends one row for each of its transfers, in order, and pays oldest
      first with their sum. */
  lemma {:induction false} PayoutOutcome(l: Ledger, m: nat, r: Address, receipt: Option<Receipt>) returns (at: seq<nat>)
    requires Objection(l, m, r, receipt).None?
    ensures Picks(receipt.value.logs, r, at)
    ensures var logs, l' := receipt.value.logs, RecordPayout(l, m, r, receipt);
            && OldestFirst(l.accruals, l'.accruals, m, r, MovedTo(logs, r), |l.payouts|)
            && |l'.payouts| == |l.payouts| + |at| && l.payouts <= l'.payouts
            && forall k :: 0 <= k < |at| ==>
                 l'.payouts[|l.payouts| + k] == Payout(m, r, logs[at[k]].tx, logs[at[k]].logIndex, logs[at[k]].value)
  {
    at := PayingPicks(receipt.value.logs, r);
    MovedIsValues(receipt.value.logs, r);
    CoversOldestFirst(l.accruals, m, r, MovedTo(receipt.value.logs, r), |l.payouts|);
  }
}
