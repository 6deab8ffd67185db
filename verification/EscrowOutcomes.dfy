/** Which escrow actions are taken and what each writes, told from the job, the parties and the receipt. */
module EscrowOutcomes {
  import opened Prelude
  import opened EscrowJobs
  import opened EscrowService

  // ------------------------------------------------------------ a transfer between two wallets

  ghost predicate Between(log: Log, sender: Address, to: Address) {
    log.usdt && log.transfer && log.sender == sender && log.to == to
  }

  ghost function MovedBetween(logs: seq<Log>, sender: Address, to: Address): int {
    if logs == [] then 0 else (if Between(logs[0], sender, to) then logs[0].value else 0) + MovedBetween(logs[1..], sender, to)
  }

  ghost predicate SomeBetween(logs: seq<Log>, sender: Address, to: Address) {
    exists i :: 0 <= i < |logs| && Between(logs[i], sender, to)
  }

  ghost predicate NoneBefore(logs: seq<Log>, sender: Address, to: Address, floor: nat) {
    forall i :: 0 <= i < |logs| && Between(logs[i], sender, to) ==> logs[i].block >= floor
  }

  /** The receipt of a transaction that moved exactly this amount from one wallet to the other, none of
      it before the floor. */
  ghost predicate Transferred(receipt: Option<Receipt>, sender: Address, to: Address, amount: int, floor: nat) {
    && receipt.Some? && receipt.value.succeeded
    && SomeBetween(receipt.value.logs, sender, to) && NoneBefore(receipt.value.logs, sender, to, floor)
    && MovedBetween(receipt.value.logs, sender, to) == amount
  }

  lemma {:induction false} MovedSnoc(logs: seq<Log>, log: Log, sender: Address, to: Address)
    ensures MovedBetween(logs + [log], sender, to) == MovedBetween(logs, sender, to) + if Between(log, sender, to) then log.value else 0
  {
    if logs == [] {
      assert logs + [log] == [log];
    } else {
      assert (logs + [log])[1..] == logs[1..] + [log];
      MovedSnoc(logs[1..], log, sender, to);
    }
  }

  /** The logs between the two wallets, each from its place in the receipt, and none left out. */
  lemma {:induction false} MatchingIs(logs: seq<Log>, sender: Address, to: Address)
    ensures var matching := Matching(logs, sender, to);
            && Sum(matching) == MovedBetween(logs, sender, to)
            && (forall k :: 0 <= k < |matching| ==> matching[k] in logs && Between(matching[k], sender, to))
            && (forall i :: 0 <= i < |logs| && Between(logs[i], sender, to) ==> logs[i] in matching)
    decreases |logs|
  {
    if logs != [] {
      var front, log := logs[..|logs| - 1], logs[|logs| - 1];
      assert logs == front + [log];
      MatchingIs(front, sender, to);
      MovedSnoc(front, log, sender, to);
      SumSnoc(Matching(front, sender, to), log);
      forall i | 0 <= i < |logs| && Between(logs[i], sender, to)
        ensures logs[i] in Matching(logs, sender, to)
      {
        if i < |front| {
          assert front[i] == logs[i];
        }
      }
    }
  }

  /** The last log between the two wallets. */
  ghost predicate LastBetween(logs: seq<Log>, sender: Address, to: Address, i: nat) {
    i < |logs| && Between(logs[i], sender, to) && forall j :: i < j < |logs| ==> !Between(logs[j], sender, to)
  }

  lemma {:induction false} LastMatching(logs: seq<Log>, sender: Address, to: Address, i: nat)
    requires LastBetween(logs, sender, to, i)
    ensures var matching := Matching(logs, sender, to); matching != [] && matching[|matching| - 1] == logs[i]
    decreases |logs|
  {
    var n := |logs| - 1;
    if i < n {
      LastMatching(logs[..n], sender, to, i);
    }
  }

  /** A transfer is verified exactly when it moved the amount; and each way it can fail is named, in
      the order the conditions are looked at. */
  lemma {:induction false} VerifiedIff(receipt: Option<Receipt>, sender: Address, to: Address, amount: int, floor: Option<nat>)
    ensures var verdict := Verify(receipt, sender, to, amount, floor);
            && (verdict.Landed? <==> Transferred(receipt, sender, to, amount, floor.GetOr(0)))
            && (receipt.None? ==> verdict == Rejected(TxNotFound))
            && (receipt.Some? && !receipt.value.succeeded ==> verdict == Rejected(TxReverted))
            && (receipt.Some? && receipt.value.succeeded ==>
                  var logs := receipt.value.logs;
                  && (!NoneBefore(logs, sender, to, floor.GetOr(0)) ==> verdict == Rejected(Predates))
                  && (!SomeBetween(logs, sender, to) ==> verdict == Rejected(NoMatch))
                  && (SomeBetween(logs, sender, to) && NoneBefore(logs, sender, to, floor.GetOr(0)) ==>
                        MovedBetween(logs, sender, to) != amount ==> verdict == Rejected(WrongAmount)))
  {
    if receipt.Some? {
      var logs := receipt.value.logs;
      var matching := Matching(logs, sender, to);
      MatchingIs(logs, sender, to);
      if matching != [] {
        var i :| 0 <= i < |logs| && logs[i] == matching[0];
      }
      if floor.Some? {
        BeforeIs(logs, sender, to, floor.value);
      }
    }
  }

  lemma {:induction false} BeforeIs(logs: seq<Log>, sender: Address, to: Address, floor: nat)
    ensures AnyBefore(Matching(logs, sender, to), Some(floor)) <==> !NoneBefore(logs, sender, to, floor)
  {
    var matching := Matching(logs, sender, to);
    MatchingIs(logs, sender, to);
    if k :| 0 <= k < |matching| && matching[k].block < floor {
      var i :| 0 <= i < |logs| && logs[i] == matching[k];
    }
    if i :| 0 <= i < |logs| && Between(logs[i], sender, to) && logs[i].block < floor {
      var k :| 0 <= k < |matching| && matching[k] == logs[i];
    }
  }

  // ------------------------------------------------------------ actions

  ghost predicate Funds(s: State, tx: Hash) {
    exists j :: j in s.jobs && s.jobs[j].fundedTx == Some(tx)
  }

  ghost predicate Releases(s: State, tx: Hash) {
    exists j :: j in s.jobs && s.jobs[j].releasedTx == Some(tx)
  }

  ghost function ReceiptIn(s: State, tx: Hash): Option<Receipt> {
    if tx in s.chain then Some(s.chain[tx]) else None
  }

  /** The action is the caller's to take, on a job in the right state, and its transfer, if it needs
      one, happened and serves no other job. */
  ghost predicate Allowed(s: State, j: nat, caller: Address, a: Action) {
    j in s.jobs && s.jobs[j].store in s.payTo &&
    var job, provider := s.jobs[j], s.payTo[s.jobs[j].store];
    match a
    case SetBudget(_, _) => caller == job.buyer && job.status == Draft
    case Fund(tx) =>
      && caller == job.buyer && job.status == BudgetSet && !Funds(s, tx)
      && Transferred(ReceiptIn(s, tx), job.buyer, job.escrow, job.budget, 0)
    case Submit(screened) => caller == provider && job.status == Funded && screened
    case Release(tx) =>
      && (if job.evaluator.Some? then caller == job.evaluator.value else caller == job.buyer)
      && job.status == Submitted && !Releases(s, tx)
      && Transferred(ReceiptIn(s, tx), job.escrow, provider, job.budget, job.fundedBlock)
    case Cancel => caller == job.buyer && (job.status == Draft || job.status == BudgetSet)
    case Dispute => (caller == job.buyer || caller == provider) && (job.status == Funded || job.status == Submitted)
  }

  /** The job as the action leaves it; a deposit notes the block of its last transfer. */
  ghost predicate WrittenJob(s: State, before: Job, after: Job, a: Action) {
    match a
    case SetBudget(budget, escrow) => after == before.(status := BudgetSet, budget := budget, escrow := escrow)
    case Fund(tx) =>
      && after == before.(status := Funded, fundedTx := Some(tx), fundedBlock := after.fundedBlock)
      && forall i: nat :: tx in s.chain && LastBetween(s.chain[tx].logs, before.buyer, before.escrow, i) ==>
           after.fundedBlock == s.chain[tx].logs[i].block
    case Submit(_) => after == before.(status := Submitted)
    case Release(tx) => after == before.(status := Completed, releasedTx := Some(tx))
    case Cancel => after == before.(status := Cancelled)
    case Dispute => after == before.(status := Disputed)
  }

  lemma CheckIs(s: State, j: nat, caller: Address, a: Action)
    requires j in s.jobs && s.jobs[j].store in s.payTo
    ensures var job, provider := s.jobs[j], s.payTo[s.jobs[j].store];
            Check(job, provider, s.chain, a).Landed? <==>
              match a
              case Fund(tx) => Transferred(ReceiptIn(s, tx), job.buyer, job.escrow, job.budget, 0)
              case Release(tx) => Transferred(ReceiptIn(s, tx), job.escrow, provider, job.budget, job.fundedBlock)
              case _ => true
  {
    var job, provider := s.jobs[j], s.payTo[s.jobs[j].store];
    match a
    case Fund(tx) => VerifiedIff(ReceiptIn(s, tx), job.buyer, job.escrow, job.budget, None);
    case Release(tx) => VerifiedIff(ReceiptIn(s, tx), job.escrow, provider, job.budget, Some(job.fundedBlock));
    case _ =>
  }

  lemma {:induction false} ReuseIs(s: State, a: Action)
    ensures a.Fund? ==> (Reused(s.jobs, a) <==> Funds(s, a.tx))
    ensures a.Release? ==> (Reused(s.jobs, a) <==> Releases(s, a.tx))
    ensures !a.Fund? && !a.Release? ==> !Reused(s.jobs, a)
  {
  }

  /** An action nothing interrupts is taken if and only if it is allowed, writes its own job as it
      should, and no other; one that is not allowed changes nothing. */
  lemma {:induction false} ActionOutcome(s: State, j: nat, caller: Address, a: Action)
    ensures Objection(s, j, caller, a).None? <==> Allowed(s, j, caller, a)
    ensures Allowed(s, j, caller, a) ==>
              var after := Acted(s, j, caller, a);
              && j in after && WrittenJob(s, s.jobs[j], after[j], a)
              && after.Keys == s.jobs.Keys && forall i :: i in s.jobs && i != j ==> after[i] == s.jobs[i]
    ensures !Allowed(s, j, caller, a) ==> Acted(s, j, caller, a) == s.jobs
  {
    if j in s.jobs && s.jobs[j].store in s.payTo {
      CheckIs(s, j, caller, a);
      ReuseIs(s, a);
      if a.Fund? && Allowed(s, j, caller, a) {
        DepositBlock(s, j, a.tx);
      }
    }
  }

  lemma DepositBlock(s: State, j: nat, tx: Hash)
    requires j in s.jobs && s.jobs[j].store in s.payTo && Check(s.jobs[j], s.payTo[s.jobs[j].store], s.chain, Fund(tx)).Landed?
    ensures forall i: nat :: tx in s.chain && LastBetween(s.chain[tx].logs, s.jobs[j].buyer, s.jobs[j].escrow, i) ==>
              Check(s.jobs[j], s.payTo[s.jobs[j].store], s.chain, Fund(tx)).block == s.chain[tx].logs[i].block
  {
    forall i: nat | tx in s.chain && LastBetween(s.chain[tx].logs, s.jobs[j].buyer, s.jobs[j].escrow, i)
      ensures Check(s.jobs[j], s.payTo[s.jobs[j].store], s.chain, Fund(tx)).block == s.chain[tx].logs[i].block
    {
      LastMatching(s.chain[tx].logs, s.jobs[j].buyer, s.jobs[j].escrow, i);
    }
  }

  /** What each refusal says, in the order the checks are made. */
  lemma {:induction false} Refusals(s: State, j: nat, caller: Address, a: Action)
    ensures var objection := Objection(s, j, caller, a);
            if j !in s.jobs || s.jobs[j].store !in s.payTo then objection == Some(JobNotFound)
            else
              var job, provider := s.jobs[j], s.payTo[s.jobs[j].store];
              var party := match a
                           case Submit(_) => caller == provider
                           case Release(_) => if job.evaluator.Some? then caller == job.evaluator.value else caller == job.buyer
                           case Dispute => caller == job.buyer || caller == provider
                           case _ => caller == job.buyer;
              && (!party ==> objection == Some(WrongParty))
              && (party && !InTime(job.status, a) ==> objection == Some(WrongStatus))
              && (party && InTime(job.status, a) ==>
                    && (a.Fund? && Funds(s, a.tx) ==> objection == Some(TxReused))
                    && (a.Release? && Releases(s, a.tx) ==> objection == Some(TxReused))
                    && (a.Submit? && !a.screened ==> objection == Some(Unscreened)))
  {
    ReuseIs(s, a);
  }

  /** The one status, or two, in which each action makes sense. */
  ghost predicate InTime(status: Status, a: Action) {
    match a
    case SetBudget(_, _) => status == Draft
    case Fund(_) => status == BudgetSet
    case Submit(_) => status == Funded
    case Release(_) => status == Submitted
    case Cancel => status == Draft || status == BudgetSet
    case Dispute => status == Funded || status == Submitted
  }
}
