/** The job cores as the program they are: check, verify by walking the receipt's logs, then move
    the row. An action nothing interrupts is its two halves in a row. */
module EscrowService {
  import opened Prelude
  import opened EscrowJobs

  lemma {:induction false} MatchingSnoc(logs: seq<Log>, i: nat, sender: Address, to: Address)
    requires i < |logs|
    ensures Matching(logs[..i + 1], sender, to) ==
            if Matches(logs[i], sender, to) then Matching(logs[..i], sender, to) + [logs[i]] else Matching(logs[..i], sender, to)
  {
    assert logs[..i + 1][..i] == logs[..i];
  }

  lemma {:induction false} MatchingPrefix(logs: seq<Log>, i: nat, sender: Address, to: Address)
    requires i <= |logs|
    ensures Matching(logs[..i], sender, to) <= Matching(logs, sender, to)
    decreases |logs|
  {
    if i < |logs| {
      var front := logs[..|logs| - 1];
      assert logs[..i] == front[..i];
      MatchingPrefix(front, i, sender, to);
    } else {
      assert logs[..i] == logs;
    }
  }

  lemma {:induction false} SumSnoc(logs: seq<Log>, log: Log)
    ensures Sum(logs + [log]) == Sum(logs) + log.value
  {
    assert (logs + [log])[..|logs|] == logs;
  }

  /** The rows after an action that nothing interrupted. */
  function Acted(s: State, j: nat, caller: Address, a: Action): map<nat, Job> {
    if Objection(s, j, caller, a).Some? then s.jobs
    else s.jobs[j := Moved(s.jobs[j], Call(j, caller, a, Check(s.jobs[j], s.payTo[s.jobs[j].store], s.chain, a).block))]
  }

  /** With no other call in flight, beginning and committing is acting, and never loses. */
  lemma {:induction false} BothHalves(s: State, j: nat, caller: Address, a: Action)
    requires Inv(s) && s.calls == map[] && ValidBudget(a) && Objection(s, j, caller, a).None?
    ensures Apply(Apply(s, Begin(0, j, caller, a)), Commit(0)).jobs == Acted(s, j, caller, a)
    ensures Inv(s.(jobs := Acted(s, j, caller, a)))
  {
    var mid := Apply(s, Begin(0, j, caller, a));
    StepOk(s, Begin(0, j, caller, a));
    StepOk(mid, Commit(0));
    assert Wins(mid.jobs, mid.calls[0]);
    var end := Apply(mid, Commit(0));
    assert mid.calls - {0} == map[];
    assert end == s.(jobs := Acted(s, j, caller, a));
  }

  class Desk {
    var jobs: map<nat, Job>
    var payTo: map<nat, Address>
    var chain: map<Hash, Receipt>

    constructor (wallets: map<nat, Address>)
      ensures View() == Start(wallets) && Valid()
    {
      jobs := map[];
      payTo := wallets;
      chain := map[];
    }

    function View(): State
      reads this
    {
      State(jobs, payTo, chain, map[])
    }

    ghost predicate Valid()
      reads this
    {
      Inv(View())
    }

    /** Walks the receipt once; a log before the floor ends the walk. */
    method VerifyTransfer(tx: Hash, sender: Address, to: Address, amount: int, floor: Option<nat>) returns (v: Verdict)
      ensures v == Verify(Find(chain, tx), sender, to, amount, floor)
      ensures v.Landed? ==> tx in chain && Moves(chain[tx], sender, to, amount, floor.GetOr(0))
    {
      if tx !in chain {
        return Rejected(TxNotFound);
      }
      var receipt := chain[tx];
      if !receipt.succeeded {
        return Rejected(TxReverted);
      }
      var total, block: Option<nat> := 0, None;
      ghost var logs := [];
      for i := 0 to |receipt.logs|
        invariant logs == Matching(receipt.logs[..i], sender, to) && total == Sum(logs) && !AnyBefore(logs, floor)
        invariant block == if logs == [] then None else Some(Last(logs).block)
      {
        MatchingSnoc(receipt.logs, i, sender, to);
        var log := receipt.logs[i];
        if log.usdt && log.transfer && log.sender == sender && log.to == to {
          if floor.Some? && log.block < floor.value {
            MatchingPrefix(receipt.logs, i + 1, sender, to);
            assert Matching(receipt.logs, sender, to)[|logs|] == log;
            return Rejected(Predates);
          }
          SumSnoc(logs, log);
          logs := logs + [log];
          total, block := total + log.value, Some(log.block);
        }
      }
      assert receipt.logs[..|receipt.logs|] == receipt.logs;
      if block.None? {
        return Rejected(NoMatch);
      }
      if total != amount {
        return Rejected(WrongAmount);
      }
      return Landed(block.value);
    }

    /** The checks every core starts with. */
    method Admit(j: nat, caller: Address, a: Action) returns (refusal: Option<Refusal>)
      ensures refusal == if j !in jobs || jobs[j].store !in payTo then Some(JobNotFound)
                         else if !May(jobs[j], payTo[jobs[j].store], caller, a) then Some(WrongParty)
                         else if jobs[j].status !in From(a) then Some(WrongStatus)
                         else if Reused(jobs, a) then Some(TxReused)
                         else None
    {
      if j !in jobs || jobs[j].store !in payTo {
        return Some(JobNotFound);
      }
      if !May(jobs[j], payTo[jobs[j].store], caller, a) {
        return Some(WrongParty);
      }
      if jobs[j].status !in From(a) {
        return Some(WrongStatus);
      }
      return if Reused(jobs, a) then Some(TxReused) else None;
    }

    method FundCore(j: nat, caller: Address, tx: Hash) returns (refusal: Option<Refusal>)
      requires Valid()
      modifies this`jobs
      ensures Valid() && refusal == old(Objection(View(), j, caller, Fund(tx))) && jobs == old(Acted(View(), j, caller, Fund(tx)))
    {
      refusal := Admit(j, caller, Fund(tx));
      if refusal.Some? {
        return;
      }
      var job := jobs[j];
      var v := VerifyTransfer(tx, job.buyer, job.escrow, job.budget, None);
      if v.Rejected? {
        return Some(Unverified(v.reason));
      }
      BothHalves(View(), j, caller, Fund(tx));
      jobs := jobs[j := job.(status := Funded, fundedTx := Some(tx), fundedBlock := v.block)];
    }

    method ReleaseCore(j: nat, caller: Address, tx: Hash) returns (refusal: Option<Refusal>)
      requires Valid()
      modifies this`jobs
      ensures Valid() && refusal == old(Objection(View(), j, caller, Release(tx))) && jobs == old(Acted(View(), j, caller, Release(tx)))
    {
      refusal := Admit(j, caller, Release(tx));
      if refusal.Some? {
        return;
      }
      var job := jobs[j];
      var v := VerifyTransfer(tx, job.escrow, payTo[job.store], job.budget, Some(job.fundedBlock));
      if v.Rejected? {
        return Some(Unverified(v.reason));
      }
      BothHalves(View(), j, caller, Release(tx));
      jobs := jobs[j := job.(status := Completed, releasedTx := Some(tx))];
    }

    method BudgetCore(j: nat, caller: Address, budget: int, escrow: Address) returns (refusal: Option<Refusal>)
      requires Valid() && 0 < budget <= MAX_BUDGET_MICRO
      modifies this`jobs
      ensures Valid() && refusal == old(Objection(View(), j, caller, SetBudget(budget, escrow)))
      ensures jobs == old(Acted(View(), j, caller, SetBudget(budget, escrow)))
    {
      refusal := Admit(j, caller, SetBudget(budget, escrow));
      if refusal.Some? {
        return;
      }
      BothHalves(View(), j, caller, SetBudget(budget, escrow));
      jobs := jobs[j := jobs[j].(status := BudgetSet, budget := budget, escrow := escrow)];
    }

    method SubmitCore(j: nat, caller: Address, screened: bool) returns (refusal: Option<Refusal>)
      requires Valid()
      modifies this`jobs
      ensures Valid() && refusal == old(Objection(View(), j, caller, Submit(screened))) && jobs == old(Acted(View(), j, caller, Submit(screened)))
    {
      refusal := Admit(j, caller, Submit(screened));
      if refusal.Some? {
        return;
      }
      if !screened {
        return Some(Unscreened);
      }
      BothHalves(View(), j, caller, Submit(screened));
      jobs := jobs[j := jobs[j].(status := Submitted)];
    }

    /** Cancelling and disputing only change the status. */
    method StopCore(j: nat, caller: Address, a: Action) returns (refusal: Option<Refusal>)
      requires Valid() && (a.Cancel? || a.Dispute?)
      modifies this`jobs
      ensures Valid() && refusal == old(Objection(View(), j, caller, a)) && jobs == old(Acted(View(), j, caller, a))
    {
      refusal := Admit(j, caller, a);
      if refusal.Some? {
        return;
      }
      BothHalves(View(), j, caller, a);
      jobs := jobs[j := jobs[j].(status := if a.Cancel? then Cancelled else Disputed)];
    }
  }
}
