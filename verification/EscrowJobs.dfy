/** Commissioned jobs: a lifecycle whose two money steps are transfers the parties sign themselves
    and this code only verifies. Every action reads and verifies first and then moves the row with
    a conditional UPDATE, so two actions can interleave between those halves. */
module EscrowJobs {
  import opened Prelude

  const MAX_BUDGET_MICRO := 10_000_000_000

  datatype Status = Draft | BudgetSet | Funded | Submitted | Completed | Cancelled | Disputed

  datatype Job = Job(
    status: Status,
    buyer: Address,
    store: nat,
    evaluator: Option<Address>,
    budget: int,
    escrow: Address,
    fundedTx: Option<Hash>,
    fundedBlock: nat,
    releasedTx: Option<Hash>)

  datatype Log = Log(usdt: bool, transfer: bool, sender: Address, to: Address, value: nat, block: nat)

  datatype Receipt = Receipt(succeeded: bool, logs: seq<Log>)

  datatype Verdict = Landed(block: nat) | Rejected(reason: Rejection)

  datatype Rejection = TxNotFound | TxReverted | Predates | NoMatch | WrongAmount

  datatype Refusal = JobNotFound | WrongParty | WrongStatus | TxReused | Unverified(reason: Rejection) | Unscreened

  datatype Action =
    | SetBudget(budget: int, escrow: Address)
    | Fund(tx: Hash)
    | Submit(screened: bool)
    | Release(tx: Hash)
    | Cancel
    | Dispute

  /** An action that passed its checks and has not been written yet; block is what the deposit
      verification returned. */
  datatype Call = Call(job: nat, caller: Address, action: Action, block: nat)

  /** payTo is each store's receiving wallet; chain holds every final receipt. */
  datatype State = State(jobs: map<nat, Job>, payTo: map<nat, Address>, chain: map<Hash, Receipt>, calls: map<nat, Call>)

  datatype Event =
    | Mine(tx: Hash, receipt: Receipt)
    | Create(job: nat, buyer: Address, store: nat, evaluator: Option<Address>)
    | Begin(k: nat, job: nat, caller: Address, action: Action)
    | Commit(k: nat)

  // ------------------------------------------------------------ verifying a transfer

  predicate Matches(log: Log, sender: Address, to: Address) {
    log.usdt && log.transfer && log.sender == sender && log.to == to
  }

  function Matching(logs: seq<Log>, sender: Address, to: Address): seq<Log> {
    if logs == [] then []
    else
      var rest := Matching(logs[..|logs| - 1], sender, to);
      if Matches(logs[|logs| - 1], sender, to) then rest + [logs[|logs| - 1]] else rest
  }

  function Sum(logs: seq<Log>): nat {
    if logs == [] then 0 else Sum(logs[..|logs| - 1]) + logs[|logs| - 1].value
  }

  predicate AnyBefore(logs: seq<Log>, floor: Option<nat>) {
    floor.Some? && exists i :: 0 <= i < |logs| && logs[i].block < floor.value
  }

  function Verify(receipt: Option<Receipt>, sender: Address, to: Address, amount: int, floor: Option<nat>): Verdict {
    if receipt.None? then Rejected(TxNotFound)
    else if !receipt.value.succeeded then Rejected(TxReverted)
    else
      var logs := Matching(receipt.value.logs, sender, to);
      if AnyBefore(logs, floor) then Rejected(Predates)
      else if logs == [] then Rejected(NoMatch)
      else if Sum(logs) != amount then Rejected(WrongAmount)
      else Landed(logs[|logs| - 1].block)
  }

  /** The receipt moves exactly the amount between the two wallets, none of it before the floor. */
  ghost predicate Moves(receipt: Receipt, sender: Address, to: Address, amount: int, floor: nat) {
    var logs := Matching(receipt.logs, sender, to);
    receipt.succeeded && logs != [] && Sum(logs) == amount && forall i :: 0 <= i < |logs| ==> logs[i].block >= floor
  }

  // ------------------------------------------------------------ actions

  function From(a: Action): set<Status> {
    match a
    case SetBudget(_, _) => {Draft}
    case Fund(_) => {BudgetSet}
    case Submit(_) => {Funded}
    case Release(_) => {Submitted}
    case Cancel => {Draft, BudgetSet}
    case Dispute => {Funded, Submitted}
  }

  function To(a: Action): Status {
    match a
    case SetBudget(_, _) => BudgetSet
    case Fund(_) => Funded
    case Submit(_) => Submitted
    case Release(_) => Completed
    case Cancel => Cancelled
    case Dispute => Disputed
  }

  /** Who may take an action on a job of this provider. */
  predicate May(job: Job, provider: Address, caller: Address, a: Action) {
    match a
    case SetBudget(_, _) => caller == job.buyer
    case Fund(_) => caller == job.buyer
    case Submit(_) => caller == provider
    case Release(_) => caller == if job.evaluator.Some? then job.evaluator.value else job.buyer
    case Cancel => caller == job.buyer
    case Dispute => caller == job.buyer || caller == provider
  }

  predicate FundsSome(jobs: map<nat, Job>, tx: Hash) {
    exists j :: j in jobs && jobs[j].fundedTx == Some(tx)
  }

  predicate ReleasesSome(jobs: map<nat, Job>, tx: Hash) {
    exists j :: j in jobs && jobs[j].releasedTx == Some(tx)
  }

  predicate Reused(jobs: map<nat, Job>, a: Action) {
    match a
    case Fund(tx) => FundsSome(jobs, tx)
    case Release(tx) => ReleasesSome(jobs, tx)
    case _ => false
  }

  function Find(chain: map<Hash, Receipt>, tx: Hash): Option<Receipt> {
    if tx in chain then Some(chain[tx]) else None
  }

  function Check(job: Job, provider: Address, chain: map<Hash, Receipt>, a: Action): Verdict {
    match a
    case Fund(tx) => Verify(Find(chain, tx), job.buyer, job.escrow, job.budget, None)
    case Release(tx) => Verify(Find(chain, tx), job.escrow, provider, job.budget, Some(job.fundedBlock))
    case _ => Landed(0)
  }

  /** Why an action is refused before anything is written, in the order the checks are made. */
  function Objection(s: State, j: nat, caller: Address, a: Action): Option<Refusal> {
    if j !in s.jobs || s.jobs[j].store !in s.payTo then Some(JobNotFound)
    else
      var job, provider := s.jobs[j], s.payTo[s.jobs[j].store];
      if !May(job, provider, caller, a) then Some(WrongParty)
      else if job.status !in From(a) then Some(WrongStatus)
      else if Reused(s.jobs, a) then Some(TxReused)
      else if a.Submit? && !a.screened then Some(Unscreened)
      else match Check(job, provider, s.chain, a)
        case Rejected(reason) => Some(Unverified(reason))
        case Landed(_) => None
  }

  function Moved(job: Job, c: Call): Job {
    var moved := job.(status := To(c.action));
    match c.action
    case SetBudget(budget, escrow) => moved.(budget := budget, escrow := escrow)
    case Fund(tx) => moved.(fundedTx := Some(tx), fundedBlock := c.block)
    case Release(tx) => moved.(releasedTx := Some(tx))
    case _ => moved
  }

  /** Whether the conditional UPDATE moves the row; the unique indexes refuse a tx used meanwhile. */
  predicate Wins(jobs: map<nat, Job>, c: Call) {
    c.job in jobs && jobs[c.job].status in From(c.action) && !Reused(jobs, c.action)
  }

  predicate ValidBudget(a: Action) {
    a.SetBudget? ==> 0 < a.budget <= MAX_BUDGET_MICRO
  }

  predicate Enabled(s: State, e: Event) {
    match e
    case Mine(tx, _) => tx !in s.chain
    case Create(j, _, store, _) => j !in s.jobs && store in s.payTo
    case Begin(k, _, _, a) => k !in s.calls && ValidBudget(a)
    case Commit(k) => k in s.calls
  }

  function Apply(s: State, e: Event): State
    requires Enabled(s, e)
  {
    match e
    case Mine(tx, receipt) => s.(chain := s.chain[tx := receipt])
    case Create(j, buyer, store, evaluator) =>
      s.(jobs := s.jobs[j := Job(Draft, buyer, store, evaluator, 0, 0, None, 0, None)])
    case Begin(k, j, caller, a) =>
      if Objection(s, j, caller, a).Some? then s
      else s.(calls := s.calls[k := Call(j, caller, a, Check(s.jobs[j], s.payTo[s.jobs[j].store], s.chain, a).block)])
    case Commit(k) =>
      var c := s.calls[k];
      s.(calls := s.calls - {k}, jobs := if Wins(s.jobs, c) then s.jobs[c.job := Moved(s.jobs[c.job], c)] else s.jobs)
  }

  predicate Runs(s: State, es: seq<Event>)
    decreases |es|
  {
    es == [] || (Enabled(s, es[0]) && Runs(Apply(s, es[0]), es[1..]))
  }

  function After(s: State, es: seq<Event>): State
    requires Runs(s, es)
    decreases |es|
  {
    if es == [] then s else After(Apply(s, es[0]), es[1..])
  }

  function Start(payTo: map<nat, Address>): State {
    State(map[], payTo, map[], map[])
  }

  // ------------------------------------------------------------ the invariant

  ghost predicate Deposited(s: State, job: Job) {
    job.fundedTx.Some? && job.fundedTx.value in s.chain &&
    var receipt := s.chain[job.fundedTx.value];
    Moves(receipt, job.buyer, job.escrow, job.budget, 0) &&
    job.fundedBlock == Last(Matching(receipt.logs, job.buyer, job.escrow)).block
  }

  function Last(logs: seq<Log>): Log
    requires logs != []
  {
    logs[|logs| - 1]
  }

  ghost predicate ReleasedTo(s: State, job: Job) {
    job.store in s.payTo && job.releasedTx.Some? && job.releasedTx.value in s.chain &&
    Moves(s.chain[job.releasedTx.value], job.escrow, s.payTo[job.store], job.budget, job.fundedBlock)
  }

  ghost predicate JobOk(s: State, job: Job) {
    && (job.status == Draft <==> job.budget == 0 && job.status != Cancelled)
    && 0 <= job.budget <= MAX_BUDGET_MICRO
    && (job.fundedTx.Some? <==> job.status in {Funded, Submitted, Completed, Disputed})
    && (job.fundedTx.Some? ==> Deposited(s, job) && job.budget > 0)
    && (job.releasedTx.Some? <==> job.status == Completed)
    && (job.releasedTx.Some? ==> ReleasedTo(s, job))
  }

  /** What a call verified stays true as long as its row may still move: the fields it was
      verified against are only written once. */
  ghost predicate CallOk(s: State, c: Call) {
    && c.job in s.jobs && s.jobs[c.job].store in s.payTo && ValidBudget(c.action)
    && May(s.jobs[c.job], s.payTo[s.jobs[c.job].store], c.caller, c.action)
    && (c.action.Fund? && s.jobs[c.job].status == BudgetSet ==>
          Deposited(s, s.jobs[c.job].(fundedTx := Some(c.action.tx), fundedBlock := c.block)))
    && (c.action.Release? && s.jobs[c.job].status == Submitted ==>
          ReleasedTo(s, s.jobs[c.job].(releasedTx := Some(c.action.tx))))
    && Age(s.jobs[c.job].status) >= Age0(c.action)
  }

  /** How far along a status is; every action moves it forward. */
  function Age(s: Status): nat {
    match s
    case Draft => 0
    case BudgetSet => 1
    case Funded => 2
    case Submitted => 3
    case _ => 4
  }

  function Age0(a: Action): nat {
    match a
    case Fund(_) => 1
    case Submit(_) => 2
    case Release(_) => 3
    case Dispute => 2
    case _ => 0
  }

  ghost predicate TxUnique(jobs: map<nat, Job>) {
    forall i, j :: i in jobs && j in jobs && i != j ==>
      (jobs[i].fundedTx.Some? ==> jobs[i].fundedTx != jobs[j].fundedTx) &&
      (jobs[i].releasedTx.Some? ==> jobs[i].releasedTx != jobs[j].releasedTx)
  }

  ghost predicate Inv(s: State) {
    && (forall j :: j in s.jobs ==> JobOk(s, s.jobs[j]))
    && (forall k :: k in s.calls ==> CallOk(s, s.calls[k]))
    && TxUnique(s.jobs)
  }

  lemma {:induction false} VerifyOk(receipt: Option<Receipt>, sender: Address, to: Address, amount: int, floor: Option<nat>)
    requires Verify(receipt, sender, to, amount, floor).Landed?
    ensures receipt.Some? && Moves(receipt.value, sender, to, amount, floor.GetOr(0))
    ensures Verify(receipt, sender, to, amount, floor).block == Last(Matching(receipt.value.logs, sender, to)).block
  {
  }

  lemma {:induction false} MineOk(s: State, tx: Hash, receipt: Receipt)
    requires Inv(s) && tx !in s.chain
    ensures Inv(Apply(s, Mine(tx, receipt)))
  {
    var s' := Apply(s, Mine(tx, receipt));
    forall job: Job
      ensures Deposited(s, job) ==> Deposited(s', job)
      ensures ReleasedTo(s, job) ==> ReleasedTo(s', job)
    {
    }
    forall j | j in s'.jobs
      ensures JobOk(s', s'.jobs[j])
    {
      assert JobOk(s, s.jobs[j]);
    }
    forall k | k in s'.calls
      ensures CallOk(s', s'.calls[k])
    {
      assert CallOk(s, s.calls[k]);
    }
  }

  lemma {:induction false} BeginOk(s: State, k: nat, j: nat, caller: Address, a: Action)
    requires Inv(s) && Enabled(s, Begin(k, j, caller, a))
    ensures Inv(Apply(s, Begin(k, j, caller, a)))
  {
    if Objection(s, j, caller, a).None? {
      var job, provider := s.jobs[j], s.payTo[s.jobs[j].store];
      match a
      case Fund(tx) => VerifyOk(Find(s.chain, tx), job.buyer, job.escrow, job.budget, None);
      case Release(tx) => VerifyOk(Find(s.chain, tx), job.escrow, provider, job.budget, Some(job.fundedBlock));
      case _ =>
      CallJoins(s, k, Apply(s, Begin(k, j, caller, a)).calls[k]);
    }
  }

  lemma {:induction false} CallJoins(s: State, k: nat, c: Call)
    requires Inv(s) && CallOk(s, c)
    ensures Inv(s.(calls := s.calls[k := c]))
  {
    var s' := s.(calls := s.calls[k := c]);
    forall j | j in s'.jobs
      ensures JobOk(s', s'.jobs[j])
    {
      assert JobOk(s, s.jobs[j]);
    }
    forall i | i in s'.calls
      ensures CallOk(s', s'.calls[i])
    {
      assert CallOk(s, s'.calls[i]);
    }
  }

  /** The row another call is aimed at moved on: either it is out of reach, or nothing the call
      verified was touched. */
  lemma {:induction false} CallSurvives(s: State, c: Call, d: Call)
    requires CallOk(s, c) && CallOk(s, d) && JobOk(s, s.jobs[c.job]) && Wins(s.jobs, c)
    ensures CallOk(s.(jobs := s.jobs[c.job := Moved(s.jobs[c.job], c)]), d)
  {
  }

  lemma {:induction false} MovedOk(s: State, c: Call)
    requires CallOk(s, c) && JobOk(s, s.jobs[c.job]) && Wins(s.jobs, c)
    ensures JobOk(s, Moved(s.jobs[c.job], c))
    ensures Age(Moved(s.jobs[c.job], c).status) > Age(s.jobs[c.job].status)
  {
    var job := s.jobs[c.job];
    assert c.action.Fund? ==> Moved(job, c).(status := BudgetSet) == job.(fundedTx := Some(c.action.tx), fundedBlock := c.block);
    assert c.action.Release? ==> Moved(job, c).(status := Submitted) == job.(releasedTx := Some(c.action.tx));
  }

  lemma {:induction false} CommittedJobs(s: State, c: Call)
    requires Inv(s) && CallOk(s, c) && Wins(s.jobs, c)
    ensures var s' := s.(jobs := s.jobs[c.job := Moved(s.jobs[c.job], c)]);
            (forall j :: j in s'.jobs ==> JobOk(s', s'.jobs[j])) && TxUnique(s'.jobs)
  {
    MovedOk(s, c);
    var s' := s.(jobs := s.jobs[c.job := Moved(s.jobs[c.job], c)]);
    forall j | j in s'.jobs
      ensures JobOk(s', s'.jobs[j])
    {
      assert j != c.job ==> JobOk(s, s.jobs[j]);
      assert JobOk(s, s'.jobs[j]);
    }
  }

  lemma {:induction false} FinishCall(s: State, k: nat)
    requires Inv(s)
    ensures Inv(s.(calls := s.calls - {k}))
  {
    var s' := s.(calls := s.calls - {k});
    forall j | j in s'.jobs
      ensures JobOk(s', s'.jobs[j])
    {
      assert JobOk(s, s.jobs[j]);
    }
    forall i | i in s'.calls
      ensures CallOk(s', s'.calls[i])
    {
      assert CallOk(s, s.calls[i]);
    }
  }

  lemma {:induction false} WinOk(s: State, c: Call)
    requires Inv(s) && CallOk(s, c) && Wins(s.jobs, c)
    ensures Inv(s.(jobs := s.jobs[c.job := Moved(s.jobs[c.job], c)]))
  {
    CommittedJobs(s, c);
    var s' := s.(jobs := s.jobs[c.job := Moved(s.jobs[c.job], c)]);
    forall i | i in s'.calls
      ensures CallOk(s', s'.calls[i])
    {
      CallSurvives(s, c, s.calls[i]);
    }
  }

  lemma {:induction false} CommitOk(s: State, k: nat)
    requires Inv(s) && Enabled(s, Commit(k))
    ensures Inv(Apply(s, Commit(k)))
  {
    var c := s.calls[k];
    if Wins(s.jobs, c) {
      WinOk(s, c);
      FinishCall(s.(jobs := s.jobs[c.job := Moved(s.jobs[c.job], c)]), k);
    } else {
      FinishCall(s, k);
    }
  }

  lemma {:induction false} CreateOk(s: State, e: Event)
    requires Inv(s) && e.Create? && Enabled(s, e)
    ensures Inv(Apply(s, e))
  {
    var s' := Apply(s, e);
    forall j | j in s'.jobs
      ensures JobOk(s', s'.jobs[j])
    {
      assert j != e.job ==> JobOk(s, s.jobs[j]);
    }
    forall i | i in s'.calls
      ensures CallOk(s', s'.calls[i])
    {
      assert CallOk(s, s.calls[i]);
    }
  }

  lemma {:induction false} StepOk(s: State, e: Event)
    requires Inv(s) && Enabled(s, e)
    ensures Inv(Apply(s, e))
  {
    match e
    case Mine(tx, receipt) => MineOk(s, tx, receipt);
    case Create(_, _, _, _) => CreateOk(s, e);
    case Begin(k, j, caller, a) => BeginOk(s, k, j, caller, a);
    case Commit(k) => CommitOk(s, k);
  }

  lemma {:induction false} RunOk(s: State, es: seq<Event>)
    requires Inv(s) && Runs(s, es)
    ensures Inv(After(s, es))
    decreases |es|
  {
    if es != [] {
      StepOk(s, es[0]);
      RunOk(Apply(s, es[0]), es[1..]);
    }
  }

  // ------------------------------------------------------------ what it promises

  /** In every reachable state a completed job carries a deposit from its buyer to its escrow and a
      release from there to its provider, each summing to exactly its budget, the release no
      earlier than the deposit, and its two transactions serve no other job in the same role. */
  lemma CompletedIsPaidThrough(payTo: map<nat, Address>, es: seq<Event>, j: nat)
    requires Runs(Start(payTo), es) && j in After(Start(payTo), es).jobs
    requires After(Start(payTo), es).jobs[j].status == Completed
    ensures var s := After(Start(payTo), es);
            var job := s.jobs[j];
            && job.fundedTx.Some? && job.fundedTx.value in s.chain && job.releasedTx.Some? && job.releasedTx.value in s.chain
            && job.store in s.payTo && 0 < job.budget <= MAX_BUDGET_MICRO
            && Moves(s.chain[job.fundedTx.value], job.buyer, job.escrow, job.budget, 0)
            && Moves(s.chain[job.releasedTx.value], job.escrow, s.payTo[job.store], job.budget, job.fundedBlock)
            && job.fundedBlock == Last(Matching(s.chain[job.fundedTx.value].logs, job.buyer, job.escrow)).block
            && (forall i :: i in s.jobs && i != j ==> s.jobs[i].fundedTx != job.fundedTx && s.jobs[i].releasedTx != job.releasedTx)
  {
    RunOk(Start(payTo), es);
    assert JobOk(After(Start(payTo), es), After(Start(payTo), es).jobs[j]);
  }

  /** Money in escrow is never cancelled away: a job with a deposit is funded, submitted,
      completed or disputed, and a cancelled job never had one. */
  lemma FundedIsNeverCancelled(payTo: map<nat, Address>, es: seq<Event>, j: nat)
    requires Runs(Start(payTo), es) && j in After(Start(payTo), es).jobs
    ensures var job := After(Start(payTo), es).jobs[j];
            && (job.fundedTx.Some? <==> job.status in {Funded, Submitted, Completed, Disputed})
            && (job.releasedTx.Some? <==> job.status == Completed)
            && (job.status == Cancelled ==> job.fundedTx.None? && job.releasedTx.None?)
  {
    RunOk(Start(payTo), es);
    assert JobOk(After(Start(payTo), es), After(Start(payTo), es).jobs[j]);
  }

  ghost predicate Evolves(a: Job, b: Job) {
    && b.buyer == a.buyer && b.store == a.store && b.evaluator == a.evaluator
    && (a.status != Draft ==> b.budget == a.budget && b.escrow == a.escrow)
    && (a.fundedTx.Some? ==> b.fundedTx == a.fundedTx && b.fundedBlock == a.fundedBlock)
    && (a.releasedTx.Some? ==> b.releasedTx == a.releasedTx)
    && (b == a || Age(b.status) > Age(a.status))
  }

  /** Rows only move forward, what was verified against is immutable, the final states are
      absorbing, and every move is the commit of an action that its caller was entitled to. */
  lemma {:induction false} StepsAreAuthorised(s: State, e: Event, j: nat)
    requires Inv(s) && Enabled(s, e) && j in s.jobs
    ensures j in Apply(s, e).jobs && Evolves(s.jobs[j], Apply(s, e).jobs[j])
    ensures Apply(s, e).jobs[j] != s.jobs[j] ==>
              && e.Commit? && s.calls[e.k].job == j && s.jobs[j].store in s.payTo
              && May(s.jobs[j], s.payTo[s.jobs[j].store], s.calls[e.k].caller, s.calls[e.k].action)
              && s.jobs[j].status in From(s.calls[e.k].action) && Apply(s, e).jobs[j].status == To(s.calls[e.k].action)
  {
    assert JobOk(s, s.jobs[j]);
    if e.Commit? {
      var c := s.calls[e.k];
      assert CallOk(s, c);
      if Wins(s.jobs, c) {
        MovedOk(s, c);
      }
    }
  }

  lemma {:induction false} RunEvolves(s: State, es: seq<Event>, j: nat)
    requires Inv(s) && Runs(s, es) && j in s.jobs
    ensures j in After(s, es).jobs && Age(After(s, es).jobs[j].status) >= Age(s.jobs[j].status)
    ensures Age(s.jobs[j].status) == 4 ==> After(s, es).jobs[j] == s.jobs[j]
    decreases |es|
  {
    if es != [] {
      StepsAreAuthorised(s, es[0], j);
      StepOk(s, es[0]);
      RunEvolves(Apply(s, es[0]), es[1..], j);
    }
  }

  /** The action needs the row in a status that comes before the one another action leads to. */
  predicate Outrun(later: Action, winner: Action) {
    forall from :: from in From(later) ==> Age(from) < Age(To(winner))
  }

  /** However many callers passed their checks on the same job, once one of them has moved the row
      no action that needed an earlier status can ever move it: not the same action again, not a
      deposit after a cancel, not a cancel after a deposit, nor a dispute after a release. */
  lemma {:induction false} OneWinner(s: State, k: nat, d: Call, es: seq<Event>)
    requires Inv(s) && k in s.calls && Wins(s.jobs, s.calls[k])
    requires d.job == s.calls[k].job && Outrun(d.action, s.calls[k].action)
    requires Runs(Apply(s, Commit(k)), es)
    ensures !Wins(After(Apply(s, Commit(k)), es).jobs, d)
  {
    var j := s.calls[k].job;
    MovedOk(s, s.calls[k]);
    StepOk(s, Commit(k));
    RunEvolves(Apply(s, Commit(k)), es, j);
  }
}
