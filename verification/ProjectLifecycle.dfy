/** When the status of a project moves, what completion ends, and why an instruction is refused. */
module ProjectLifecycle {
  import opened Types
  import opened Accumulator
  import opened Settlement
  import opened Project
  import opened ProjectTheorems

  // ---------- Creation ----------

  /** A project needs a submitted baseline, a positive target and a term of 6 to 60 months. */
  lemma CreatedIff(target: u64, termMonths: nat, baselineSubmitted: bool)
    ensures CreateProject(target, termMonths, baselineSubmitted).Ok? <==>
            baselineSubmitted && 0 < target && 6 <= termMonths <= 60
    ensures CreateProject(target, termMonths, baselineSubmitted) == Err(MrvBaselineMissing) <==> !baselineSubmitted
    ensures CreateProject(target, termMonths, baselineSubmitted) == Err(InvalidTargetAmount) <==>
            baselineSubmitted && target == 0
    ensures CreateProject(target, termMonths, baselineSubmitted) == Err(InvalidTermMonths) <==>
            baselineSubmitted && 0 < target && (termMonths < 6 || 60 < termMonths)
    ensures CreateProject(target, termMonths, baselineSubmitted).Ok? ==>
              CreateProject(target, termMonths, baselineSubmitted).value
              == State(Vault(target, 0, 0, 0, map[], 0, 0), Funding, 0)
  {
  }

  // ---------- The status ----------

  /** The statuses in which an instruction can succeed. */
  predicate Admits(s: Status, i: Instruction) {
    match i
    case BuyProjectTokens(_, _, _) => s == Funding
    case WithdrawInvestment(_, _) => s == Funding
    case ActivateProject => s == Funding
    case DistributeRepayment(_, _) => s == Active || s == Repaying
    case CloseProject => s == Active || s == Repaying
    case _ => true
  }

  /** The status that a successful instruction leaves. */
  function StatusAfter(s: Status, i: Instruction): Status {
    match i
    case ActivateProject => Active
    case DistributeRepayment(_, _) => Repaying
    case CloseProject => Completed
    case _ => s
  }

  /** The whole transition table: three instructions move the status, all others keep it. */
  lemma TransitionTable(feeBps: u16, target: u64, txs: seq<Instruction>, i: Instruction)
    requires feeBps <= MAX_FEE_BPS
    requires Exec(feeBps, Life(feeBps, target, txs).state, i).Ok?
    ensures var p := Life(feeBps, target, txs).state; var q := Life(feeBps, target, txs + [i]).state;
            && Admits(p.status, i)
            && q.status == StatusAfter(p.status, i)
            && (p.status == Funding && q.status != Funding <==> i.ActivateProject?)
            && (q.fee != p.fee ==> i.ActivateProject?)
  {
    LifeInv(feeBps, target, txs);
    RunLast(feeBps, Recorded(NewProject(target), NO_HISTORY), txs, i,
      Exec(feeBps, Life(feeBps, target, txs).state, i).value);
    ExecStatus(feeBps, Life(feeBps, target, txs).state, i);
  }

  lemma ExecStatus(feeBps: u16, p: State, i: Instruction)
    requires p.status != Cancelled && Exec(feeBps, p, i).Ok?
    ensures Admits(p.status, i)
    ensures Exec(feeBps, p, i).value.status == StatusAfter(p.status, i)
    ensures !i.ActivateProject? ==> Exec(feeBps, p, i).value.fee == p.fee
    ensures i.ActivateProject? && feeBps <= MAX_FEE_BPS ==>
              Exec(feeBps, p, i).value.fee == FeeShare(p.vault.target, feeBps)
  {
    if i.ActivateProject? && feeBps <= MAX_FEE_BPS {
      FeeIsPartOfTarget(p.vault.target, feeBps);
    }
  }

  /** What can happen to a project once and for all. */
  datatype Milestone = Activation | Repayment | Closing

  predicate Marks(i: Instruction, m: Milestone) {
    match m
    case Activation => i.ActivateProject?
    case Repayment => i.DistributeRepayment?
    case Closing => i.CloseProject?
  }

  /** An instruction of the kind `m` has succeeded in the run. */
  predicate Passed(feeBps: u16, target: u64, txs: seq<Instruction>, m: Milestone) {
    txs != [] &&
    (var before, i := txs[..|txs| - 1], txs[|txs| - 1];
     || Passed(feeBps, target, before, m)
     || (Marks(i, m) && Exec(feeBps, Life(feeBps, target, before).state, i).Ok?))
  }

  /**
    The status is what the instructions that have succeeded say it is, in every run: a project leaves
    Funding exactly by an activation, which collects the fee, is Repaying exactly after a repayment,
    and is Completed exactly once closed.
   */
  lemma {:induction false} StatusTellsHistory(feeBps: u16, target: u64, txs: seq<Instruction>)
    requires feeBps <= MAX_FEE_BPS
    ensures var p := Life(feeBps, target, txs).state;
            var activated, repaid, closed :=
              Passed(feeBps, target, txs, Activation),
              Passed(feeBps, target, txs, Repayment),
              Passed(feeBps, target, txs, Closing);
            && p.status == (
                 if closed then Completed
                 else if repaid then Repaying
                 else if activated then Active
                 else Funding)
            && p.fee == (if activated then FeeShare(target, feeBps) else 0)
            && (repaid || closed ==> activated)
  {
    if txs != [] {
      var before, i := txs[..|txs| - 1], txs[|txs| - 1];
      StatusTellsHistory(feeBps, target, before);
      LifeInv(feeBps, target, before);
      LifeTarget(feeBps, Recorded(NewProject(target), NO_HISTORY), before);
      if Exec(feeBps, Life(feeBps, target, before).state, i).Ok? {
        ExecStatus(feeBps, Life(feeBps, target, before).state, i);
      }
    }
  }

  // ---------- Completion ----------

  /** The instructions that a completed project refuses. */
  predicate EndsWithCompletion(i: Instruction) {
    i.BuyProjectTokens? || i.WithdrawInvestment? || i.ActivateProject? || i.DistributeRepayment? || i.CloseProject?
  }

  /** What stays as it is in a completed project, whatever follows. */
  ghost predicate Settled(p: State, q: State) {
    && q.status == Completed && q.fee == p.fee
    && q.vault.sold == p.vault.sold && q.vault.cum == p.vault.cum && q.vault.distributed == p.vault.distributed
    && Held(q.vault.positions) == Held(p.vault.positions)
  }

  lemma StaysSettled(feeBps: u16, r: Recorded<State>, more: seq<Instruction>)
    requires Inv(r) && feeBps <= MAX_FEE_BPS && r.state.status == Completed
    ensures Settled(r.state, Run(feeBps, r, more).state)
  {
    RunAdvances(feeBps, r, more);
    RunInv(feeBps, r, more);
  }

  lemma CompletedRefuses(feeBps: u16, p: State, i: Instruction)
    requires p.status == Completed && EndsWithCompletion(i)
    ensures Exec(feeBps, p, i).Err?
  {
    if Exec(feeBps, p, i).Ok? {
      ExecStatus(feeBps, p, i);
    }
  }

  /**
    Closing completes a project and changes nothing else; from then on, whatever follows, it stays
    completed, nothing is sold, refunded or distributed any more, and no purchase, refund, activation,
    repayment or closing succeeds.
   */
  lemma CompletionIsFinal(
      feeBps: u16, target: u64, txs: seq<Instruction>, more: seq<Instruction>, i: Instruction)
    requires feeBps <= MAX_FEE_BPS
    requires Exec(feeBps, Life(feeBps, target, txs).state, CloseProject).Ok?
    ensures var r, q := Life(feeBps, target, txs), Life(feeBps, target, txs + [CloseProject]);
            && q.state == r.state.(status := Completed)
            && q.audit == r.audit
            && Settled(r.state, Run(feeBps, q, more).state)
            && (EndsWithCompletion(i) ==> Exec(feeBps, Run(feeBps, q, more).state, i).Err?)
  {
    var q := Life(feeBps, target, txs + [CloseProject]);
    assert (txs + [CloseProject])[..|txs + [CloseProject]| - 1] == txs;
    assert q == Step(feeBps, Life(feeBps, target, txs), CloseProject);
    LifeInv(feeBps, target, txs + [CloseProject]);
    StaysSettled(feeBps, q, more);
    if EndsWithCompletion(i) {
      CompletedRefuses(feeBps, Run(feeBps, q, more).state, i);
    }
  }

  const CLOSED: seq<Instruction> := REPAID + [CloseProject]

  const REPAID_VAULT: Vault := Vault(10, 10, 10, PRECISION, HOLDER, 20, 10)

  lemma HolderIsPaid()
    ensures ClaimReturns(REPAID_VAULT, 1)
            == Ok(REPAID_VAULT.(usdc := 10, positions := map[1 := Position(10, PRECISION, 10)]))
    ensures 1 in Open(REPAID_VAULT)
  {
    HolderIsOwed();
    ClaimOutcome(REPAID_VAULT, 1);
    ClaimEffect(REPAID_VAULT, 1);
    assert HOLDER[1 := Position(10, PRECISION, 10)] == map[1 := Position(10, PRECISION, 10)];
  }

  /** A completed project still pays the holder who has not claimed yet. */
  lemma CompletedStillPays()
    ensures var p := Life(0, 10, CLOSED).state;
            && p.status == Completed
            && 1 in Open(p.vault)
            && Claim(p, 1).Ok?
            && Claim(p, 1).value.vault.positions == map[1 := Position(10, PRECISION, 10)]
  {
    AfterRepayment();
    RunLast(0, Recorded(NewProject(10), NO_HISTORY), REPAID, CloseProject, State(REPAID_VAULT, Completed, 0));
    HolderIsPaid();
  }

  // ---------- Refusals ----------

  /** Why an instruction is refused that is not enabled: the first reason in the order of the checks. */
  function Refusal(p: State, i: Instruction): Error {
    var v := p.vault;
    match i
    case BuyProjectTokens(_, amount, funds) =>
      if amount == 0 then ZeroAmount
      else if p.status != Funding then NotFunding
      else if v.target < v.sold + amount then PoolFull
      else if funds < amount then TokenInsufficientFunds
      else TokenOverflow
    case WithdrawInvestment(o, _) =>
      if o !in v.positions then AccountNotInitialized
      else if p.status != Funding then CannotWithdraw
      else if v.positions[o].held == 0 then NothingToClaim
      else TokenInsufficientFunds
    case ActivateProject =>
      if p.status != Funding then NotFunding
      else if v.sold != v.target then NotFullyFunded
      else TokenInsufficientFunds
    case DistributeRepayment(amount, funds) =>
      if amount == 0 then ZeroAmount
      else if p.status != Active && p.status != Repaying then NotActiveOrRepaying
      else if v.sold == 0 then NoTokensSold
      else if funds < amount then TokenInsufficientFunds
      else if v.usdc + amount >= TWO_64 then TokenOverflow
      else MathOverflow
    case ClaimProjectReturns(o) =>
      if o !in v.positions then AccountNotInitialized
      else if Owed(v.positions[o], v.cum) == 0 then NothingToClaim
      else InsufficientVaultBalance
    case WithdrawProjectFunds(amount) => if amount == 0 then ZeroAmount else InsufficientVaultBalance
    case CloseProject => NotActiveOrRepaying
    case ReceiveTransfer(_) => TokenOverflow
  }

  /** In every reachable state an instruction that is not enabled is refused with its own error. */
  lemma RefusedWith(feeBps: u16, target: u64, txs: seq<Instruction>, i: Instruction)
    requires feeBps <= MAX_FEE_BPS
    requires !Enabled(feeBps, Life(feeBps, target, txs).state, i)
    ensures Exec(feeBps, Life(feeBps, target, txs).state, i) == Err(Refusal(Life(feeBps, target, txs).state, i))
  {
    LifeInv(feeBps, target, txs);
    SucceedsIffEnabled(feeBps, target, txs, i);
    ErrorOf(feeBps, Life(feeBps, target, txs), i);
  }

  lemma ErrorOf(feeBps: u16, r: Recorded<State>, i: Instruction)
    requires Inv(r) && feeBps <= MAX_FEE_BPS && Exec(feeBps, r.state, i).Err?
    ensures Exec(feeBps, r.state, i).error == Refusal(r.state, i)
  {
    match i
    case BuyProjectTokens(o, amount, funds) => PurchaseRefused(r, o, amount, funds);
    case WithdrawInvestment(o, tokens) => WithdrawRefused(r, o, tokens);
    case ActivateProject => ActivationRefused(feeBps, r);
    case DistributeRepayment(amount, funds) => RepaymentRefused(r, amount, funds);
    case ClaimProjectReturns(o) => ClaimRefused(r, o);
    case _ => OthersRefused(feeBps, r.state, i);
  }

  lemma OthersRefused(feeBps: u16, p: State, i: Instruction)
    requires i.WithdrawProjectFunds? || i.CloseProject? || i.ReceiveTransfer?
    requires Exec(feeBps, p, i).Err?
    ensures Exec(feeBps, p, i).error == Refusal(p, i)
  {
  }

  lemma ActivationRefused(feeBps: u16, r: Recorded<State>)
    requires feeBps <= MAX_FEE_BPS && Activate(r.state, feeBps).Err?
    ensures Activate(r.state, feeBps).error == Refusal(r.state, ActivateProject)
  {
    FeeIsPartOfTarget(r.state.vault.target, feeBps);
  }

  lemma PurchaseRefused(r: Recorded<State>, o: Address, amount: u64, funds: u64)
    requires Inv(r) && Buy(r.state, o, amount, funds).Err?
    ensures Buy(r.state, o, amount, funds).error == Refusal(r.state, BuyProjectTokens(o, amount, funds))
  {
    BuyRefused(r.state.vault, r.audit, r.audit.withdrawn + r.state.fee, o, amount, funds);
  }

  lemma WithdrawRefused(r: Recorded<State>, o: Address, tokens: u64)
    requires Inv(r) && Withdraw(r.state, o, tokens).Err?
    ensures Withdraw(r.state, o, tokens).error == Refusal(r.state, WithdrawInvestment(o, tokens))
  {
    PendingBounds(r.state.vault, r.audit, r.audit.withdrawn + r.state.fee);
  }

  lemma RepaymentRefused(r: Recorded<State>, amount: u64, funds: u64)
    requires Inv(r) && DistributeTo(r.state, amount, funds).Err?
    ensures DistributeTo(r.state, amount, funds).error == Refusal(r.state, DistributeRepayment(amount, funds))
  {
    DistributeRefused(r.state.vault, r.audit, amount, funds);
  }

  lemma ClaimRefused(r: Recorded<State>, o: Address)
    requires Inv(r) && Claim(r.state, o).Err?
    ensures Claim(r.state, o).error == Refusal(r.state, ClaimProjectReturns(o))
  {
    assert Regular(r.state.vault) by {
      NoDriftRegular(r.state.vault, r.audit, r.audit.withdrawn + r.state.fee);
    }
    RegularRefused(r.state.vault, o);
  }
}
