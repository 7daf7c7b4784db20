/**
  The life of one pool vault. No instruction moves a pool out of Funding and a distribution does not
  look at the status, so purchases and distributions interleave freely and the supply keeps moving.
 */
module Pool {
  import opened Types
  import opened Accumulator

  datatype Status = Funding | Active | Distributing | Completed | Cancelled

  datatype State = State(vault: Vault, status: Status)

  datatype Instruction =
    | BuyPoolTokens(investor: Address, amount: u64, funds: u64)
    | DistributePoolReturns(amount: u64, funds: u64)
    | ClaimPoolReturns(investor: Address)
    | ReceiveTransfer(amount: u64)  // not an instruction of the program: USDC sent to the vault

  function CreatePool(target: u64): Result<State> {
    var _ :- Require(target > 0, InvalidTargetAmount);
    Ok(NewPool(target))
  }

  function NewPool(target: u64): State {
    State(EmptyVault(target), Funding)
  }

  function Buy(p: State, investor: Address, amount: u64, funds: u64): Result<State> {
    var _ :- Require(amount > 0, ZeroAmount);
    var _ :- Require(p.status == Funding, NotFunding);
    var v :- BuyTokens(p.vault, investor, amount, funds);
    Ok(p.(vault := v))
  }

  function DistributeTo(p: State, amount: u64, funds: u64): Result<State> {
    var _ :- Require(amount > 0, ZeroAmount);
    var v :- Distribute(p.vault, amount, funds);
    Ok(p.(vault := v))
  }

  function Claim(p: State, investor: Address): Result<State> {
    var v :- ClaimReturns(p.vault, investor);
    Ok(p.(vault := v))
  }

  function Receive(p: State, amount: u64): Result<State> {
    var v :- Deposit(p.vault, amount);
    Ok(p.(vault := v))
  }

  function Exec(p: State, i: Instruction): Result<State> {
    match i
    case BuyPoolTokens(investor, amount, funds) => Buy(p, investor, amount, funds)
    case DistributePoolReturns(amount, funds) => DistributeTo(p, amount, funds)
    case ClaimPoolReturns(investor) => Claim(p, investor)
    case ReceiveTransfer(amount) => Receive(p, amount)
  }

  // ---------- Runs ----------

  function Tally(p: State, i: Instruction, a: Audit): Audit
    requires Exec(p, i).Ok?
  {
    match i
    case BuyPoolTokens(investor, amount, _) => NoteShares(a, p.vault, investor, amount)
    case DistributePoolReturns(amount, _) => NotePayment(a, p.vault, amount)
    case ClaimPoolReturns(investor) => NoteClaim(a, p.vault, investor)
    case ReceiveTransfer(amount) => a.(received := a.received + amount)
  }

  function Step(r: Recorded<State>, i: Instruction): Recorded<State> {
    match Exec(r.state, i)
    case Ok(p) => Recorded(p, Tally(r.state, i, r.audit))
    case Err(_) => r
  }

  function Run(r: Recorded<State>, txs: seq<Instruction>): Recorded<State> {
    if txs == [] then r else Step(Run(r, txs[..|txs| - 1]), txs[|txs| - 1])
  }

  function Life(target: u64, txs: seq<Instruction>): Recorded<State> {
    Run(Recorded(NewPool(target), NO_HISTORY), txs)
  }

  /** A top-up by a holder whose snapshot is the current accumulator; a first purchase always is one. */
  predicate SettledPurchase(p: State, i: Instruction) {
    i.BuyPoolTokens? && i.investor in p.vault.positions ==> p.vault.positions[i.investor].last == p.vault.cum
  }

  /** Every successful purchase of the run was settled. */
  predicate AllSettled(r: Recorded<State>, txs: seq<Instruction>) {
    txs == [] ||
    (var before, i := txs[..|txs| - 1], txs[|txs| - 1];
     && AllSettled(r, before)
     && (Exec(Run(r, before).state, i).Ok? ==> SettledPurchase(Run(r, before).state, i)))
  }

  // ---------- The invariant ----------

  ghost predicate Inv(r: Recorded<State>) {
    && Balanced(r.state.vault, r.audit, 0)
    && r.state.status == Funding
    && 0 <= r.audit.drift
    && r.audit.withdrawn == 0
  }

  lemma NewPoolInv(target: u64)
    ensures Inv(Recorded(NewPool(target), NO_HISTORY))
  {
  }

  /** A purchase drifts exactly when it tops up an unsettled position. */
  lemma DriftOfPurchase(v: Vault, o: Address, amount: u64)
    requires SharesAgree(v) && amount > 0
    ensures Drift(v, o, amount) >= 0
    ensures Drift(v, o, amount) == 0 <==> (o in v.positions ==> v.positions[o].last == v.cum)
  {
    var gap := v.cum - PositionOf(v, o).last;
    if gap > 0 {
      assert amount * gap > 0;
    }
  }

  lemma StepBuy(r: Recorded<State>, o: Address, amount: u64, funds: u64)
    requires Inv(r)
    ensures var i := BuyPoolTokens(o, amount, funds); var q := Step(r, i);
            && Inv(q) && r.audit.drift <= q.audit.drift
            && (q.audit.drift == r.audit.drift <==> (Exec(r.state, i).Ok? ==> SettledPurchase(r.state, i)))
  {
    if Buy(r.state, o, amount, funds).Ok? {
      var v := r.state.vault;
      BuyEffect(v, o, amount, funds);
      BuyBalanced(v, r.audit, 0, o, amount, BuyTokens(v, o, amount, funds).value);
      DriftOfPurchase(v, o, amount);
    }
  }

  lemma StepDistribute(r: Recorded<State>, amount: u64, funds: u64)
    requires Inv(r)
    ensures Inv(Step(r, DistributePoolReturns(amount, funds)))
    ensures Step(r, DistributePoolReturns(amount, funds)).audit.drift == r.audit.drift
  {
    if DistributeTo(r.state, amount, funds).Ok? {
      DistributeEffect(r.state.vault, amount, funds);
      DistributeBalanced(r.state.vault, r.audit, 0, amount, Distribute(r.state.vault, amount, funds).value);
    }
  }

  lemma StepClaim(r: Recorded<State>, o: Address)
    requires Inv(r)
    ensures Inv(Step(r, ClaimPoolReturns(o)))
    ensures Step(r, ClaimPoolReturns(o)).audit.drift == r.audit.drift
  {
    var v := r.state.vault;
    if Claim(r.state, o).Ok? {
      ClaimEffect(v, o);
      ClaimBalanced(v, r.audit, 0, o, Owed(v.positions[o], v.cum), ClaimReturns(v, o).value);
    }
  }

  lemma StepReceive(r: Recorded<State>, amount: u64)
    requires Inv(r)
    ensures Inv(Step(r, ReceiveTransfer(amount)))
    ensures Step(r, ReceiveTransfer(amount)).audit.drift == r.audit.drift
  {
  }

  /** Every instruction keeps the invariant, and only an unsettled top-up adds drift. */
  lemma StepInv(r: Recorded<State>, i: Instruction)
    requires Inv(r)
    ensures Inv(Step(r, i))
    ensures r.audit.drift <= Step(r, i).audit.drift
    ensures Step(r, i).audit.drift == r.audit.drift <==> (Exec(r.state, i).Ok? ==> SettledPurchase(r.state, i))
  {
    match i
    case BuyPoolTokens(o, amount, funds) => StepBuy(r, o, amount, funds);
    case DistributePoolReturns(amount, funds) => StepDistribute(r, amount, funds);
    case ClaimPoolReturns(o) => StepClaim(r, o);
    case ReceiveTransfer(amount) => StepReceive(r, amount);
  }

  lemma {:induction false} RunInv(r: Recorded<State>, txs: seq<Instruction>)
    requires Inv(r)
    ensures Inv(Run(r, txs))
    ensures r.audit.drift <= Run(r, txs).audit.drift
    ensures Run(r, txs).audit.drift == r.audit.drift <==> AllSettled(r, txs)
  {
    if txs != [] {
      RunInv(r, txs[..|txs| - 1]);
      StepInv(Run(r, txs[..|txs| - 1]), txs[|txs| - 1]);
    }
  }

  /** Every run keeps the invariant, and the drift is zero if and only if every top-up was settled. */
  lemma LifeInv(target: u64, txs: seq<Instruction>)
    ensures Inv(Life(target, txs))
    ensures Life(target, txs).audit.drift == 0 <==> AllSettled(Recorded(NewPool(target), NO_HISTORY), txs)
  {
    NewPoolInv(target);
    RunInv(Recorded(NewPool(target), NO_HISTORY), txs);
  }
}
