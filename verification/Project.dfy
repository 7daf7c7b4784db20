/**
  The life of one project vault: every instruction that touches it as a function from state to
  state, runs of instructions, and the invariant that every run keeps.
 */
module Project {
  import opened Types
  import opened Accumulator

  datatype Status = Funding | Active | Repaying | Completed | Cancelled

  datatype State = State(
    vault: Vault,
    status: Status,
    fee: u64  // origination_fee_collected
  )

  /**
    The instructions. `funds` and `tokens` are what the payer's USDC account and the investor's
    token account hold when the instruction runs; they may be anything.
   */
  datatype Instruction =
    | BuyProjectTokens(investor: Address, amount: u64, funds: u64)
    | WithdrawInvestment(investor: Address, tokens: u64)
    | ActivateProject
    | DistributeRepayment(amount: u64, funds: u64)
    | ClaimProjectReturns(investor: Address)
    | WithdrawProjectFunds(amount: u64)
    | CloseProject
    | ReceiveTransfer(amount: u64)  // not an instruction of the program: USDC sent to the vault

  // ---------- Instructions ----------

  function CreateProject(target: u64, termMonths: nat, baselineSubmitted: bool): Result<State> {
    var _ :- Require(baselineSubmitted, MrvBaselineMissing);
    var _ :- Require(target > 0, InvalidTargetAmount);
    var _ :- Require(MIN_TERM_MONTHS <= termMonths <= MAX_TERM_MONTHS, InvalidTermMonths);
    Ok(NewProject(target))
  }

  function NewProject(target: u64): State {
    State(EmptyVault(target), Funding, 0)
  }

  function Buy(p: State, investor: Address, amount: u64, funds: u64): Result<State> {
    var _ :- Require(amount > 0, ZeroAmount);
    var _ :- Require(p.status == Funding, NotFunding);
    var v :- BuyTokens(p.vault, investor, amount, funds);
    Ok(p.(vault := v))
  }

  function Withdraw(p: State, investor: Address, tokens: u64): Result<State> {
    var _ :- Require(investor in p.vault.positions, AccountNotInitialized);
    var _ :- Require(p.status == Funding || p.status == Cancelled, CannotWithdraw);
    var v :- RefundTokens(p.vault, investor, tokens);
    Ok(p.(vault := v))
  }

  /** The share of the target that goes to the treasury; `feeBps` comes from the platform account. */
  function OriginationFee(target: u64, feeBps: u16): Result<u64> {
    var scaled :- CheckedMul128(target, feeBps);
    Ok(TruncateToU64(scaled / 10_000))
  }

  function Activate(p: State, feeBps: u16): Result<State> {
    var _ :- Require(p.status == Funding, NotFunding);
    var _ :- Require(p.vault.sold == p.vault.target, NotFullyFunded);
    var fee :- OriginationFee(p.vault.target, feeBps);
    var v :- PayOut(p.vault, fee);
    Ok(State(v, Active, fee))
  }

  function DistributeTo(p: State, amount: u64, funds: u64): Result<State> {
    var _ :- Require(amount > 0, ZeroAmount);
    var _ :- Require(p.status == Active || p.status == Repaying, NotActiveOrRepaying);
    var v :- Distribute(p.vault, amount, funds);
    Ok(p.(vault := v, status := Repaying))
  }

  function Claim(p: State, investor: Address): Result<State> {
    var v :- ClaimReturns(p.vault, investor);
    Ok(p.(vault := v))
  }

  function WithdrawFunds(p: State, amount: u64): Result<State> {
    var _ :- Require(amount > 0, ZeroAmount);
    var _ :- Require(amount <= p.vault.usdc, InsufficientVaultBalance);
    var v :- PayOut(p.vault, amount);
    Ok(p.(vault := v))
  }

  function Close(p: State): Result<State> {
    var _ :- Require(p.status == Repaying || p.status == Active, NotActiveOrRepaying);
    Ok(p.(status := Completed))
  }

  function Receive(p: State, amount: u64): Result<State> {
    var v :- Deposit(p.vault, amount);
    Ok(p.(vault := v))
  }

  function Exec(feeBps: u16, p: State, i: Instruction): Result<State> {
    match i
    case BuyProjectTokens(investor, amount, funds) => Buy(p, investor, amount, funds)
    case WithdrawInvestment(investor, tokens) => Withdraw(p, investor, tokens)
    case ActivateProject => Activate(p, feeBps)
    case DistributeRepayment(amount, funds) => DistributeTo(p, amount, funds)
    case ClaimProjectReturns(investor) => Claim(p, investor)
    case WithdrawProjectFunds(amount) => WithdrawFunds(p, amount)
    case CloseProject => Close(p)
    case ReceiveTransfer(amount) => Receive(p, amount)
  }

  // ---------- Runs ----------

  /** The history after the successful instruction `i` at `p`. */
  function Tally(feeBps: u16, p: State, i: Instruction, a: Audit): Audit
    requires Exec(feeBps, p, i).Ok?
  {
    match i
    case BuyProjectTokens(investor, amount, _) => NoteShares(a, p.vault, investor, amount)
    case WithdrawInvestment(investor, _) => NoteShares(a, p.vault, investor, -(p.vault.positions[investor].held as int))
    case DistributeRepayment(amount, _) => NotePayment(a, p.vault, amount)
    case ClaimProjectReturns(investor) => NoteClaim(a, p.vault, investor)
    case WithdrawProjectFunds(amount) => a.(withdrawn := a.withdrawn + amount)
    case ReceiveTransfer(amount) => a.(received := a.received + amount)
    case _ => a
  }

  /** A failed instruction changes nothing: transactions are atomic. */
  function Step(feeBps: u16, r: Recorded<State>, i: Instruction): Recorded<State> {
    match Exec(feeBps, r.state, i)
    case Ok(p) => Recorded(p, Tally(feeBps, r.state, i, r.audit))
    case Err(_) => r
  }

  function Run(feeBps: u16, r: Recorded<State>, txs: seq<Instruction>): Recorded<State> {
    if txs == [] then r else Step(feeBps, Run(feeBps, r, txs[..|txs| - 1]), txs[|txs| - 1])
  }

  /** Everything that happens to a project from its creation on. */
  function Life(feeBps: u16, target: u64, txs: seq<Instruction>): Recorded<State> {
    Run(feeBps, Recorded(NewProject(target), NO_HISTORY), txs)
  }

  // ---------- The invariant ----------

  /** Nothing was distributed yet, so nobody has anything pending. */
  ghost predicate Untouched(v: Vault, a: Audit) {
    && v.cum == 0 && v.distributed == 0 && a.payments == [] && a.claims == 0 && a.claimsOf == map[]
    && forall o | o in v.positions :: v.positions[o].last == 0 && v.positions[o].claimed == 0
  }

  /** Each claim of a holder paid all that had accrued to it, up to a fraction of a unit. */
  ghost predicate Tracked(v: Vault, a: Audit) {
    forall o | o in v.positions :: TracksPosition(v.positions[o], ClaimsOf(a, o))
  }

  ghost predicate TracksPosition(p: Position, claims: nat) {
    PRECISION * p.claimed <= p.held * p.last <= PRECISION * p.claimed + claims * (PRECISION - 1)
  }

  /** What the status says about the vault. */
  ghost predicate Lifecycle(p: State, a: Audit) {
    && p.status != Cancelled
    && p.fee <= p.vault.target
    && a.drift == 0
    && (p.status == Funding ==> p.fee == 0)
    && (p.status == Funding || p.status == Active ==> Untouched(p.vault, a))
    && (p.status != Funding ==> p.vault.sold == p.vault.target)
    && (forall i | 0 <= i < |a.payments| :: a.payments[i].supply == p.vault.target)
  }

  ghost predicate Inv(r: Recorded<State>) {
    && Balanced(r.state.vault, r.audit, r.audit.withdrawn + r.state.fee)
    && Tracked(r.state.vault, r.audit)
    && Lifecycle(r.state, r.audit)
  }

  lemma NewProjectInv(target: u64)
    ensures Inv(Recorded(NewProject(target), NO_HISTORY))
  {
  }

  lemma BuyInv(r: Recorded<State>, o: Address, amount: u64, funds: u64)
    requires Inv(r) && Buy(r.state, o, amount, funds).Ok?
    ensures Inv(Recorded(Buy(r.state, o, amount, funds).value, NoteShares(r.audit, r.state.vault, o, amount)))
  {
    var v, out := r.state.vault, r.audit.withdrawn + r.state.fee;
    var w, b := BuyTokens(v, o, amount, funds).value, NoteShares(r.audit, v, o, amount);
    BuyEffect(v, o, amount, funds);
    assert Balanced(w, b, out) by {
      BuyBalanced(v, r.audit, out, o, amount, w);
    }
    BuyLifecycle(r.state, r.audit, o, amount, w);
  }

  lemma BuyLifecycle(p: State, a: Audit, o: Address, amount: u64, w: Vault)
    requires Lifecycle(p, a) && Tracked(p.vault, a) && p.status == Funding
    requires w == p.vault.(sold := w.sold, usdc := w.usdc, supply := w.supply, positions := w.positions)
    requires var x := PositionOf(p.vault, o);
             x.held + amount <= U64_MAX && w.positions == p.vault.positions[o := x.(held := x.held + amount)]
    ensures Lifecycle(p.(vault := w), NoteShares(a, p.vault, o, amount))
    ensures Tracked(w, NoteShares(a, p.vault, o, amount))
  {
  }

  lemma WithdrawInv(r: Recorded<State>, o: Address, tokens: u64)
    requires Inv(r) && Withdraw(r.state, o, tokens).Ok?
    ensures var v := r.state.vault;
            Inv(Recorded(Withdraw(r.state, o, tokens).value, NoteShares(r.audit, v, o, -(v.positions[o].held as int))))
  {
    var v, out := r.state.vault, r.audit.withdrawn + r.state.fee;
    var w := RefundTokens(v, o, tokens).value;
    RefundEffect(v, o, tokens);
    assert Drift(v, o, -(v.positions[o].held as int)) == 0;
    RefundBalanced(v, r.audit, out, o, w);
  }

  /** The product of a u64 and a u16 fits in u128, so its checked multiplication succeeds. */
  lemma FeeProductInRange(target: u64, feeBps: u16)
    ensures 0 <= target * feeBps <= U128_MAX
  {
    ProductMonotone(target, feeBps, U16_MAX);
  }

  lemma ProductMonotone(x: nat, y: nat, z: nat)
    requires y <= z
    ensures 0 <= x * y <= x * z
  {
  }

  /** The fee without machine integers: `feeBps` ten-thousandths of the target, rounded down. */
  function FeeShare(target: nat, feeBps: nat): nat {
    target * feeBps / 10_000
  }

  /** A capped fee is a part of the target, so the truncating cast keeps all of it. */
  lemma FeeIsPartOfTarget(target: u64, feeBps: u16)
    requires feeBps <= MAX_FEE_BPS
    ensures OriginationFee(target, feeBps) == Ok(FeeShare(target, feeBps))
    ensures FeeShare(target, feeBps) <= target
  {
    FeeProductInRange(target, feeBps);
    ProductMonotone(target, feeBps, 10_000);
  }

  lemma ActivateInv(feeBps: u16, r: Recorded<State>)
    requires Inv(r) && feeBps <= MAX_FEE_BPS && Activate(r.state, feeBps).Ok?
    ensures Inv(Recorded(Activate(r.state, feeBps).value, r.audit))
  {
    FeeIsPartOfTarget(r.state.vault.target, feeBps);
  }

  lemma DistributeInv(r: Recorded<State>, amount: u64, funds: u64)
    requires Inv(r) && DistributeTo(r.state, amount, funds).Ok?
    ensures r.state.vault.sold > 0
    ensures Inv(Recorded(DistributeTo(r.state, amount, funds).value, NotePayment(r.audit, r.state.vault, amount)))
  {
    var v, out := r.state.vault, r.audit.withdrawn + r.state.fee;
    DistributeEffect(v, amount, funds);
    DistributeBalanced(v, r.audit, out, amount, Distribute(v, amount, funds).value);
  }

  /** A claim moves the snapshot of a tracked position by what it pays and what it forgoes. */
  lemma ClaimTracks(p: Position, cum: u128, claims: nat)
    requires TracksPosition(p, claims) && p.last <= cum
    requires p.claimed + Owed(p, cum) <= U64_MAX && 0 <= Owed(p, cum)
    ensures TracksPosition(Position(p.held, cum, p.claimed + Owed(p, cum)), claims + 1)
  {
  }

  lemma ClaimTracked(v: Vault, a: Audit, o: Address)
    requires Tracked(v, a) && SharesAgree(v) && ClaimReturns(v, o).Ok?
    ensures o in v.positions && v.positions[o].last <= v.cum
    ensures Tracked(ClaimReturns(v, o).value, NoteClaim(a, v, o))
  {
    ClaimEffect(v, o);
    ClaimTracks(v.positions[o], v.cum, ClaimsOf(a, o));
  }

  lemma ClaimInv(r: Recorded<State>, o: Address)
    requires Inv(r) && Claim(r.state, o).Ok?
    ensures o in r.state.vault.positions && r.state.vault.positions[o].last <= r.state.vault.cum
    ensures Inv(Recorded(Claim(r.state, o).value, NoteClaim(r.audit, r.state.vault, o)))
  {
    var v, out := r.state.vault, r.audit.withdrawn + r.state.fee;
    var w, p := ClaimReturns(v, o).value, Claim(r.state, o).value;
    ClaimEffect(v, o);
    assert Balanced(w, NoteClaim(r.audit, v, o), out) by {
      ClaimBalanced(v, r.audit, out, o, Owed(v.positions[o], v.cum), w);
    }
    assert Tracked(w, NoteClaim(r.audit, v, o)) by {
      ClaimTracked(v, r.audit, o);
    }
    assert Lifecycle(p, NoteClaim(r.audit, v, o));
  }

  lemma StepBuy(feeBps: u16, r: Recorded<State>, o: Address, amount: u64, funds: u64)
    requires Inv(r)
    ensures Inv(Step(feeBps, r, BuyProjectTokens(o, amount, funds)))
  {
    if Buy(r.state, o, amount, funds).Ok? {
      BuyInv(r, o, amount, funds);
    }
  }

  lemma StepWithdraw(feeBps: u16, r: Recorded<State>, o: Address, tokens: u64)
    requires Inv(r)
    ensures Inv(Step(feeBps, r, WithdrawInvestment(o, tokens)))
  {
    if Withdraw(r.state, o, tokens).Ok? {
      WithdrawInv(r, o, tokens);
    }
  }

  lemma StepActivate(feeBps: u16, r: Recorded<State>)
    requires Inv(r) && feeBps <= MAX_FEE_BPS
    ensures Inv(Step(feeBps, r, ActivateProject))
  {
    if Activate(r.state, feeBps).Ok? {
      ActivateInv(feeBps, r);
    }
  }

  lemma StepDistribute(feeBps: u16, r: Recorded<State>, amount: u64, funds: u64)
    requires Inv(r)
    ensures Inv(Step(feeBps, r, DistributeRepayment(amount, funds)))
  {
    if DistributeTo(r.state, amount, funds).Ok? {
      DistributeInv(r, amount, funds);
    }
  }

  lemma StepClaim(feeBps: u16, r: Recorded<State>, o: Address)
    requires Inv(r)
    ensures Inv(Step(feeBps, r, ClaimProjectReturns(o)))
  {
    if Claim(r.state, o).Ok? {
      ClaimInv(r, o);
    }
  }

  lemma StepWithdrawFunds(feeBps: u16, r: Recorded<State>, amount: u64)
    requires Inv(r)
    ensures Inv(Step(feeBps, r, WithdrawProjectFunds(amount)))
  {
  }

  lemma StepClose(feeBps: u16, r: Recorded<State>)
    requires Inv(r)
    ensures Inv(Step(feeBps, r, CloseProject))
  {
  }

  lemma StepReceive(feeBps: u16, r: Recorded<State>, amount: u64)
    requires Inv(r)
    ensures Inv(Step(feeBps, r, ReceiveTransfer(amount)))
  {
  }

  lemma StepInv(feeBps: u16, r: Recorded<State>, i: Instruction)
    requires Inv(r) && feeBps <= MAX_FEE_BPS
    ensures Inv(Step(feeBps, r, i))
  {
    match i
    case BuyProjectTokens(o, amount, funds) => StepBuy(feeBps, r, o, amount, funds);
    case WithdrawInvestment(o, tokens) => StepWithdraw(feeBps, r, o, tokens);
    case ActivateProject => StepActivate(feeBps, r);
    case DistributeRepayment(amount, funds) => StepDistribute(feeBps, r, amount, funds);
    case ClaimProjectReturns(o) => StepClaim(feeBps, r, o);
    case WithdrawProjectFunds(amount) => StepWithdrawFunds(feeBps, r, amount);
    case CloseProject => StepClose(feeBps, r);
    case ReceiveTransfer(amount) => StepReceive(feeBps, r, amount);
  }

  lemma {:induction false} RunInv(feeBps: u16, r: Recorded<State>, txs: seq<Instruction>)
    requires Inv(r) && feeBps <= MAX_FEE_BPS
    ensures Inv(Run(feeBps, r, txs))
  {
    if txs != [] {
      RunInv(feeBps, r, txs[..|txs| - 1]);
      StepInv(feeBps, Run(feeBps, r, txs[..|txs| - 1]), txs[|txs| - 1]);
    }
  }

  /** Every run of a new project keeps the invariant. */
  lemma LifeInv(feeBps: u16, target: u64, txs: seq<Instruction>)
    requires feeBps <= MAX_FEE_BPS
    ensures Inv(Life(feeBps, target, txs))
  {
    NewProjectInv(target);
    RunInv(feeBps, Recorded(NewProject(target), NO_HISTORY), txs);
  }
}
