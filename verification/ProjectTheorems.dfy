/** What every run of a project guarantees to its investors. */
module ProjectTheorems {
  import opened Types
  import opened Totals
  import opened Accumulator
  import opened Settlement
  import opened Project

  // ---------- Conservation and solvency ----------

  /**
    Everything ever distributed is still pending, was claimed, or is dust; the dust of each
    distribution is below `target` and that of each claim below PRECISION scaled units.
   */
  lemma Conservation(feeBps: u16, target: u64, txs: seq<Instruction>)
    requires feeBps <= MAX_FEE_BPS && target > 0
    ensures var r := Life(feeBps, target, txs); var v, a := r.state.vault, r.audit;
            var pending, claimed := Total(Pending(v.positions, v.cum)), Total(Claimed(v.positions));
            && PRECISION * v.distributed == pending + PRECISION * claimed + DustSum(a.payments) + a.claimDust
            && DustSum(a.payments) <= |a.payments| * (target - 1)
            && a.claimDust <= a.claims * (PRECISION - 1)
            && claimed <= v.distributed
            && PRECISION * (v.distributed - claimed)
               <= pending + |a.payments| * (target - 1) + a.claims * (PRECISION - 1)
  {
    var r := Life(feeBps, target, txs);
    LifeInv(feeBps, target, txs);
    LifeTarget(feeBps, Recorded(NewProject(target), NO_HISTORY), txs);
    DustBound(r.audit.payments, target);
    NoDriftRegular(r.state.vault, r.audit, r.audit.withdrawn + r.state.fee);
    PendingBounds(r.state.vault, r.audit, r.audit.withdrawn + r.state.fee);
  }

  /** The target never changes. */
  lemma {:induction false} LifeTarget(feeBps: u16, r: Recorded<State>, txs: seq<Instruction>)
    ensures Run(feeBps, r, txs).state.vault.target == r.state.vault.target
  {
    if txs != [] {
      LifeTarget(feeBps, r, txs[..|txs| - 1]);
    }
  }

  /** The USDC vault holds exactly what came in and has not left. */
  lemma VaultEquation(feeBps: u16, target: u64, txs: seq<Instruction>)
    requires feeBps <= MAX_FEE_BPS
    ensures var r := Life(feeBps, target, txs); var v, a := r.state.vault, r.audit;
            v.usdc + a.withdrawn == v.sold - r.state.fee + v.distributed - Total(Claimed(v.positions)) + a.received
  {
    LifeInv(feeBps, target, txs);
  }

  /** The positions, the counter of tokens sold and the mint agree, and never pass the target. */
  lemma SupplyAgreement(feeBps: u16, target: u64, txs: seq<Instruction>)
    requires feeBps <= MAX_FEE_BPS
    ensures var v := Life(feeBps, target, txs).state.vault;
            Total(Held(v.positions)) == v.sold == v.supply <= target
  {
    LifeInv(feeBps, target, txs);
    LifeTarget(feeBps, Recorded(NewProject(target), NO_HISTORY), txs);
  }

  /**
    Every holder can be paid at once exactly when the admin's withdrawals stay within the principal
    left after the fee, what was sent in, and the dust in the vault.
   */
  lemma Payability(feeBps: u16, target: u64, txs: seq<Instruction>)
    requires feeBps <= MAX_FEE_BPS
    ensures var r := Life(feeBps, target, txs); var v, a := r.state.vault, r.audit;
            var owed, claimed := Total(Payable(v.positions, v.cum)), Total(Claimed(v.positions));
            && owed + claimed <= v.distributed
            && (owed <= v.usdc <==>
                a.withdrawn <= v.sold - r.state.fee + a.received + (v.distributed - claimed - owed))
  {
    var r := Life(feeBps, target, txs);
    LifeInv(feeBps, target, txs);
    NoDriftRegular(r.state.vault, r.audit, r.audit.withdrawn + r.state.fee);
  }

  // ---------- Runs of claims ----------

  /** The instructions by which the investors `os` try to claim, one after the other. */
  function Claims(os: seq<Address>): seq<Instruction> {
    if os == [] then [] else Claims(os[..|os| - 1]) + [ClaimProjectReturns(os[|os| - 1])]
  }

  /** Running claim instructions is attempting the claims, and the history counts the successes. */
  lemma {:induction false} ClaimsRun(feeBps: u16, r: Recorded<State>, os: seq<Address>)
    ensures var q := Run(feeBps, r, Claims(os));
            && q.state == r.state.(vault := ClaimAll(r.state.vault, os))
            && q.audit.claims == r.audit.claims + Successes(r.state.vault, os)
            && forall o :: ClaimsOf(q.audit, o) == ClaimsOf(r.audit, o) + SuccessesOf(r.state.vault, os, o)
  {
    if os != [] {
      var before, txs := os[..|os| - 1], Claims(os);
      ClaimsRun(feeBps, r, before);
      assert txs[..|txs| - 1] == Claims(before);
      var q := Run(feeBps, r, Claims(before));
      assert Run(feeBps, r, txs) == Step(feeBps, q, ClaimProjectReturns(os[|os| - 1]));
    }
  }

  lemma LifeClaims(feeBps: u16, target: u64, txs: seq<Instruction>, os: seq<Address>)
    ensures var r, q := Life(feeBps, target, txs), Life(feeBps, target, txs + Claims(os));
            && q.state == r.state.(vault := ClaimAll(r.state.vault, os))
            && q.audit.claims == r.audit.claims + Successes(r.state.vault, os)
            && forall o :: ClaimsOf(q.audit, o) == ClaimsOf(r.audit, o) + SuccessesOf(r.state.vault, os, o)
  {
    RunConcat(feeBps, Recorded(NewProject(target), NO_HISTORY), txs, Claims(os));
    ClaimsRun(feeBps, Life(feeBps, target, txs), os);
  }

  /**
    While the admin's withdrawals stay within the principal left after the fee, every holder with
    something to claim is paid, in every order in which the holders come.
   */
  lemma EveryOrderPaysEveryone(feeBps: u16, target: u64, txs: seq<Instruction>, os: seq<Address>)
    requires feeBps <= MAX_FEE_BPS
    requires var r := Life(feeBps, target, txs);
             r.audit.withdrawn <= r.state.vault.sold - r.state.fee + r.audit.received
    ensures var r, q := Life(feeBps, target, txs), Life(feeBps, target, txs + Claims(os));
            var v, w := r.state.vault, q.state.vault;
            && (forall o | o in os && o in v.positions :: o in w.positions && Owed(w.positions[o], w.cum) == 0)
            && q.audit.claims - r.audit.claims == |Open(v) * Claimants(os)|
            && (forall o | o in Open(v) :: Claim(r.state, o).Ok?)
  {
    var r := Life(feeBps, target, txs);
    var v := r.state.vault;
    LifeInv(feeBps, target, txs);
    LifeClaims(feeBps, target, txs, os);
    NoDriftRegular(v, r.audit, r.audit.withdrawn + r.state.fee);
    AttemptsSettle(v, os);
    forall o | o in v.positions
      ensures RegularPosition(v.positions[o], v.cum) && Owed(SettledPosition(v.positions[o], v.cum), v.cum) == 0
    {
      SettledOwesNothing(v.positions[o], v.cum);
    }
    forall o | o in Open(v)
      ensures ClaimReturns(v, o).Ok?
    {
      AttemptsSettle(v, [o]);
      OneMoreAlone(v, o);
    }
  }

  lemma OneMoreAlone(v: Vault, o: Address)
    requires Regular(v) && o in Open(v)
    requires Total(Payable(v.positions, v.cum)) <= v.usdc
    ensures ClaimReturns(v, o).Ok?
  {
    OneMore(v, {}, v, o);
  }

  /**
    When every holder tries to claim, in any order, all are paid in full if and only if the admin's
    withdrawals stay within the principal after the fee, what was sent in, and the dust.
   */
  lemma EveryonePaidIff(feeBps: u16, target: u64, txs: seq<Instruction>, os: seq<Address>)
    requires feeBps <= MAX_FEE_BPS
    requires forall o | o in Life(feeBps, target, txs).state.vault.positions :: o in os
    ensures var r := Life(feeBps, target, txs); var v, a := r.state.vault, r.audit;
            var owed, claimed := Total(Payable(v.positions, v.cum)), Total(Claimed(v.positions));
            Open(Life(feeBps, target, txs + Claims(os)).state.vault) == {} <==>
            a.withdrawn <= v.sold - r.state.fee + a.received + (v.distributed - claimed - owed)
  {
    var r := Life(feeBps, target, txs);
    LifeInv(feeBps, target, txs);
    NoDriftRegular(r.state.vault, r.audit, r.audit.withdrawn + r.state.fee);
    Payability(feeBps, target, txs);
    RegularIffNoneStuck(r.state.vault);
    AllPaidIffCovered(r.state.vault, os);
    LifeClaims(feeBps, target, txs, os);
  }

  // ---------- Arithmetic ----------

  /**
    Every amount in a claim is below PRECISION * 2^64, and no checked operation of any instruction
    can fail, save the one that adds to the lifetime total of distributions.
   */
  lemma ArithmeticTotality(feeBps: u16, target: u64, txs: seq<Instruction>, i: Instruction)
    requires feeBps <= MAX_FEE_BPS
    ensures var p := Life(feeBps, target, txs).state; var v := p.vault;
            && Regular(v)
            && (forall o | o in v.positions :: Scaled(v.positions[o], v.cum) <= PRECISION * v.distributed)
            && Exec(feeBps, p, i) != Err(MathUnderflow)
            && (Exec(feeBps, p, i) == Err(MathOverflow) <==>
                && i.DistributeRepayment? && i.amount > 0 && (p.status == Active || p.status == Repaying)
                && v.sold > 0 && i.amount <= i.funds && v.usdc + i.amount <= U64_MAX
                && v.distributed + i.amount > U64_MAX)
  {
    var r := Life(feeBps, target, txs);
    LifeInv(feeBps, target, txs);
    NoDriftRegular(r.state.vault, r.audit, r.audit.withdrawn + r.state.fee);
    PendingBounds(r.state.vault, r.audit, r.audit.withdrawn + r.state.fee);
    if i.DistributeRepayment? {
      DistributeInRange(r.state.vault, r.audit, i.amount, i.funds);
    } else {
      OthersInRange(feeBps, r, i);
    }
  }

  lemma OthersInRange(feeBps: u16, r: Recorded<State>, i: Instruction)
    requires feeBps <= MAX_FEE_BPS && Inv(r) && !i.DistributeRepayment?
    ensures Exec(feeBps, r.state, i) != Err(MathUnderflow) && Exec(feeBps, r.state, i) != Err(MathOverflow)
  {
    var v, a, out := r.state.vault, r.audit, r.audit.withdrawn + r.state.fee;
    match i
    case BuyProjectTokens(o, amount, funds) => BuyInRange(v, a, out, o, amount, funds);
    case WithdrawInvestment(o, tokens) => WithdrawInRange(r, o, tokens);
    case ActivateProject => FeeIsPartOfTarget(v.target, feeBps);
    case ClaimProjectReturns(o) => ClaimInRange(r, o);
    case _ =>
  }

  lemma WithdrawInRange(r: Recorded<State>, o: Address, tokens: u64)
    requires Inv(r)
    ensures Withdraw(r.state, o, tokens) != Err(MathUnderflow) && Withdraw(r.state, o, tokens) != Err(MathOverflow)
  {
  }

  lemma ClaimInRange(r: Recorded<State>, o: Address)
    requires Inv(r)
    ensures Claim(r.state, o) != Err(MathUnderflow) && Claim(r.state, o) != Err(MathOverflow)
  {
    NoDriftRegular(r.state.vault, r.audit, r.audit.withdrawn + r.state.fee);
    RegularClaim(r.state.vault, o);
  }

  /** When an instruction ought to succeed, said without machine arithmetic. */
  ghost predicate Enabled(feeBps: u16, p: State, i: Instruction) {
    var v := p.vault;
    match i
    case BuyProjectTokens(_, amount, funds) =>
      0 < amount <= funds && p.status == Funding && v.sold + amount <= v.target && v.usdc + amount < TWO_64
    case WithdrawInvestment(o, tokens) =>
      && p.status == Funding && o in v.positions
      && 0 < v.positions[o].held <= tokens && v.positions[o].held <= v.usdc
    case ActivateProject => p.status == Funding && v.sold == v.target && FeeShare(v.target, feeBps) <= v.usdc
    case DistributeRepayment(amount, funds) =>
      && 0 < amount <= funds && (p.status == Active || p.status == Repaying) && 0 < v.sold
      && v.usdc + amount < TWO_64 && v.distributed + amount < TWO_64
    case ClaimProjectReturns(o) => o in v.positions && 0 < Owed(v.positions[o], v.cum) <= v.usdc
    case WithdrawProjectFunds(amount) => 0 < amount <= v.usdc
    case CloseProject => p.status == Active || p.status == Repaying
    case ReceiveTransfer(amount) => v.usdc + amount < TWO_64
  }

  /** In every reachable state an instruction succeeds exactly when it is enabled. */
  lemma SucceedsIffEnabled(feeBps: u16, target: u64, txs: seq<Instruction>, i: Instruction)
    requires feeBps <= MAX_FEE_BPS
    ensures var p := Life(feeBps, target, txs).state; Exec(feeBps, p, i).Ok? <==> Enabled(feeBps, p, i)
  {
    var r := Life(feeBps, target, txs);
    var v, a, out := r.state.vault, r.audit, r.audit.withdrawn + r.state.fee;
    LifeInv(feeBps, target, txs);
    match i
    case BuyProjectTokens(o, amount, funds) => BuySucceeds(v, a, out, o, amount, funds);
    case WithdrawInvestment(o, tokens) => WithdrawSucceeds(r, o, tokens);
    case ActivateProject => FeeIsPartOfTarget(v.target, feeBps);
    case DistributeRepayment(amount, funds) => DistributeSucceeds(v, a, amount, funds);
    case ClaimProjectReturns(o) => ClaimSucceeds(r, o);
    case _ =>
  }

  /** No product of a claim in a reachable project reaches 2^104. */
  lemma ProductBounds(feeBps: u16, target: u64, txs: seq<Instruction>, o: Address)
    requires feeBps <= MAX_FEE_BPS
    requires o in Life(feeBps, target, txs).state.vault.positions
    ensures var v := Life(feeBps, target, txs).state.vault; var x := v.positions[o];
            0 <= x.held * (v.cum - x.last) < 0x1_00_0000_0000_0000_0000_0000_0000
  {
    var r := Life(feeBps, target, txs);
    LifeInv(feeBps, target, txs);
    BelowTwo104(r.state.vault, r.audit, r.audit.withdrawn + r.state.fee);
    ScaledNonNegative(r.state.vault.positions[o], r.state.vault.cum);
  }

  /**
    The amounts in figures: a repayment raises the accumulator by 10^12 times its amount over the
    supply, and a claim pays the tokens held times the rise since the last one over 10^12, rounded
    down.
   */
  lemma ExactAmounts(feeBps: u16, p: State, i: Instruction)
    requires Exec(feeBps, p, i).Ok?
    ensures i.DistributeRepayment? ==>
              var v, w := p.vault, Exec(feeBps, p, i).value.vault;
              && v.sold > 0
              && w == v.(cum := w.cum, distributed := w.distributed, usdc := w.usdc)
              && w.cum == v.cum + i.amount * 1_000_000_000_000 / v.sold
              && w.distributed == v.distributed + i.amount && w.usdc == v.usdc + i.amount
    ensures i.ClaimProjectReturns? ==>
              var v, w := p.vault, Exec(feeBps, p, i).value.vault;
              && i.investor in v.positions
              && var x := v.positions[i.investor]; var owed := x.held * (v.cum - x.last) / 1_000_000_000_000;
                 && 0 < owed <= v.usdc && x.claimed + owed < TWO_64
                 && w == v.(usdc := w.usdc, positions := w.positions)
                 && w.usdc == v.usdc - owed
                 && w.positions == v.positions[i.investor := Position(x.held, v.cum, x.claimed + owed)]
  {
    if i.DistributeRepayment? {
      DistributionInFigures(p.vault, i.amount, i.funds);
    } else if i.ClaimProjectReturns? {
      ClaimInFigures(p.vault, i.investor);
    }
  }

  lemma WithdrawSucceeds(r: Recorded<State>, o: Address, tokens: u64)
    requires Inv(r)
    ensures var v := r.state.vault;
            Withdraw(r.state, o, tokens).Ok? <==>
            && r.state.status == Funding && o in v.positions
            && 0 < v.positions[o].held <= tokens && v.positions[o].held <= v.usdc
  {
    PendingBounds(r.state.vault, r.audit, r.audit.withdrawn + r.state.fee);
  }

  lemma ClaimSucceeds(r: Recorded<State>, o: Address)
    requires Inv(r)
    ensures var v := r.state.vault;
            Claim(r.state, o).Ok? <==> o in v.positions && 0 < Owed(v.positions[o], v.cum) <= v.usdc
  {
    NoDriftRegular(r.state.vault, r.audit, r.audit.withdrawn + r.state.fee);
    RegularClaim(r.state.vault, o);
  }

  // ---------- The life cycle ----------

  function Rank(s: Status): nat {
    match s
    case Funding => 0
    case Active => 1
    case Repaying => 2
    case Completed => 3
    case Cancelled => 4
  }

  /** `q` may come after `p`: the life cycle only moves on, and shares are frozen once funded. */
  ghost predicate Advances(p: State, q: State) {
    && Rank(p.status) <= Rank(q.status)
    && p.vault.cum <= q.vault.cum && p.vault.distributed <= q.vault.distributed
    && (p.status != Funding ==>
        q.fee == p.fee && q.vault.sold == p.vault.sold && Held(q.vault.positions) == Held(p.vault.positions))
    && (p.status == Completed ==> q.vault.cum == p.vault.cum && q.vault.distributed == p.vault.distributed)
  }

  lemma StepAdvances(feeBps: u16, r: Recorded<State>, i: Instruction)
    requires r.state.status != Cancelled
    ensures Advances(r.state, Step(feeBps, r, i).state)
  {
  }

  lemma {:induction false} RunAdvances(feeBps: u16, r: Recorded<State>, txs: seq<Instruction>)
    requires Inv(r) && feeBps <= MAX_FEE_BPS
    ensures Advances(r.state, Run(feeBps, r, txs).state)
  {
    if txs != [] {
      var before := txs[..|txs| - 1];
      RunAdvances(feeBps, r, before);
      RunInv(feeBps, r, before);
      StepAdvances(feeBps, Run(feeBps, r, before), txs[|txs| - 1]);
    }
  }

  lemma {:induction false} RunConcat(feeBps: u16, r: Recorded<State>, txs: seq<Instruction>, more: seq<Instruction>)
    ensures Run(feeBps, r, txs + more) == Run(feeBps, Run(feeBps, r, txs), more)
  {
    if more == [] {
      assert txs + more == txs;
    } else {
      RunConcat(feeBps, r, txs, more[..|more| - 1]);
      assert (txs + more)[..|txs + more| - 1] == txs + more[..|more| - 1];
    }
  }

  /**
    Over a whole run the status never moves back and never becomes Cancelled; until the first
    distribution nothing has accrued or been claimed; once a project is funded the supply is the
    target and no position ever changes again in the number of its tokens.
   */
  lemma FreezeAfterFunding(feeBps: u16, target: u64, txs: seq<Instruction>, more: seq<Instruction>)
    requires feeBps <= MAX_FEE_BPS
    ensures var r, q := Life(feeBps, target, txs), Life(feeBps, target, txs + more);
            && Advances(r.state, q.state)
            && r.state.status != Cancelled
            && (r.state.status == Funding || r.state.status == Active ==> Untouched(r.state.vault, r.audit))
            && (r.state.status != Funding ==> r.state.vault.sold == target)
  {
    LifeInv(feeBps, target, txs);
    LifeTarget(feeBps, Recorded(NewProject(target), NO_HISTORY), txs);
    RunConcat(feeBps, Recorded(NewProject(target), NO_HISTORY), txs, more);
    RunAdvances(feeBps, Life(feeBps, target, txs), more);
  }

  /** The claims that the investor `o` can still make before the next distribution. */
  ghost function ClaimsLeft(v: Vault, o: Address): nat {
    if o in Open(v) then 1 else 0
  }

  /** In a completed project each successful claim closes its own position for good. */
  lemma StepCloses(feeBps: u16, r: Recorded<State>, i: Instruction)
    requires Inv(r) && r.state.status == Completed
    ensures var q := Step(feeBps, r, i); var v, w := r.state.vault, q.state.vault;
            && q.audit.claims + |Open(w)| <= r.audit.claims + |Open(v)|
            && forall o :: ClaimsOf(q.audit, o) + ClaimsLeft(w, o) <= ClaimsOf(r.audit, o) + ClaimsLeft(v, o)
  {
    var v := r.state.vault;
    if i.ClaimProjectReturns? && Exec(feeBps, r.state, i).Ok? {
      NoDriftRegular(v, r.audit, r.audit.withdrawn + r.state.fee);
      ClaimCloses(v, i.investor);
    } else {
      var w := Step(feeBps, r, i).state.vault;
      assert w.positions == v.positions && w.cum == v.cum;
      assert Open(w) == Open(v);
    }
  }

  lemma ClaimCloses(v: Vault, o: Address)
    requires Regular(v) && ClaimReturns(v, o).Ok?
    ensures o in Open(v)
    ensures Open(ClaimReturns(v, o).value) == Open(v) - {o}
  {
  }

  lemma {:induction false} RunCloses(feeBps: u16, r: Recorded<State>, txs: seq<Instruction>)
    requires Inv(r) && feeBps <= MAX_FEE_BPS && r.state.status == Completed
    ensures var q := Run(feeBps, r, txs); var v, w := r.state.vault, q.state.vault;
            && q.audit.claims + |Open(w)| <= r.audit.claims + |Open(v)|
            && forall o :: ClaimsOf(q.audit, o) + ClaimsLeft(w, o) <= ClaimsOf(r.audit, o) + ClaimsLeft(v, o)
  {
    if txs != [] {
      var before := txs[..|txs| - 1];
      RunCloses(feeBps, r, before);
      RunInv(feeBps, r, before);
      RunAdvances(feeBps, r, before);
      StepCloses(feeBps, Run(feeBps, r, before), txs[|txs| - 1]);
    }
  }

  /** After completion each holder can claim at most once more, and only with something open now. */
  lemma ClaimsEndAfterCompletion(feeBps: u16, target: u64, txs: seq<Instruction>, more: seq<Instruction>)
    requires feeBps <= MAX_FEE_BPS
    requires Life(feeBps, target, txs).state.status == Completed
    ensures var r, q := Life(feeBps, target, txs), Life(feeBps, target, txs + more);
            && q.audit.claims - r.audit.claims <= |Open(r.state.vault)| <= |r.state.vault.positions|
            && forall o :: ClaimsOf(q.audit, o) - ClaimsOf(r.audit, o) <= ClaimsLeft(r.state.vault, o)
  {
    var r := Life(feeBps, target, txs);
    LifeInv(feeBps, target, txs);
    RunConcat(feeBps, Recorded(NewProject(target), NO_HISTORY), txs, more);
    RunCloses(feeBps, r, more);
    SubsetSize(Open(r.state.vault), r.state.vault.positions.Keys);
  }

  // ---------- Funding phase and fee ----------

  /**
    In a project that is still funding, an investor who kept the tokens gets everything paid in
    back, exactly when the admin has not already taken it from the vault; nobody else is affected.
   */
  lemma RefundRoundTrip(feeBps: u16, target: u64, txs: seq<Instruction>, o: Address, tokens: u64)
    requires feeBps <= MAX_FEE_BPS
    requires var p := Life(feeBps, target, txs).state;
             p.status == Funding && o in p.vault.positions && 0 < p.vault.positions[o].held <= tokens
    ensures var r := Life(feeBps, target, txs); var v, a := r.state.vault, r.audit; var paid := v.positions[o].held;
            var q := Step(feeBps, r, WithdrawInvestment(o, tokens));
            && At(a.netPaid, o) == paid
            && (Withdraw(r.state, o, tokens).Ok? <==> a.withdrawn <= v.sold - paid + a.received)
            && (Withdraw(r.state, o, tokens).Ok? ==>
                && At(q.audit.netPaid, o) == 0
                && q.state.vault.usdc == v.usdc - paid
                && q.state.vault.positions == v.positions[o := Position(0, 0, 0)]
                && q.state.vault.sold == v.sold - paid
                && forall x | x != o :: At(q.audit.netPaid, x) == At(a.netPaid, x))
  {
    var r := Life(feeBps, target, txs);
    LifeInv(feeBps, target, txs);
    PendingBounds(r.state.vault, r.audit, r.audit.withdrawn + r.state.fee);
    TotalOfZeros(Claimed(r.state.vault.positions));
    StepWithdraw(feeBps, r, o, tokens);
    if Withdraw(r.state, o, tokens).Ok? {
      RefundEffect(r.state.vault, o, tokens);
    }
  }

  lemma TotalOfZeros(m: map<Address, int>)
    requires forall o | o in m :: m[o] == 0
    ensures Total(m) == 0
  {
    Combine(m, m, 1, m, m.Keys);
  }

  /** Paying in again after a refund starts the surviving position from the same baseline. */
  lemma RebuyAfterRefund(feeBps: u16, target: u64, txs: seq<Instruction>, o: Address, amount: u64, funds: u64)
    requires feeBps <= MAX_FEE_BPS
    requires var r := Life(feeBps, target, txs); var v := r.state.vault;
             && r.state.status == Funding && o in v.positions && v.positions[o].held == 0
             && 0 < amount <= funds && v.sold + amount <= target && v.usdc + amount <= U64_MAX
    ensures var r := Life(feeBps, target, txs);
            var q := Step(feeBps, r, BuyProjectTokens(o, amount, funds));
            && q.state.vault.positions == r.state.vault.positions[o := Position(amount, 0, 0)]
            && At(q.audit.netPaid, o) == amount
            && q.audit.drift == 0
  {
    var r := Life(feeBps, target, txs);
    LifeInv(feeBps, target, txs);
    LifeTarget(feeBps, Recorded(NewProject(target), NO_HISTORY), txs);
    StepBuy(feeBps, r, o, amount, funds);
    assert Buy(r.state, o, amount, funds).Ok?;
    BuyEffect(r.state.vault, o, amount, funds);
  }

  /**
    The fee is the capped share of the target, never truncated, and a funded project can be
    activated exactly when the admin has left enough in the vault to pay it.
   */
  lemma FeeSoundness(feeBps: u16, target: u64, txs: seq<Instruction>)
    requires feeBps <= MAX_FEE_BPS
    requires var p := Life(feeBps, target, txs).state; p.status == Funding && p.vault.sold == target
    ensures var r := Life(feeBps, target, txs); var v, fee := r.state.vault, FeeShare(target, feeBps);
            && fee <= target
            && (Activate(r.state, feeBps).Ok? <==> r.audit.withdrawn <= target - fee + r.audit.received)
            && (Activate(r.state, feeBps).Ok? ==>
                var q := Activate(r.state, feeBps).value;
                && q.status == Active && q.fee == fee
                && q.vault == v.(usdc := q.vault.usdc) && q.vault.usdc == v.usdc - fee)
            && (!Activate(r.state, feeBps).Ok? ==> Activate(r.state, feeBps) == Err(TokenInsufficientFunds))
  {
    var r := Life(feeBps, target, txs);
    LifeInv(feeBps, target, txs);
    LifeTarget(feeBps, Recorded(NewProject(target), NO_HISTORY), txs);
    FeeIsPartOfTarget(target, feeBps);
    FeeAffordable(r, feeBps, FeeShare(target, feeBps));
  }

  lemma FeeAffordable(r: Recorded<State>, feeBps: u16, fee: u64)
    requires Inv(r) && r.state.status == Funding && r.state.vault.sold == r.state.vault.target
    requires OriginationFee(r.state.vault.target, feeBps) == Ok(fee)
    ensures fee <= r.state.vault.usdc <==> r.audit.withdrawn <= r.state.vault.target - fee + r.audit.received
    ensures Activate(r.state, feeBps) ==
            if fee <= r.state.vault.usdc then Ok(State(r.state.vault.(usdc := r.state.vault.usdc - fee), Active, fee))
            else Err(TokenInsufficientFunds)
  {
    TotalOfZeros(Claimed(r.state.vault.positions));
    ActivateOutcome(r.state, feeBps, fee);
  }

  lemma ActivateOutcome(p: State, feeBps: u16, fee: u64)
    requires p.status == Funding && p.vault.sold == p.vault.target
    requires OriginationFee(p.vault.target, feeBps) == Ok(fee)
    ensures Activate(p, feeBps) ==
            if fee <= p.vault.usdc then Ok(State(p.vault.(usdc := p.vault.usdc - fee), Active, fee))
            else Err(TokenInsufficientFunds)
  {
  }

  // ---------- Fairness ----------

  /** With one supply, each distribution splits into `supply` equal rates and its dust. */
  lemma {:induction false} UniformSupply(ps: seq<Payment>, supply: int)
    requires forall i | 0 <= i < |ps| :: ps[i].supply == supply
    ensures supply * RateSum(ps) + DustSum(ps) == PRECISION * AmountSum(ps)
  {
    if ps != [] {
      var x := ps[|ps| - 1];
      UniformSupply(ps[..|ps| - 1], supply);
      RateSplits(x.amount, x.supply);
      Distributes(supply, RateSum(ps[..|ps| - 1]), Rate(x.amount, x.supply));
    }
  }

  lemma ShareAtMost(t: nat, s: nat, w: nat, last: nat, cum: nat, total: nat)
    requires PRECISION * w <= t * last && last <= cum && s * cum <= PRECISION * total
    ensures w * s <= t * total
  {
  }

  lemma ShareAtLeast(t: nat, s: nat, w: nat, n: nat, cum: nat, dust: nat, total: nat)
    requires t * cum <= PRECISION * w + n * (PRECISION - 1) && 0 < n && 0 < s
    requires s * cum + dust == PRECISION * total
    ensures s * PRECISION * (w + n) > t * (PRECISION * total - dust)
  {
  }

  /** What an investor of a reachable project has earned, against the accumulator. */
  lemma ShareBounds(feeBps: u16, target: u64, txs: seq<Instruction>, o: Address)
    requires feeBps <= MAX_FEE_BPS
    ensures var r := Life(feeBps, target, txs); var v, p := r.state.vault, PositionOf(r.state.vault, o);
            && v.cum == RateSum(r.audit.payments)
            && 0 <= Earned(p, v.cum)
            && EarnsShare(p, v.cum, ClaimsOf(r.audit, o), p.held * v.cum)
  {
    var r := Life(feeBps, target, txs);
    LifeInv(feeBps, target, txs);
    var p, n := PositionOf(r.state.vault, o), ClaimsOf(r.audit, o);
    assert TracksPosition(p, n);
    EarnedBounds(p, 0, r.state.vault.cum, n);
  }

  /**
    `e` is at most the share of `t` out of `s` tokens in `total`, and falls short of it by at most
    `n + 1` units and the dust of `d` distributions.
   */
  predicate FairlyPaid(t: int, s: int, e: int, n: int, d: int, total: int) {
    && e * s <= t * total
    && s * PRECISION * (e + n + 1) > t * (PRECISION * total - d * (s - 1))
  }

  /**
    Pro-rata fairness from both sides, in every reachable state and whatever the order of claims: an
    investor with `t` of the `target` tokens has never earned more than t / target of what was
    distributed, and falls short of that share by at most one unit for each claim, one more for what
    is pending now, and the dust.
   */
  lemma ProRata(feeBps: u16, target: u64, txs: seq<Instruction>, o: Address)
    requires feeBps <= MAX_FEE_BPS && target > 0
    ensures var r := Life(feeBps, target, txs); var v, p := r.state.vault, PositionOf(r.state.vault, o);
            var n, d := Roundings(p, v.cum, ClaimsOf(r.audit, o)), |r.audit.payments|;
            FairlyPaid(p.held, target, Earned(p, v.cum), n, d, v.distributed)
  {
    var r := Life(feeBps, target, txs);
    var v, p := r.state.vault, PositionOf(r.state.vault, o);
    var n, dust := Roundings(p, v.cum, ClaimsOf(r.audit, o)), DustSum(r.audit.payments);
    ShareBounds(feeBps, target, txs, o);
    AccrualBounds(feeBps, target, txs);
    FairShare(p.held, target, Earned(p, v.cum), n, v.cum, dust, |r.audit.payments|, v.distributed);
  }

  /** The supply times the accumulator, plus the dust, is what was distributed. */
  lemma AccrualBounds(feeBps: u16, target: u64, txs: seq<Instruction>)
    requires feeBps <= MAX_FEE_BPS && target > 0
    ensures var r := Life(feeBps, target, txs); var v, dust := r.state.vault, DustSum(r.audit.payments);
            target * v.cum + dust == PRECISION * v.distributed && dust <= |r.audit.payments| * (target - 1)
  {
    var r := Life(feeBps, target, txs);
    LifeInv(feeBps, target, txs);
    LifeTarget(feeBps, Recorded(NewProject(target), NO_HISTORY), txs);
    UniformSupply(r.audit.payments, target);
    DustBound(r.audit.payments, target);
  }

  /** The two sides of fairness in plain numbers: `e` earned by `t` of `s` tokens, with `n` roundings. */
  lemma FairShare(t: nat, s: nat, e: nat, n: nat, cum: nat, dust: nat, d: nat, total: nat)
    requires 0 < s
    requires PRECISION * e <= t * cum <= PRECISION * e + (n + 1) * (PRECISION - 1)
    requires s * cum + dust == PRECISION * total && dust <= d * (s - 1)
    ensures FairlyPaid(t, s, e, n, d, total)
  {
    ShareAtMost(t, s, e, cum, cum, total);
    ShareAtLeast(t, s, e, n + 1, cum, dust, total);
    LessDust(t, PRECISION * total, dust, d * (s - 1));
  }

  lemma LessDust(t: nat, total: int, dust: int, bound: int)
    requires dust <= bound
    ensures t * (total - bound) <= t * (total - dust)
  {
  }

  /**
    Claiming often costs at most one unit per claim. Take two runs with the same distributions that
    leave an investor with as many tokens: what the investor has earned, paid or not, differs by at
    most the number of claims made, not counting one that is still current. So whoever claims only
    at the end, or never, has at least as much as anyone; and refused claims cost nothing.
   */
  lemma ClaimFrequency(
      feeBps: u16, target: u64, often: seq<Instruction>,
      feeBps': u16, target': u64, once: seq<Instruction>, o: Address)
    requires feeBps <= MAX_FEE_BPS && feeBps' <= MAX_FEE_BPS
    requires var r, q := Life(feeBps, target, often), Life(feeBps', target', once);
             && r.audit.payments == q.audit.payments
             && PositionOf(r.state.vault, o).held == PositionOf(q.state.vault, o).held
    ensures var r, q := Life(feeBps, target, often), Life(feeBps', target', once);
            var v, w := r.state.vault, q.state.vault; var x, y := PositionOf(v, o), PositionOf(w, o);
            Earned(x, v.cum) - Roundings(y, w.cum, ClaimsOf(q.audit, o))
            <= Earned(y, w.cum)
            <= Earned(x, v.cum) + Roundings(x, v.cum, ClaimsOf(r.audit, o))
  {
    var r, q := Life(feeBps, target, often), Life(feeBps', target', once);
    var v, w := r.state.vault, q.state.vault;
    var x, y := PositionOf(v, o), PositionOf(w, o);
    ShareBounds(feeBps, target, often, o);
    ShareBounds(feeBps', target', once, o);
    EarnedApart(Earned(y, w.cum), Earned(x, v.cum), x.held * v.cum, Roundings(x, v.cum, ClaimsOf(r.audit, o)));
    EarnedApart(Earned(x, v.cum), Earned(y, w.cum), x.held * v.cum, Roundings(y, w.cum, ClaimsOf(q.audit, o)));
  }

  // ---------- What the admin can break ----------

  lemma RunLast(feeBps: u16, r: Recorded<State>, txs: seq<Instruction>, i: Instruction, p: State)
    requires Exec(feeBps, Run(feeBps, r, txs).state, i) == Ok(p)
    ensures Run(feeBps, r, txs + [i]).state == p
  {
  }

  const BOUGHT: seq<Instruction> := [] + [BuyProjectTokens(1, 10, 10)]
  const ACTIVATED: seq<Instruction> := BOUGHT + [ActivateProject]
  const REPAID: seq<Instruction> := ACTIVATED + [DistributeRepayment(10, 10)]
  const DRAINED: seq<Instruction> := REPAID + [WithdrawProjectFunds(15)]
  const HOLDER := map[1 := Position(10, 0, 0)]

  lemma AfterActivation()
    ensures Life(0, 10, ACTIVATED).state == State(Vault(10, 10, 0, 0, HOLDER, 10, 10), Active, 0)
  {
    var r, bought := Recorded(NewProject(10), NO_HISTORY), State(Vault(10, 10, 0, 0, HOLDER, 10, 10), Funding, 0);
    RunLast(0, r, [], BuyProjectTokens(1, 10, 10), bought);
    ActivateOutcome(bought, 0, 0);
    RunLast(0, r, BOUGHT, ActivateProject, bought.(status := Active));
  }

  lemma AfterRepayment()
    ensures Life(0, 10, REPAID).state == State(Vault(10, 10, 10, PRECISION, HOLDER, 20, 10), Repaying, 0)
  {
    AfterActivation();
    assert Rate(10, 10) == PRECISION;
    RunLast(0, Recorded(NewProject(10), NO_HISTORY), ACTIVATED, DistributeRepayment(10, 10),
      State(Vault(10, 10, 10, PRECISION, HOLDER, 20, 10), Repaying, 0));
  }

  lemma HolderIsOwed()
    ensures Owed(HOLDER[1], PRECISION) == 10
  {
  }

  /**
    The vault error that the program calls an invariant violation is reachable: the admin may take
    a repayment out of the vault before the holders claim it.
   */
  lemma AdminCanStarveClaims()
    ensures Claim(Life(0, 10, REPAID).state, 1).Ok?
    ensures Claim(Life(0, 10, DRAINED).state, 1) == Err(InsufficientVaultBalance)
  {
    AfterRepayment();
    var repaid := Life(0, 10, REPAID).state;
    var drained := repaid.(vault := repaid.vault.(usdc := 5));
    RunLast(0, Recorded(NewProject(10), NO_HISTORY), REPAID, WithdrawProjectFunds(15), drained);
    HolderIsOwed();
    ClaimOutcome(repaid.vault, 1);
    ClaimOutcome(drained.vault, 1);
  }
}
