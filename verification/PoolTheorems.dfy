/** What every run of a pool guarantees, what it guarantees only when top-ups are settled, and why. */
module PoolTheorems {
  import opened Types
  import opened Totals
  import opened Accumulator
  import opened Settlement
  import opened Pool

  // ---------- Conservation ----------

  /**
    Conservation over every interleaving of purchases, distributions and claims: the drift of
    unsettled top-ups stands beside what was distributed.
   */
  lemma Conservation(target: u64, txs: seq<Instruction>)
    requires target > 0
    ensures var r := Life(target, txs); var v, a := r.state.vault, r.audit;
            var pending, claimed := Total(Pending(v.positions, v.cum)), Total(Claimed(v.positions));
            && PRECISION * v.distributed + a.drift
               == pending + PRECISION * claimed + DustSum(a.payments) + a.claimDust
            && DustSum(a.payments) <= |a.payments| * (target - 1)
            && a.claimDust <= a.claims * (PRECISION - 1)
            && v.usdc + claimed == v.sold + v.distributed + a.received
            && Total(Held(v.positions)) == v.sold == v.supply <= target
  {
    var r := Life(target, txs);
    LifeInv(target, txs);
    LifeTarget(Recorded(NewPool(target), NO_HISTORY), txs);
    DustBound(r.audit.payments, target);
  }

  lemma {:induction false} LifeTarget(r: Recorded<State>, txs: seq<Instruction>)
    ensures Run(r, txs).state.vault.target == r.state.vault.target
  {
    if txs != [] {
      LifeTarget(r, txs[..|txs| - 1]);
    }
  }

  /**
    The books are exact, without drift, if and only if every top-up was settled. Conservation turns
    this into a bound: pending and claimed stay within the distributions while drift stays within dust.
   */
  lemma ExactIffSettled(target: u64, txs: seq<Instruction>)
    ensures var r := Life(target, txs); var v, a := r.state.vault, r.audit;
            var pending, claimed := Total(Pending(v.positions, v.cum)), Total(Claimed(v.positions));
            && (PRECISION * v.distributed == pending + PRECISION * claimed + DustSum(a.payments) + a.claimDust
                <==> AllSettled(Recorded(NewPool(target), NO_HISTORY), txs))
            && (pending + PRECISION * claimed <= PRECISION * v.distributed
                <==> a.drift <= DustSum(a.payments) + a.claimDust)
  {
    LifeInv(target, txs);
  }

  // ---------- Runs of claims ----------

  /** The instructions by which the investors `os` try to claim, one after the other. */
  function Claims(os: seq<Address>): seq<Instruction> {
    if os == [] then [] else Claims(os[..|os| - 1]) + [ClaimPoolReturns(os[|os| - 1])]
  }

  /** Running claim instructions is attempting the claims, and the history counts the successes. */
  lemma {:induction false} ClaimsRun(r: Recorded<State>, os: seq<Address>)
    ensures var q := Run(r, Claims(os));
            && q.state == r.state.(vault := ClaimAll(r.state.vault, os))
            && q.audit.claims == r.audit.claims + Successes(r.state.vault, os)
  {
    if os != [] {
      var before, txs := os[..|os| - 1], Claims(os);
      ClaimsRun(r, before);
      assert txs[..|txs| - 1] == Claims(before);
      assert Run(r, txs) == Step(Run(r, Claims(before)), ClaimPoolReturns(os[|os| - 1]));
    }
  }

  lemma LifeClaims(target: u64, txs: seq<Instruction>, os: seq<Address>)
    ensures var r, q := Life(target, txs), Life(target, txs + Claims(os));
            && q.state == r.state.(vault := ClaimAll(r.state.vault, os))
            && q.audit.claims == r.audit.claims + Successes(r.state.vault, os)
  {
    RunConcat(Recorded(NewPool(target), NO_HISTORY), txs, Claims(os));
    ClaimsRun(Life(target, txs), os);
  }

  /**
    When every top-up was settled, claims never consume principal: the vault keeps one unit for each
    token sold beside everything owed, every order of claims pays every holder, and no checked
    operation of a claim can fail.
   */
  lemma PrincipalIsSafe(target: u64, txs: seq<Instruction>, os: seq<Address>)
    requires AllSettled(Recorded(NewPool(target), NO_HISTORY), txs)
    ensures var r, q := Life(target, txs), Life(target, txs + Claims(os)); var v, w := r.state.vault, q.state.vault;
            && Regular(v)
            && Total(Claimed(v.positions)) + Total(Payable(v.positions, v.cum)) <= v.distributed
            && v.sold + Total(Payable(v.positions, v.cum)) <= v.usdc
            && v.sold <= w.usdc
            && Open(w) == Open(v) - Claimants(os)
            && q.audit.claims - r.audit.claims == |Open(v) * Claimants(os)|
  {
    var r := Life(target, txs);
    var v := r.state.vault;
    LifeInv(target, txs);
    LifeClaims(target, txs, os);
    NoDriftRegular(v, r.audit, 0);
    AttemptsSettle(v, os);
    PayableSubset(v, Claimants(os));
    SettledOpen(v, Claimants(os), ClaimAll(v, os));
  }

  /**
    Whatever drift there is: when every holder tries to claim, in any order, all are paid in full if
    and only if none of them is stuck and what is owed and was claimed stays within all that came in.
   */
  lemma EveryonePaidIff(target: u64, txs: seq<Instruction>, os: seq<Address>)
    requires forall o | o in Life(target, txs).state.vault.positions :: o in os
    ensures var r := Life(target, txs); var v, a := r.state.vault, r.audit;
            var owed, claimed := Total(Payable(v.positions, v.cum)), Total(Claimed(v.positions));
            Open(Life(target, txs + Claims(os)).state.vault) == {} <==>
            (forall o | o in v.positions :: !Stuck(v, o)) && owed + claimed <= v.sold + v.distributed + a.received
  {
    LifeInv(target, txs);
    LifeClaims(target, txs, os);
    AllPaidIffCovered(Life(target, txs).state.vault, os);
  }

  // ---------- Outcomes ----------

  /** When an instruction ought to succeed, said without machine arithmetic. */
  ghost predicate Enabled(p: State, i: Instruction) {
    var v := p.vault;
    match i
    case BuyPoolTokens(_, amount, funds) =>
      0 < amount <= funds && v.sold + amount <= v.target && v.usdc + amount < TWO_64
    case DistributePoolReturns(amount, funds) =>
      0 < amount <= funds && 0 < v.sold && v.usdc + amount < TWO_64 && v.distributed + amount < TWO_64
    case ClaimPoolReturns(o) =>
      && o in v.positions && 0 < Owed(v.positions[o], v.cum) <= v.usdc
      && v.positions[o].claimed + Owed(v.positions[o], v.cum) < TWO_64
    case ReceiveTransfer(amount) => v.usdc + amount < TWO_64
  }

  lemma EnabledIff(r: Recorded<State>, i: Instruction)
    requires Inv(r)
    ensures Exec(r.state, i).Ok? <==> Enabled(r.state, i)
  {
    var v, a := r.state.vault, r.audit;
    match i
    case BuyPoolTokens(o, amount, funds) => BuySucceeds(v, a, 0, o, amount, funds);
    case DistributePoolReturns(amount, funds) => DistributeSucceeds(v, a, amount, funds);
    case ClaimPoolReturns(o) => ClaimOutcome(v, o);
    case ReceiveTransfer(_) =>
  }

  /** In every reachable state an instruction succeeds exactly when it is enabled, whatever drift there is. */
  lemma SucceedsIffEnabled(target: u64, txs: seq<Instruction>, i: Instruction)
    ensures var p := Life(target, txs).state; Exec(p, i).Ok? <==> Enabled(p, i)
  {
    LifeInv(target, txs);
    EnabledIff(Life(target, txs), i);
  }

  /** Why an instruction is refused that is not enabled: the first reason in the order of the checks. */
  ghost function Refusal(p: State, i: Instruction): Error {
    var v := p.vault;
    match i
    case BuyPoolTokens(_, amount, funds) =>
      if amount == 0 then ZeroAmount
      else if v.target < v.sold + amount then PoolFull
      else if funds < amount then TokenInsufficientFunds
      else TokenOverflow
    case DistributePoolReturns(amount, funds) =>
      if amount == 0 then ZeroAmount
      else if v.sold == 0 then NoTokensSold
      else if funds < amount then TokenInsufficientFunds
      else if v.usdc + amount >= TWO_64 then TokenOverflow
      else MathOverflow
    case ClaimPoolReturns(o) =>
      if o !in v.positions then AccountNotInitialized
      else
        var owed := Owed(v.positions[o], v.cum);
        if owed == 0 then NothingToClaim
        else if v.usdc < owed < TWO_64 then InsufficientVaultBalance
        else MathOverflow
    case ReceiveTransfer(_) => TokenOverflow
  }

  /** In every reachable state an instruction that is not enabled is refused with its own error. */
  lemma RefusedWith(target: u64, txs: seq<Instruction>, i: Instruction)
    requires !Enabled(Life(target, txs).state, i)
    ensures Exec(Life(target, txs).state, i) == Err(Refusal(Life(target, txs).state, i))
  {
    LifeInv(target, txs);
    SucceedsIffEnabled(target, txs, i);
    ErrorOf(Life(target, txs), i);
  }

  lemma ErrorOf(r: Recorded<State>, i: Instruction)
    requires Inv(r) && Exec(r.state, i).Err?
    ensures Exec(r.state, i).error == Refusal(r.state, i)
  {
    match i
    case BuyPoolTokens(o, amount, funds) => BuyRefused(r.state.vault, r.audit, 0, o, amount, funds);
    case DistributePoolReturns(amount, funds) => DistributeRefused(r.state.vault, r.audit, amount, funds);
    case ClaimPoolReturns(o) => ClaimOutcome(r.state.vault, o);
    case ReceiveTransfer(_) =>
  }

  /**
    Besides a lifetime total of distributions that leaves u64, the only checked operations that can
    fail in a pool are those of a claim on a stuck position.
   */
  lemma ArithmeticErrors(target: u64, txs: seq<Instruction>, i: Instruction)
    ensures var p := Life(target, txs).state; var v := p.vault;
            && Exec(p, i) != Err(MathUnderflow)
            && (Exec(p, i) == Err(MathOverflow) <==>
                match i
                case DistributePoolReturns(amount, funds) =>
                  && 0 < amount <= funds && 0 < v.sold
                  && v.usdc + amount <= U64_MAX && v.distributed + amount > U64_MAX
                case ClaimPoolReturns(o) =>
                  && Stuck(v, o)
                  && (Owed(v.positions[o], v.cum) <= v.usdc || Owed(v.positions[o], v.cum) > U64_MAX)
                case _ => false)
  {
    var r := Life(target, txs);
    LifeInv(target, txs);
    match i
    case BuyPoolTokens(o, amount, funds) => BuyInRange(r.state.vault, r.audit, 0, o, amount, funds);
    case DistributePoolReturns(amount, funds) => DistributeInRange(r.state.vault, r.audit, amount, funds);
    case ClaimPoolReturns(o) => ClaimOutcome(r.state.vault, o);
    case ReceiveTransfer(_) =>
  }

  /** Each unit distributed raises the accumulator by at most 10^12. */
  lemma AccumulatorBound(target: u64, txs: seq<Instruction>)
    ensures Life(target, txs).state.vault.cum < 0x1_00_0000_0000_0000_0000_0000_0000
  {
    LifeInv(target, txs);
    RateSumBound(Life(target, txs).audit.payments);
  }

  lemma LargeIsStuck(v: Vault, o: Address)
    requires o in v.positions && Scaled(v.positions[o], v.cum) >= 0x1_00_0000_0000_0000_0000_0000_0000
    ensures Stuck(v, o)
  {
    ScaledSplits(v.positions[o], v.cum);
  }

  /**
    The accumulator stays below 2^104, and so does every product of a claim when all top-ups were
    settled; a product that reaches 2^104 belongs to a stuck position.
   */
  lemma ProductBounds(target: u64, txs: seq<Instruction>, o: Address)
    requires o in Life(target, txs).state.vault.positions
    ensures var v := Life(target, txs).state.vault; var x := v.positions[o];
            && v.cum < 0x1_00_0000_0000_0000_0000_0000_0000
            && (x.held * (v.cum - x.last) < 0x1_00_0000_0000_0000_0000_0000_0000 || Stuck(v, o))
            && (AllSettled(Recorded(NewPool(target), NO_HISTORY), txs) ==>
                x.held * (v.cum - x.last) < 0x1_00_0000_0000_0000_0000_0000_0000)
  {
    var r := Life(target, txs);
    AccumulatorBound(target, txs);
    if Scaled(r.state.vault.positions[o], r.state.vault.cum) >= 0x1_00_0000_0000_0000_0000_0000_0000 {
      LargeIsStuck(r.state.vault, o);
      LifeInv(target, txs);
      if r.audit.drift == 0 {
        BelowTwo104(r.state.vault, r.audit, 0);
      }
    }
  }

  /**
    The amounts in figures: a distribution raises the accumulator by 10^12 times its amount over the
    supply of the moment, and a claim pays the tokens held times the rise since the last one over
    10^12, rounded down.
   */
  lemma ExactAmounts(p: State, i: Instruction)
    requires Exec(p, i).Ok?
    ensures i.DistributePoolReturns? ==>
              var v, w := p.vault, Exec(p, i).value.vault;
              && v.sold > 0
              && w == v.(cum := w.cum, distributed := w.distributed, usdc := w.usdc)
              && w.cum == v.cum + i.amount * 1_000_000_000_000 / v.sold
              && w.distributed == v.distributed + i.amount && w.usdc == v.usdc + i.amount
    ensures i.ClaimPoolReturns? ==>
              var v, w := p.vault, Exec(p, i).value.vault;
              && i.investor in v.positions
              && var x := v.positions[i.investor]; var owed := x.held * (v.cum - x.last) / 1_000_000_000_000;
                 && 0 < owed <= v.usdc && x.claimed + owed < TWO_64
                 && w == v.(usdc := w.usdc, positions := w.positions)
                 && w.usdc == v.usdc - owed
                 && w.positions == v.positions[i.investor := Position(x.held, v.cum, x.claimed + owed)]
  {
    if i.DistributePoolReturns? {
      DistributionInFigures(p.vault, i.amount, i.funds);
    } else if i.ClaimPoolReturns? {
      ClaimInFigures(p.vault, i.investor);
    }
  }

  // ---------- Top-ups ----------

  /**
    A purchase leaves what the buyer is owed unchanged if and only if it is the buyer's first or the
    buyer's snapshot is current; otherwise the new tokens inherit the old distributions.
   */
  lemma PurchaseKeepsEntitlement(target: u64, txs: seq<Instruction>, o: Address, amount: u64, funds: u64)
    requires Buy(Life(target, txs).state, o, amount, funds).Ok?
    ensures var p := Life(target, txs).state;
            var v, w := p.vault, Buy(p, o, amount, funds).value.vault;
            && (Scaled(PositionOf(w, o), w.cum) == Scaled(PositionOf(v, o), v.cum)
                <==> SettledPurchase(p, BuyPoolTokens(o, amount, funds)))
            && Scaled(PositionOf(w, o), w.cum)
               == Scaled(PositionOf(v, o), v.cum) + amount * (v.cum - PositionOf(v, o).last)
            && (forall x | x != o :: PositionOf(w, x) == PositionOf(v, x))
  {
    var v := Life(target, txs).state.vault;
    LifeInv(target, txs);
    BuyEffect(v, o, amount, funds);
    DriftOfPurchase(v, o, amount);
    ScaledChange(PositionOf(v, o), amount, v.cum);
  }

  /** The last instruction of a run. */
  lemma RunLast(target: u64, txs: seq<Instruction>, i: Instruction, p: State)
    requires Exec(Life(target, txs).state, i) == Ok(p)
    ensures Life(target, txs + [i]).state == p
  {
  }

  lemma RunFails(target: u64, txs: seq<Instruction>, i: Instruction)
    requires Exec(Life(target, txs).state, i).Err?
    ensures Life(target, txs + [i]) == Life(target, txs)
  {
  }

  const FIRST: seq<Instruction> := [] + [BuyPoolTokens(1, 1, 1)]
  const SECOND: seq<Instruction> := FIRST + [BuyPoolTokens(2, 99, 99)]
  const OPENING: seq<Instruction> := SECOND + [DistributePoolReturns(50, 50)]
  const HOLDERS := map[1 := Position(1, 0, 0), 2 := Position(99, 0, 0)]

  lemma AfterFirst()
    ensures Life(2000, FIRST).state == State(Vault(2000, 1, 0, 0, map[1 := Position(1, 0, 0)], 1, 1), Funding)
  {
    RunLast(2000, [], BuyPoolTokens(1, 1, 1), State(Vault(2000, 1, 0, 0, map[1 := Position(1, 0, 0)], 1, 1), Funding));
  }

  lemma AfterSecond()
    ensures Life(2000, SECOND).state == State(Vault(2000, 100, 0, 0, HOLDERS, 100, 100), Funding)
  {
    AfterFirst();
    RunLast(2000, FIRST, BuyPoolTokens(2, 99, 99), State(Vault(2000, 100, 0, 0, HOLDERS, 100, 100), Funding));
  }

  lemma AfterOpening()
    ensures Life(2000, OPENING).state == State(Vault(2000, 100, 50, PRECISION / 2, HOLDERS, 150, 100), Funding)
  {
    AfterSecond();
    assert Rate(50, 100) == PRECISION / 2;
    RunLast(2000, SECOND, DistributePoolReturns(50, 50),
      State(Vault(2000, 100, 50, PRECISION / 2, HOLDERS, 150, 100), Funding));
  }

  /**
    Claiming before a top-up is not enough to be settled: a holder with a fraction of a unit pending
    cannot claim it, so the snapshot stays behind. Here investor 1 claims first, is refused, tops
    up, and is then paid 500 of the 50 units ever distributed, out of the principal of others.
   */
  lemma ClaimingFirstIsNotEnough()
    ensures var txs := OPENING + [ClaimPoolReturns(1)] + [BuyPoolTokens(1, 1000, 1000)];
            var p := Life(2000, txs).state;
            && Claim(Life(2000, OPENING).state, 1) == Err(NothingToClaim)
            && Claim(p, 1).Ok?
            && var w := Claim(p, 1).value.vault;
               w.positions[1].claimed == 500 && w.distributed == 50 && w.sold == 1100 && w.usdc == 650
  {
    AfterOpening();
    var p := Life(2000, OPENING).state;
    assert ClaimReturns(p.vault, 1) == Err(NothingToClaim);
    RunFails(2000, OPENING, ClaimPoolReturns(1));
    var ps := map[1 := Position(1001, 0, 0), 2 := Position(99, 0, 0)];
    var q := State(Vault(2000, 1100, 50, PRECISION / 2, ps, 1150, 1100), Funding);
    assert p.vault.positions[1 := Position(1001, 0, 0)] == ps;
    RunLast(2000, OPENING + [ClaimPoolReturns(1)], BuyPoolTokens(1, 1000, 1000), q);
    assert Owed(Position(1001, 0, 0), PRECISION / 2) == 500;
  }

  /**
    What a claim before the top-up does achieve: it leaves the holder settled, or with less than one
    unit pending, exactly when the vault covers the debt and the holder is not stuck. In a pool whose
    top-ups were all settled so far, that is always.
   */
  lemma ClaimThenTopUp(target: u64, txs: seq<Instruction>, o: Address)
    requires o in Life(target, txs).state.vault.positions
    ensures var v, w := Life(target, txs).state.vault, Life(target, txs + [ClaimPoolReturns(o)]).state.vault;
            && o in w.positions
            && (w.positions[o].last == w.cum || Scaled(w.positions[o], w.cum) < PRECISION
                <==> Owed(v.positions[o], v.cum) <= v.usdc && !Stuck(v, o))
            && (AllSettled(Recorded(NewPool(target), NO_HISTORY), txs) ==>
                Owed(v.positions[o], v.cum) <= v.usdc && !Stuck(v, o))
  {
    var r := Life(target, txs);
    LifeInv(target, txs);
    if r.audit.drift == 0 {
      SettledIsCovered(r, o);
    }
    ClaimOutcome(r.state.vault, o);
    ScaledSplits(r.state.vault.positions[o], r.state.vault.cum);
    assert (txs + [ClaimPoolReturns(o)])[..|txs + [ClaimPoolReturns(o)]| - 1] == txs;
    if Claim(r.state, o).Ok? {
      ClaimEffect(r.state.vault, o);
    }
  }

  /** A vault that covers everything owed can pay any one holder. */
  lemma ClaimAffordable(v: Vault, o: Address)
    requires Regular(v) && o in v.positions && Total(Payable(v.positions, v.cum)) <= v.usdc
    ensures 0 <= Owed(v.positions[o], v.cum) <= v.usdc
    ensures ClaimReturns(v, o).Ok? <==> Owed(v.positions[o], v.cum) > 0
  {
    var m := Payable(v.positions, v.cum);
    forall x | x in m
      ensures 0 <= m[x]
    {
      assert RegularPosition(v.positions[x], v.cum);
      ScaledNonNegative(v.positions[x], v.cum);
    }
    EntryAtMostTotal(m, o);
    RegularClaim(v, o);
  }

  /** In a pool without drift the vault covers every debt, and nobody is stuck. */
  lemma SettledIsCovered(r: Recorded<State>, o: Address)
    requires Inv(r) && r.audit.drift == 0 && o in r.state.vault.positions
    ensures Owed(r.state.vault.positions[o], r.state.vault.cum) <= r.state.vault.usdc && !Stuck(r.state.vault, o)
  {
    NoDriftRegular(r.state.vault, r.audit, 0);
    assert RegularPosition(r.state.vault.positions[o], r.state.vault.cum);
    ClaimAffordable(r.state.vault, o);
  }

  // ---------- Positions that can never claim ----------

  lemma OwedGrows(p: Position, cum: int, q: Position, cum': int)
    requires p.held <= q.held && q.last == p.last <= cum <= cum'
    ensures Owed(p, cum) <= Owed(q, cum')
  {
    AtMostProduct(p.held, cum - p.last, cum' - p.last);
    AtMostProduct(cum' - p.last, p.held, q.held);
    assert Scaled(p, cum) <= Scaled(q, cum');
  }

  /** The position of `o` was not paid on the way from `v` to `w`, and is owed no less. */
  ghost predicate Unpaid(v: Vault, w: Vault, o: Address) {
    && o in v.positions && o in w.positions
    && v.cum <= w.cum && w.positions[o].last == v.positions[o].last <= v.cum
    && w.positions[o].claimed == v.positions[o].claimed
    && v.positions[o].held <= w.positions[o].held
    && Owed(v.positions[o], v.cum) <= Owed(w.positions[o], w.cum)
  }

  lemma StepKeepsStuck(r: Recorded<State>, i: Instruction, o: Address)
    requires Stuck(r.state.vault, o) && r.state.vault.positions[o].last <= r.state.vault.cum
    ensures Unpaid(r.state.vault, Step(r, i).state.vault, o)
  {
    var v := r.state.vault;
    ClaimOutcome(v, o);
    if Exec(r.state, i).Ok? {
      var w := Step(r, i).state.vault;
      match i {
        case BuyPoolTokens(x, amount, funds) => BuyEffect(v, x, amount, funds);
        case DistributePoolReturns(amount, funds) => DistributeEffect(v, amount, funds);
        case ClaimPoolReturns(x) => ClaimEffect(v, x);
        case ReceiveTransfer(_) =>
      }
      OwedGrows(v.positions[o], v.cum, w.positions[o], w.cum);
    }
  }

  /** Once a position is stuck, no later instruction lets it claim again. */
  lemma {:induction false} StuckForever(r: Recorded<State>, txs: seq<Instruction>, o: Address)
    requires Stuck(r.state.vault, o) && r.state.vault.positions[o].last <= r.state.vault.cum
    ensures Unpaid(r.state.vault, Run(r, txs).state.vault, o)
    ensures Stuck(Run(r, txs).state.vault, o)
    ensures Claim(Run(r, txs).state, o).Err?
    ensures Owed(r.state.vault.positions[o], r.state.vault.cum) > U64_MAX ==>
              Claim(Run(r, txs).state, o) == Err(MathOverflow)
  {
    if txs != [] {
      StuckForever(r, txs[..|txs| - 1], o);
      StepKeepsStuck(Run(r, txs[..|txs| - 1]), txs[|txs| - 1], o);
    }
    ClaimOutcome(Run(r, txs).state.vault, o);
  }

  /** A position that is not stuck can still be paid: at most a transfer to the vault is missing. */
  lemma OthersCanBePaid(r: Recorded<State>, o: Address)
    requires Inv(r) && o in r.state.vault.positions && !Stuck(r.state.vault, o)
    requires Owed(r.state.vault.positions[o], r.state.vault.cum) > 0
    ensures exists more: seq<Instruction> :: Claim(Run(r, more).state, o).Ok?
  {
    var v := r.state.vault;
    var owed := Owed(v.positions[o], v.cum);
    if owed <= v.usdc {
      ClaimOutcome(v, o);
      assert Claim(Run(r, []).state, o).Ok?;
    } else {
      var more := [] + [ReceiveTransfer(owed - v.usdc)];
      assert Run(r, more).state.vault == v.(usdc := owed);
      ClaimOutcome(v.(usdc := owed), o);
      assert Claim(Run(r, more).state, o).Ok?;
    }
  }

  /**
    Exactly which positions are lost: in every reachable pool, a holder with something to claim is
    refused in every continuation if and only if the claim would take total_claimed out of u64.
   */
  lemma NeverPaidIffStuck(target: u64, txs: seq<Instruction>, o: Address)
    requires var v := Life(target, txs).state.vault; o in v.positions && Owed(v.positions[o], v.cum) > 0
    ensures var r := Life(target, txs);
            (forall more :: Claim(Run(r, more).state, o).Err?) <==> Stuck(r.state.vault, o)
  {
    var r := Life(target, txs);
    LifeInv(target, txs);
    if Stuck(r.state.vault, o) {
      forall more: seq<Instruction>
        ensures Claim(Run(r, more).state, o).Err?
      {
        StuckForever(r, more, o);
      }
    } else {
      OthersCanBePaid(r, o);
    }
  }

  /** What the buyer would be owed right after buying `amount` more tokens. */
  function OwedAfter(x: Position, amount: int, cum: int): int {
    (x.held + amount) * (cum - x.last) / PRECISION
  }

  lemma PurchaseSticks(v: Vault, o: Address, amount: u64, funds: u64)
    requires BuyTokens(v, o, amount, funds).Ok?
    ensures var w, x := BuyTokens(v, o, amount, funds).value, PositionOf(v, o);
            && o in w.positions
            && Owed(w.positions[o], w.cum) == OwedAfter(x, amount, v.cum)
            && (Stuck(w, o) <==> x.claimed + OwedAfter(x, amount, v.cum) > U64_MAX)
            && (forall y | y != o :: Stuck(w, y) <==> Stuck(v, y))
  {
    BuyEffect(v, o, amount, funds);
  }

  /**
    Exactly which purchases lose a position, told before the call: those after which the holder would
    be owed more than total_claimed has room for. No purchase does this to anyone else's position.
   */
  lemma PurchaseSticksIff(target: u64, txs: seq<Instruction>, o: Address, amount: u64, funds: u64)
    requires Buy(Life(target, txs).state, o, amount, funds).Ok?
    ensures var v := Life(target, txs).state.vault; var x := PositionOf(v, o);
            var owed := OwedAfter(x, amount, v.cum);
            var q := Life(target, txs + [BuyPoolTokens(o, amount, funds)]);
            && (Stuck(q.state.vault, o) <==> x.claimed + owed > U64_MAX)
            && (forall y | y != o :: Stuck(q.state.vault, y) <==> Stuck(v, y))
            && (owed > 0 ==>
                ((forall more :: Claim(Run(q, more).state, o).Err?) <==> x.claimed + owed > U64_MAX))
  {
    var v := Life(target, txs).state.vault;
    var buy := BuyPoolTokens(o, amount, funds);
    PurchaseSticks(v, o, amount, funds);
    RunLast(target, txs, buy, Buy(Life(target, txs).state, o, amount, funds).value);
    if OwedAfter(PositionOf(v, o), amount, v.cum) > 0 {
      NeverPaidIffStuck(target, txs + [buy], o);
    }
  }

  const BIG: u64 := 0x2_0000_0000
  const PAID: seq<Instruction> := FIRST + [DistributePoolReturns(BIG, BIG)]
  const TOPPED_UP: seq<Instruction> := PAID + [BuyPoolTokens(1, BIG, BIG)]

  lemma AfterBigPayment()
    ensures Life(2 * BIG, PAID).state
            == State(Vault(2 * BIG, 1, BIG, BIG * PRECISION, map[1 := Position(1, 0, 0)], BIG + 1, 1), Funding)
  {
    var ps := map[1 := Position(1, 0, 0)];
    RunLast(2 * BIG, [], BuyPoolTokens(1, 1, 1), State(Vault(2 * BIG, 1, 0, 0, ps, 1, 1), Funding));
    assert Rate(BIG, 1) == BIG * PRECISION;
    RunLast(2 * BIG, FIRST, DistributePoolReturns(BIG, BIG),
      State(Vault(2 * BIG, 1, BIG, BIG * PRECISION, ps, BIG + 1, 1), Funding));
  }

  lemma AfterBigTopUp()
    ensures Life(2 * BIG, TOPPED_UP).state
            == State(Vault(2 * BIG, 1 + BIG, BIG, BIG * PRECISION, map[1 := Position(1 + BIG, 0, 0)],
                           2 * BIG + 1, 1 + BIG), Funding)
  {
    AfterBigPayment();
    var ps := map[1 := Position(1 + BIG, 0, 0)];
    assert Life(2 * BIG, PAID).state.vault.positions[1 := Position(1 + BIG, 0, 0)] == ps;
    RunLast(2 * BIG, PAID, BuyPoolTokens(1, BIG, BIG),
      State(Vault(2 * BIG, 1 + BIG, BIG, BIG * PRECISION, ps, 2 * BIG + 1, 1 + BIG), Funding));
  }

  /**
    An unsettled top-up can lock a position: with 2^33 units distributed to one token, buying 2^33
    more tokens before claiming makes every later claim overflow. Settled top-ups never do this.
   */
  lemma TopUpCanLock(txs: seq<Instruction>)
    ensures Claim(Life(2 * BIG, PAID).state, 1).Ok?
    ensures Claim(Life(2 * BIG, TOPPED_UP + txs).state, 1) == Err(MathOverflow)
    ensures var v := Life(2 * BIG, TOPPED_UP).state.vault;
            && 1 in v.positions
            && v.positions[1].held * (v.cum - v.positions[1].last) > 0x1_00_0000_0000_0000_0000_0000_0000
  {
    AfterBigPayment();
    assert Owed(Position(1, 0, 0), BIG * PRECISION) == BIG;
    ClaimOutcome(Life(2 * BIG, PAID).state.vault, 1);
    AfterBigTopUp();
    assert Owed(Position(1 + BIG, 0, 0), BIG * PRECISION) == (1 + BIG) * BIG;
    RunConcat(Recorded(NewPool(2 * BIG), NO_HISTORY), TOPPED_UP, txs);
    StuckForever(Life(2 * BIG, TOPPED_UP), txs, 1);
  }

  const MOST: u64 := U64_MAX - 10
  const ALMOST: seq<Instruction> := FIRST + [DistributePoolReturns(MOST, MOST)]
  const CLAIMED: seq<Instruction> := ALMOST + [ClaimPoolReturns(1)]
  const FIVE_MORE: seq<Instruction> := CLAIMED + [DistributePoolReturns(5, 5)]
  const NINE_BOUGHT: seq<Instruction> := FIVE_MORE + [BuyPoolTokens(1, 9, 9)]
  const COVERED: seq<Instruction> := NINE_BOUGHT + [BuyPoolTokens(2, 100, 100)]

  lemma AfterAlmostAll()
    ensures Life(1000, CLAIMED).state
            == State(Vault(1000, 1, MOST, MOST * PRECISION,
                           map[1 := Position(1, MOST * PRECISION, MOST)], 1, 1), Funding)
  {
    var ps := map[1 := Position(1, 0, 0)];
    RunLast(1000, [], BuyPoolTokens(1, 1, 1), State(Vault(1000, 1, 0, 0, ps, 1, 1), Funding));
    assert Rate(MOST, 1) == MOST * PRECISION;
    var almost := State(Vault(1000, 1, MOST, MOST * PRECISION, ps, MOST + 1, 1), Funding);
    RunLast(1000, FIRST, DistributePoolReturns(MOST, MOST), almost);
    assert Owed(Position(1, 0, 0), MOST * PRECISION) == MOST;
    ClaimOutcome(almost.vault, 1);
    ClaimEffect(almost.vault, 1);
    RunLast(1000, ALMOST, ClaimPoolReturns(1), Claim(almost, 1).value);
  }

  lemma AfterFiveMore()
    ensures Life(1000, FIVE_MORE).state
            == State(Vault(1000, 1, MOST + 5, (MOST + 5) * PRECISION,
                           map[1 := Position(1, MOST * PRECISION, MOST)], 6, 1), Funding)
  {
    AfterAlmostAll();
    assert Rate(5, 1) == 5 * PRECISION;
    RunLast(1000, CLAIMED, DistributePoolReturns(5, 5),
      State(Vault(1000, 1, MOST + 5, (MOST + 5) * PRECISION,
                  map[1 := Position(1, MOST * PRECISION, MOST)], 6, 1), Funding));
  }

  /**
    A position can be stuck on a small debt that the vault covers: investor 1, whose total_claimed
    is close to the limit, tops up unsettled, and 50 of the 115 units in the vault are out of reach.
   */
  lemma SmallDebtCanStick(txs: seq<Instruction>)
    ensures var v := Life(1000, COVERED).state.vault;
            && 1 in v.positions && Owed(v.positions[1], v.cum) == 50 && v.usdc == 115
            && Claim(Life(1000, COVERED).state, 1) == Err(MathOverflow)
            && Claim(Run(Life(1000, COVERED), txs).state, 1).Err?
  {
    AfterFiveMore();
    var x, cum := Position(10, MOST * PRECISION, MOST), (MOST + 5) * PRECISION;
    var more := Life(1000, FIVE_MORE).state;
    var bought := State(Vault(1000, 10, MOST + 5, cum, map[1 := x], 15, 10), Funding);
    assert more.vault.positions[1 := x] == map[1 := x];
    RunLast(1000, FIVE_MORE, BuyPoolTokens(1, 9, 9), bought);
    var covered := bought.(vault := Vault(1000, 110, MOST + 5, cum, map[1 := x, 2 := Position(100, cum, 0)], 115, 110));
    assert map[1 := x][2 := Position(100, cum, 0)] == map[1 := x, 2 := Position(100, cum, 0)];
    RunLast(1000, NINE_BOUGHT, BuyPoolTokens(2, 100, 100), covered);
    assert Owed(x, cum) == 50;
    ClaimOutcome(covered.vault, 1);
    StuckForever(Life(1000, COVERED), txs, 1);
  }

  // ---------- Late buyers ----------

  /** An investor stands the same in two pools, except for what was distributed before. */
  ghost predicate SameFor(p: State, q: State, o: Address) {
    && p.status == q.status && p.vault.target == q.vault.target && p.vault.sold == q.vault.sold
    && (o in p.vault.positions <==> o in q.vault.positions)
    && (o in p.vault.positions ==>
        var x, y := p.vault.positions[o], q.vault.positions[o];
        x.held == y.held && x.claimed == y.claimed && p.vault.cum - x.last == q.vault.cum - y.last)
  }

  /** USDC that an instruction brings into the vault if it succeeds. */
  function Brings(i: Instruction): nat {
    match i
    case BuyPoolTokens(_, amount, _) => amount
    case DistributePoolReturns(amount, _) => amount
    case ClaimPoolReturns(_) => 0
    case ReceiveTransfer(amount) => amount
  }

  function Incoming(txs: seq<Instruction>): nat {
    if txs == [] then 0 else Incoming(txs[..|txs| - 1]) + Brings(txs[|txs| - 1])
  }

  /** No instruction in `txs` can bring the vault's balance or lifetime total out of u64. */
  predicate HasRoom(v: Vault, txs: seq<Instruction>) {
    v.usdc + Incoming(txs) <= U64_MAX && v.distributed + Incoming(txs) <= U64_MAX
  }

  lemma StepBrings(r: Recorded<State>, i: Instruction)
    ensures var v, w := r.state.vault, Step(r, i).state.vault;
            w.usdc <= v.usdc + Brings(i) && w.distributed <= v.distributed + Brings(i)
  {
  }

  lemma {:induction false} RunBrings(r: Recorded<State>, txs: seq<Instruction>)
    ensures var v, w := r.state.vault, Run(r, txs).state.vault;
            w.usdc <= v.usdc + Incoming(txs) && w.distributed <= v.distributed + Incoming(txs)
  {
    if txs != [] {
      RunBrings(r, txs[..|txs| - 1]);
      StepBrings(Run(r, txs[..|txs| - 1]), txs[|txs| - 1]);
    }
  }

  /** No claim of `o` in the run finds the vault too short to pay it. */
  predicate NeverShort(r: Recorded<State>, txs: seq<Instruction>, o: Address) {
    txs == [] ||
    (var before, i := txs[..|txs| - 1], txs[|txs| - 1];
     && NeverShort(r, before, o)
     && (i == ClaimPoolReturns(o) ==> Claim(Run(r, before).state, o) != Err(InsufficientVaultBalance)))
  }

  /** With room in both vaults, purchases, distributions and transfers do not tell them apart. */
  lemma SameSuccess(r: Recorded<State>, s: Recorded<State>, i: Instruction)
    requires Inv(r) && Inv(s) && !i.ClaimPoolReturns?
    requires r.state.vault.sold == s.state.vault.sold && r.state.vault.target == s.state.vault.target
    requires HasRoom(r.state.vault, [] + [i]) && HasRoom(s.state.vault, [] + [i])
    ensures Exec(r.state, i).Ok? <==> Exec(s.state, i).Ok?
  {
    EnabledIff(r, i);
    EnabledIff(s, i);
  }

  lemma SameBuy(r: Recorded<State>, s: Recorded<State>, i: Instruction, o: Address)
    requires SameFor(r.state, s.state, o) && i.BuyPoolTokens?
    requires Exec(r.state, i).Ok? <==> Exec(s.state, i).Ok?
    ensures SameFor(Step(r, i).state, Step(s, i).state, o)
  {
  }

  lemma SameDistribute(r: Recorded<State>, s: Recorded<State>, i: Instruction, o: Address)
    requires SameFor(r.state, s.state, o) && i.DistributePoolReturns?
    requires Exec(r.state, i).Ok? <==> Exec(s.state, i).Ok?
    ensures SameFor(Step(r, i).state, Step(s, i).state, o)
  {
  }

  lemma SameOwnClaim(p: State, q: State, o: Address)
    requires SameFor(p, q, o)
    requires ClaimReturns(p.vault, o).Ok? <==> ClaimReturns(q.vault, o).Ok?
    ensures SameFor(p.(vault := TryClaim(p.vault, o)), q.(vault := TryClaim(q.vault, o)), o)
  {
  }

  /** A claim of someone else changes nothing that concerns `o`. */
  lemma OtherClaim(p: State, x: Address, o: Address)
    requires x != o
    ensures SameFor(p, p.(vault := TryClaim(p.vault, x)), o)
  {
  }

  lemma SameClaim(r: Recorded<State>, s: Recorded<State>, x: Address, o: Address)
    requires Inv(r) && Inv(s) && SameFor(r.state, s.state, o)
    requires x == o ==> Claim(r.state, o) != Err(InsufficientVaultBalance)
    requires x == o ==> Claim(s.state, o) != Err(InsufficientVaultBalance)
    ensures SameFor(r.state.(vault := TryClaim(r.state.vault, x)), s.state.(vault := TryClaim(s.state.vault, x)), o)
  {
    if x != o {
      OtherClaim(r.state, x, o);
      OtherClaim(s.state, x, o);
    } else {
      ClaimOutcome(r.state.vault, o);
      ClaimOutcome(s.state.vault, o);
      SameOwnClaim(r.state, s.state, o);
    }
  }

  lemma SameStep(r: Recorded<State>, s: Recorded<State>, i: Instruction, o: Address)
    requires Inv(r) && Inv(s) && SameFor(r.state, s.state, o)
    requires HasRoom(r.state.vault, [] + [i]) && HasRoom(s.state.vault, [] + [i])
    requires i == ClaimPoolReturns(o) ==> Claim(r.state, o) != Err(InsufficientVaultBalance)
    requires i == ClaimPoolReturns(o) ==> Claim(s.state, o) != Err(InsufficientVaultBalance)
    ensures SameFor(Step(r, i).state, Step(s, i).state, o)
  {
    if !i.ClaimPoolReturns? {
      SameSuccess(r, s, i);
    }
    match i
    case BuyPoolTokens(_, _, _) => SameBuy(r, s, i, o);
    case DistributePoolReturns(_, _) => SameDistribute(r, s, i, o);
    case ClaimPoolReturns(x) => SameClaim(r, s, x, o);
    case ReceiveTransfer(_) =>
  }

  /** The vault still has room for the last instruction when its turn comes. */
  lemma RoomForLast(r: Recorded<State>, txs: seq<Instruction>)
    requires txs != [] && HasRoom(r.state.vault, txs)
    ensures HasRoom(r.state.vault, txs[..|txs| - 1])
    ensures HasRoom(Run(r, txs[..|txs| - 1]).state.vault, [] + [txs[|txs| - 1]])
  {
    RunBrings(r, txs[..|txs| - 1]);
  }

  lemma {:induction false} SameRuns(r: Recorded<State>, s: Recorded<State>, txs: seq<Instruction>, o: Address)
    requires Inv(r) && Inv(s) && SameFor(r.state, s.state, o)
    requires HasRoom(r.state.vault, txs) && HasRoom(s.state.vault, txs)
    requires NeverShort(r, txs, o) && NeverShort(s, txs, o)
    ensures SameFor(Run(r, txs).state, Run(s, txs).state, o)
  {
    if txs != [] {
      var before, i := txs[..|txs| - 1], txs[|txs| - 1];
      RoomForLast(r, txs);
      RoomForLast(s, txs);
      RunInv(r, before);
      RunInv(s, before);
      SameRuns(r, s, before, o);
      SameStep(Run(r, before), Run(s, before), i, o);
    }
  }

  lemma {:induction false} RunConcat(r: Recorded<State>, txs: seq<Instruction>, more: seq<Instruction>)
    ensures Run(r, txs + more) == Run(Run(r, txs), more)
  {
    if more == [] {
      assert txs + more == txs;
    } else {
      RunConcat(r, txs, more[..|more| - 1]);
      assert (txs + more)[..|txs + more| - 1] == txs + more[..|more| - 1];
    }
  }

  /**
    Late-buyer isolation: take two pools with the same supply but different pasts, in neither of
    which the investor holds a position. If the same instructions follow, the amounts fit in u64, and
    no claim of the investor finds the vault short, then the investor ends with the same tokens, the
    same payouts and the same debt: earlier distributions leave no trace, whatever others top up.
   */
  lemma LateBuyerIsolation(
      target: u64, past: seq<Instruction>, past': seq<Instruction>, future: seq<Instruction>, o: Address)
    requires var p, q := Life(target, past).state, Life(target, past').state;
             && p.vault.sold == q.vault.sold && o !in p.vault.positions && o !in q.vault.positions
             && HasRoom(p.vault, future) && HasRoom(q.vault, future)
    requires NeverShort(Life(target, past), future, o) && NeverShort(Life(target, past'), future, o)
    ensures var v, w := Life(target, past + future).state.vault, Life(target, past' + future).state.vault;
            && PositionOf(v, o).claimed == PositionOf(w, o).claimed
            && PositionOf(v, o).held == PositionOf(w, o).held
            && Owed(PositionOf(v, o), v.cum) == Owed(PositionOf(w, o), w.cum)
  {
    var r := Recorded(NewPool(target), NO_HISTORY);
    RunConcat(r, past, future);
    RunConcat(r, past', future);
    SameStart(target, past, past', o);
    SameRuns(Life(target, past), Life(target, past'), future, o);
    SameStanding(Life(target, past + future).state, Life(target, past' + future).state, o);
  }

  /** When every top-up is settled, no claim ever finds the vault short. */
  lemma {:induction false} SettledNeverShort(target: u64, past: seq<Instruction>, txs: seq<Instruction>, o: Address)
    requires AllSettled(Recorded(NewPool(target), NO_HISTORY), past + txs)
    ensures NeverShort(Life(target, past), txs, o)
  {
    if txs != [] {
      var before := txs[..|txs| - 1];
      assert (past + txs)[..|past + txs| - 1] == past + before;
      SettledNeverShort(target, past, before, o);
      RunConcat(Recorded(NewPool(target), NO_HISTORY), past, before);
      LifeInv(target, past + before);
      var r := Life(target, past + before);
      ClaimOutcome(r.state.vault, o);
      if o in r.state.vault.positions {
        SettledIsCovered(r, o);
      }
    }
  }

  /** Two pasts that differ in nothing but the amounts distributed, and who could afford them. */
  predicate OnlyDistributionsDiffer(txs: seq<Instruction>, txs': seq<Instruction>) {
    && |txs| == |txs'|
    && forall n | 0 <= n < |txs| ::
         txs[n] == txs'[n] || (txs[n].DistributePoolReturns? && txs'[n].DistributePoolReturns?)
  }

  /** Distributions have no part in who holds how many tokens. */
  lemma {:induction false} SameSales(target: u64, txs: seq<Instruction>, txs': seq<Instruction>)
    requires OnlyDistributionsDiffer(txs, txs')
    requires Incoming(txs) <= U64_MAX && Incoming(txs') <= U64_MAX
    ensures var v, w := Life(target, txs).state.vault, Life(target, txs').state.vault;
            v.sold == w.sold && v.positions.Keys == w.positions.Keys
  {
    if txs != [] {
      var start := Recorded(NewPool(target), NO_HISTORY);
      var before, before', i, j := txs[..|txs| - 1], txs'[..|txs| - 1], txs[|txs| - 1], txs'[|txs| - 1];
      SameSales(target, before, before');
      RoomForLast(start, txs);
      RoomForLast(start, txs');
      if i.BuyPoolTokens? {
        LifeInv(target, before);
        LifeInv(target, before');
        LifeTarget(start, before);
        LifeTarget(start, before');
        SameSuccess(Life(target, before), Life(target, before'), i);
      }
      SameSale(Life(target, before), Life(target, before'), i, j);
    }
  }

  /** Only a purchase changes the supply and who has a position. */
  lemma SameSale(r: Recorded<State>, s: Recorded<State>, i: Instruction, j: Instruction)
    requires i == j || (i.DistributePoolReturns? && j.DistributePoolReturns?)
    requires r.state.vault.sold == s.state.vault.sold
    requires r.state.vault.positions.Keys == s.state.vault.positions.Keys
    requires i.BuyPoolTokens? ==> (Exec(r.state, i).Ok? <==> Exec(s.state, i).Ok?)
    ensures Step(r, i).state.vault.sold == Step(s, j).state.vault.sold
    ensures Step(r, i).state.vault.positions.Keys == Step(s, j).state.vault.positions.Keys
  {
  }

  /**
    The settled case: in two pools whose pasts differ only in what was distributed, and in which
    every top-up is settled, a later buyer gets the same tokens, the same payouts and the same debt.
   */
  lemma EarlierDistributionsLeaveNoTrace(
      target: u64, past: seq<Instruction>, past': seq<Instruction>, future: seq<Instruction>, o: Address)
    requires OnlyDistributionsDiffer(past, past') && o !in Life(target, past).state.vault.positions
    requires Incoming(past) + Incoming(future) <= U64_MAX && Incoming(past') + Incoming(future) <= U64_MAX
    requires AllSettled(Recorded(NewPool(target), NO_HISTORY), past + future)
    requires AllSettled(Recorded(NewPool(target), NO_HISTORY), past' + future)
    ensures var v, w := Life(target, past + future).state.vault, Life(target, past' + future).state.vault;
            && PositionOf(v, o).claimed == PositionOf(w, o).claimed
            && PositionOf(v, o).held == PositionOf(w, o).held
            && Owed(PositionOf(v, o), v.cum) == Owed(PositionOf(w, o), w.cum)
  {
    SameSales(target, past, past');
    assert o !in Life(target, past').state.vault.positions.Keys;
    RunBrings(Recorded(NewPool(target), NO_HISTORY), past);
    RunBrings(Recorded(NewPool(target), NO_HISTORY), past');
    SettledNeverShort(target, past, future, o);
    SettledNeverShort(target, past', future, o);
    LateBuyerIsolation(target, past, past', future, o);
  }

  lemma SameStanding(p: State, q: State, o: Address)
    requires SameFor(p, q, o)
    ensures PositionOf(p.vault, o).claimed == PositionOf(q.vault, o).claimed
    ensures PositionOf(p.vault, o).held == PositionOf(q.vault, o).held
    ensures Owed(PositionOf(p.vault, o), p.vault.cum) == Owed(PositionOf(q.vault, o), q.vault.cum)
  {
  }

  lemma SameStart(target: u64, past: seq<Instruction>, past': seq<Instruction>, o: Address)
    requires var p, q := Life(target, past).state, Life(target, past').state;
             p.vault.sold == q.vault.sold && o !in p.vault.positions && o !in q.vault.positions
    ensures Inv(Life(target, past)) && Inv(Life(target, past'))
    ensures SameFor(Life(target, past).state, Life(target, past').state, o)
  {
    LifeInv(target, past);
    LifeInv(target, past');
    LifeTarget(Recorded(NewPool(target), NO_HISTORY), past);
    LifeTarget(Recorded(NewPool(target), NO_HISTORY), past');
  }

  /** The investor never tops up in the run. */
  predicate NeverBuys(txs: seq<Instruction>, o: Address) {
    forall i | 0 <= i < |txs| :: txs[i].BuyPoolTokens? ==> txs[i].investor != o
  }

  /** A position that has earned from the accumulator value `start` on. */
  ghost predicate EarnsSince(v: Vault, a: Audit, o: Address, held: u64, start: int, claims: nat) {
    o in v.positions &&
    var p := v.positions[o];
    && p.held == held && start <= p.last <= v.cum && claims <= ClaimsOf(a, o)
    && PRECISION * p.claimed <= held * (p.last - start)
       <= PRECISION * p.claimed + (ClaimsOf(a, o) - claims) * (PRECISION - 1)
  }

  lemma ClaimEarns(p: Position, cum: u128, start: int, owed: nat)
    requires owed == Owed(p, cum)
    ensures p.held * (cum - start) == p.held * (p.last - start) + PRECISION * owed + Scaled(p, cum) % PRECISION
  {
  }

  lemma StepEarns(r: Recorded<State>, i: Instruction, o: Address, held: u64, start: int, claims: nat)
    requires EarnsSince(r.state.vault, r.audit, o, held, start, claims)
    requires i.BuyPoolTokens? ==> i.investor != o
    ensures var q := Step(r, i); EarnsSince(q.state.vault, q.audit, o, held, start, claims)
    ensures r.audit.payments <= Step(r, i).audit.payments
    ensures Step(r, i).state.vault.cum - r.state.vault.cum
            == RateSum(Step(r, i).audit.payments) - RateSum(r.audit.payments)
  {
    var v := r.state.vault;
    if Exec(r.state, i).Ok? {
      match i
      case BuyPoolTokens(x, amount, funds) => BuyEffect(v, x, amount, funds);
      case DistributePoolReturns(amount, funds) =>
        DistributeEffect(v, amount, funds);
        AppendPayment(r.audit.payments, Payment(amount, v.sold));
      case ClaimPoolReturns(x) =>
        ClaimEffect(v, x);
        ClaimEarns(v.positions[x], v.cum, start, Owed(v.positions[x], v.cum));
      case ReceiveTransfer(_) =>
    }
  }

  lemma {:induction false} RunEarns(
      r: Recorded<State>, txs: seq<Instruction>, o: Address, held: u64, start: int, claims: nat)
    requires EarnsSince(r.state.vault, r.audit, o, held, start, claims) && NeverBuys(txs, o)
    ensures var q := Run(r, txs); EarnsSince(q.state.vault, q.audit, o, held, start, claims)
    ensures r.audit.payments <= Run(r, txs).audit.payments
    ensures Run(r, txs).state.vault.cum - r.state.vault.cum
            == RateSum(Run(r, txs).audit.payments) - RateSum(r.audit.payments)
  {
    if txs != [] {
      RunEarns(r, txs[..|txs| - 1], o, held, start, claims);
      StepEarns(Run(r, txs[..|txs| - 1]), txs[|txs| - 1], o, held, start, claims);
    }
  }

  lemma {:induction false} RateSumConcat(ps: seq<Payment>, qs: seq<Payment>)
    ensures RateSum(ps + qs) == RateSum(ps) + RateSum(qs)
  {
    if qs == [] {
      assert ps + qs == ps;
    } else {
      assert ps + qs == (ps + qs[..|qs| - 1]) + [qs[|qs| - 1]];
      AppendPayment(ps + qs[..|qs| - 1], qs[|qs| - 1]);
      RateSumConcat(ps, qs[..|qs| - 1]);
    }
  }

  /**
    What a late buyer earns: a position opened with one purchase and not topped up has at all times
    earned, claimed or not, its tokens times the rates of the distributions made since, up to a
    fraction of a unit for each claim and one for what is pending now; each of those rates divides by
    the supply of its own time. This holds in every run, whether or not the others settle before they
    top up.
   */
  lemma LateBuyerEarnings(
      target: u64, past: seq<Instruction>, o: Address, amount: u64, funds: u64, future: seq<Instruction>)
    requires o !in Life(target, past).state.vault.positions
    requires Buy(Life(target, past).state, o, amount, funds).Ok?
    requires NeverBuys(future, o)
    ensures var before, q := Life(target, past), Life(target, past + [BuyPoolTokens(o, amount, funds)] + future);
            && before.audit.payments <= q.audit.payments
            && o in q.state.vault.positions
            && var since := q.audit.payments[|before.audit.payments|..];
               var p, cum := q.state.vault.positions[o], q.state.vault.cum;
               && p.held == amount
               && EarnsShare(p, cum, ClaimsOf(q.audit, o), amount * RateSum(since))
  {
    var before, buy := Life(target, past), BuyPoolTokens(o, amount, funds);
    var start := Step(before, buy);
    LifeInv(target, past);
    FirstPurchase(before, o, amount, funds);
    RunEarns(start, future, o, amount, before.state.vault.cum, 0);
    LifeOfLateBuyer(target, past, buy, future);
    RatesSince(before.audit.payments, Run(start, future).audit.payments);
    PositionEarns(Run(start, future), o, amount, before.state.vault.cum);
  }

  /** A first purchase starts to earn at the current accumulator. */
  lemma FirstPurchase(r: Recorded<State>, o: Address, amount: u64, funds: u64)
    requires Inv(r) && o !in r.state.vault.positions && Buy(r.state, o, amount, funds).Ok?
    ensures var q := Step(r, BuyPoolTokens(o, amount, funds));
            && EarnsSince(q.state.vault, q.audit, o, amount, r.state.vault.cum, 0)
            && q.state.vault.cum == r.state.vault.cum && q.audit.payments == r.audit.payments
  {
    BuyEffect(r.state.vault, o, amount, funds);
  }

  lemma LifeOfLateBuyer(target: u64, past: seq<Instruction>, i: Instruction, future: seq<Instruction>)
    ensures Life(target, past + [i] + future) == Run(Step(Life(target, past), i), future)
  {
    assert (past + [i])[..|past + [i]| - 1] == past;
    RunConcat(Recorded(NewPool(target), NO_HISTORY), past + [i], future);
  }

  lemma PositionEarns(r: Recorded<State>, o: Address, held: u64, start: int)
    requires EarnsSince(r.state.vault, r.audit, o, held, start, 0)
    ensures var p, cum := r.state.vault.positions[o], r.state.vault.cum;
            EarnsShare(p, cum, ClaimsOf(r.audit, o), held * (cum - start))
  {
    EarnedBounds(r.state.vault.positions[o], start, r.state.vault.cum, ClaimsOf(r.audit, o));
  }

  lemma RatesSince(ps: seq<Payment>, qs: seq<Payment>)
    requires ps <= qs
    ensures RateSum(qs) == RateSum(ps) + RateSum(qs[|ps|..])
  {
    assert qs == ps + qs[|ps|..];
    RateSumConcat(ps, qs[|ps|..]);
  }

  lemma AtMostProduct(t: nat, x: int, y: int)
    requires x <= y
    ensures t * x <= t * y
  {
  }
}
