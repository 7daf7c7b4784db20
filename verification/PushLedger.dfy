/**
  The simple ledger that the accumulator stands for: it credits every holder at every distribution
  and keeps no snapshots. Every run of a project, and every run of a pool with settled top-ups, is a
  run of this ledger.
 */
module PushLedger {
  import opened Types
  import opened Totals
  import opened Accumulator
  import opened Settlement
  import Project
  import Pool

  datatype Ledger = Ledger(
    shares: map<Address, int>,
    credit: map<Address, int>,  // unpaid, in units of 1 / PRECISION
    paid: map<Address, int>
  )

  const EMPTY := Ledger(map[], map[], map[])

  ghost function Distributed(l: Ledger, amount: nat): Ledger {
    var supply := Total(l.shares);
    if supply <= 0 then l
    else l.(credit := map o | o in l.credit :: l.credit[o] + At(l.shares, o) * (amount * PRECISION / supply))
  }

  function Changed(l: Ledger, o: Address, change: int): Ledger {
    Ledger(l.shares[o := At(l.shares, o) + change], l.credit[o := At(l.credit, o)], l.paid[o := At(l.paid, o)])
  }

  /** Pays the whole units of the credit and drops the fraction. */
  function Paid(l: Ledger, o: Address): Ledger {
    l.(credit := l.credit[o := 0], paid := l.paid[o := At(l.paid, o) + At(l.credit, o) / PRECISION])
  }

  /** The ledger that a vault represents. */
  function Represents(v: Vault): Ledger {
    Ledger(Held(v.positions), Pending(v.positions, v.cum), Claimed(v.positions))
  }

  // ---------- One operation ----------

  lemma RaiseRefines(ps: map<Address, Position>, cum: int, rate: int)
    ensures Pending(ps, cum + rate)
            == map o | o in Pending(ps, cum) :: Pending(ps, cum)[o] + At(Held(ps), o) * rate
  {
    forall o | o in ps
      ensures Scaled(ps[o], cum + rate) == Scaled(ps[o], cum) + At(Held(ps), o) * rate
    {
      ScaledRaise(ps[o], cum, rate);
    }
  }

  lemma DistributeRefines(v: Vault, amount: u64, funds: u64)
    requires SharesAgree(v) && Distribute(v, amount, funds).Ok?
    ensures Represents(Distribute(v, amount, funds).value) == Distributed(Represents(v), amount)
  {
    DistributeEffect(v, amount, funds);
    RaiseRefines(v.positions, v.cum, Rate(amount, v.sold));
  }

  /** A claim fails when the ledger has no whole unit to pay, or the vault does not cover it. */
  lemma ClaimMatches(v: Vault, o: Address)
    requires Regular(v)
    ensures ClaimReturns(v, o).Ok? <==>
            o in Represents(v).shares && 0 < At(Represents(v).credit, o) / PRECISION <= v.usdc
  {
  }

  /** A successful claim pays what the ledger would pay. */
  lemma ClaimRefines(v: Vault, o: Address)
    requires ClaimReturns(v, o).Ok?
    ensures Represents(ClaimReturns(v, o).value) == Paid(Represents(v), o)
  {
    ClaimEffect(v, o);
    SettleRefines(v, o, ClaimReturns(v, o).value);
  }

  lemma SettleRefines(v: Vault, o: Address, w: Vault)
    requires o in v.positions && w.cum == v.cum
    requires var p := v.positions[o];
             && 0 <= p.claimed + Owed(p, v.cum) <= U64_MAX
             && w.positions == v.positions[o := Position(p.held, v.cum, p.claimed + Owed(p, v.cum))]
    ensures Represents(w) == Paid(Represents(v), o)
  {
    var settled := w.positions[o];
    WriteRefines(v, o, settled);
    assert Scaled(settled, v.cum) == 0 by {
      ScaledSplits(settled, v.cum);
    }
    assert Held(v.positions)[o := settled.held] == Held(v.positions);
  }

  lemma WriteRefines(v: Vault, o: Address, p: Position)
    ensures var ps := v.positions[o := p];
            && Held(ps) == Held(v.positions)[o := p.held]
            && Claimed(ps) == Claimed(v.positions)[o := p.claimed]
            && Pending(ps, v.cum) == Pending(v.positions, v.cum)[o := Scaled(p, v.cum)]
  {
  }

  /** A change of shares refines the ledger's exactly when it does not drift. */
  lemma SharesRefine(v: Vault, o: Address, change: int, w: Vault)
    requires 0 <= PositionOf(v, o).held + change <= U64_MAX
    requires w.cum == v.cum
    requires var p := PositionOf(v, o); w.positions == v.positions[o := p.(held := p.held + change)]
    ensures Represents(w) == Changed(Represents(v), o, change) <==> Drift(v, o, change) == 0
  {
    var p := PositionOf(v, o);
    WriteRefines(v, o, p.(held := p.held + change));
    ScaledChange(p, change, v.cum);
    assert Pending(w.positions, w.cum)[o] == Scaled(p.(held := p.held + change), v.cum);
    assert At(Pending(v.positions, v.cum), o) == Scaled(p, v.cum);
  }

  // ---------- Runs of a project ----------

  ghost function ProjectStep(l: Ledger, i: Project.Instruction): Ledger {
    match i
    case BuyProjectTokens(o, amount, _) => Changed(l, o, amount)
    case WithdrawInvestment(o, _) => Changed(l, o, -At(l.shares, o))
    case DistributeRepayment(amount, _) => Distributed(l, amount)
    case ClaimProjectReturns(o) => Paid(l, o)
    case _ => l
  }

  /** The ledger's run: it follows the successful instructions of the project's run. */
  ghost function ProjectLedger(feeBps: u16, target: u64, txs: seq<Project.Instruction>): Ledger {
    if txs == [] then EMPTY
    else
      var before, i := txs[..|txs| - 1], txs[|txs| - 1];
      var l := ProjectLedger(feeBps, target, before);
      if Project.Exec(feeBps, Project.Life(feeBps, target, before).state, i).Ok? then ProjectStep(l, i) else l
  }

  lemma BuyRefines(p: Project.State, a: Audit, o: Address, amount: u64, funds: u64)
    requires Project.Lifecycle(p, a) && Project.Buy(p, o, amount, funds).Ok?
    ensures Represents(Project.Buy(p, o, amount, funds).value.vault) == Changed(Represents(p.vault), o, amount)
  {
    BuyEffect(p.vault, o, amount, funds);
    SharesRefine(p.vault, o, amount, BuyTokens(p.vault, o, amount, funds).value);
  }

  lemma WithdrawRefines(p: Project.State, a: Audit, o: Address, tokens: u64)
    requires Project.Lifecycle(p, a) && Project.Withdraw(p, o, tokens).Ok?
    ensures var l := Represents(p.vault);
            Represents(Project.Withdraw(p, o, tokens).value.vault) == Changed(l, o, -At(l.shares, o))
  {
    RefundEffect(p.vault, o, tokens);
    SharesRefine(p.vault, o, -(p.vault.positions[o].held as int), RefundTokens(p.vault, o, tokens).value);
  }

  lemma ProjectStepRefines(feeBps: u16, r: Recorded<Project.State>, i: Project.Instruction)
    requires Project.Inv(r) && Project.Exec(feeBps, r.state, i).Ok?
    ensures Represents(Project.Exec(feeBps, r.state, i).value.vault) == ProjectStep(Represents(r.state.vault), i)
  {
    match i
    case BuyProjectTokens(o, amount, funds) => BuyRefines(r.state, r.audit, o, amount, funds);
    case WithdrawInvestment(o, tokens) => WithdrawRefines(r.state, r.audit, o, tokens);
    case DistributeRepayment(amount, funds) => DistributeRefines(r.state.vault, amount, funds);
    case ClaimProjectReturns(o) => ClaimRefines(r.state.vault, o);
    case _ =>
  }

  /** Pull refines push: every run of a project represents the run of the simple ledger. */
  lemma {:induction false} ProjectRefinesPush(feeBps: u16, target: u64, txs: seq<Project.Instruction>)
    requires feeBps <= MAX_FEE_BPS
    ensures Represents(Project.Life(feeBps, target, txs).state.vault) == ProjectLedger(feeBps, target, txs)
    ensures Regular(Project.Life(feeBps, target, txs).state.vault)
  {
    Project.LifeInv(feeBps, target, txs);
    var q := Project.Life(feeBps, target, txs);
    NoDriftRegular(q.state.vault, q.audit, q.audit.withdrawn + q.state.fee);
    if txs == [] {
      assert Represents(q.state.vault) == EMPTY;
    } else {
      var before, i := txs[..|txs| - 1], txs[|txs| - 1];
      ProjectRefinesPush(feeBps, target, before);
      Project.LifeInv(feeBps, target, before);
      var r := Project.Life(feeBps, target, before);
      if Project.Exec(feeBps, r.state, i).Ok? {
        ProjectStepRefines(feeBps, r, i);
      }
    }
  }

  /** The ledger alone decides which claims succeed in the project, as long as the vault covers them. */
  lemma LedgerDecidesClaims(feeBps: u16, target: u64, txs: seq<Project.Instruction>, o: Address)
    requires feeBps <= MAX_FEE_BPS
    ensures var p, l := Project.Life(feeBps, target, txs).state, ProjectLedger(feeBps, target, txs);
            && (Project.Claim(p, o).Ok? <==> o in l.shares && 0 < At(l.credit, o) / PRECISION <= p.vault.usdc)
            && (Project.Claim(p, o) == Err(NothingToClaim) <==> o in l.shares && At(l.credit, o) / PRECISION == 0)
  {
    ProjectRefinesPush(feeBps, target, txs);
    ClaimMatches(Project.Life(feeBps, target, txs).state.vault, o);
    RegularClaim(Project.Life(feeBps, target, txs).state.vault, o);
  }

  // ---------- Runs of a pool ----------

  ghost function PoolStep(l: Ledger, i: Pool.Instruction): Ledger {
    match i
    case BuyPoolTokens(o, amount, _) => Changed(l, o, amount)
    case DistributePoolReturns(amount, _) => Distributed(l, amount)
    case ClaimPoolReturns(o) => Paid(l, o)
    case _ => l
  }

  ghost function PoolLedger(target: u64, txs: seq<Pool.Instruction>): Ledger {
    if txs == [] then EMPTY
    else
      var before, i := txs[..|txs| - 1], txs[|txs| - 1];
      var l := PoolLedger(target, before);
      if Pool.Exec(Pool.Life(target, before).state, i).Ok? then PoolStep(l, i) else l
  }

  /** In a pool without drift, a step refines the ledger exactly when it is not an unsettled top-up. */
  lemma PoolStepRefines(r: Recorded<Pool.State>, i: Pool.Instruction)
    requires Pool.Inv(r) && r.audit.drift == 0 && Pool.Exec(r.state, i).Ok?
    ensures Represents(Pool.Exec(r.state, i).value.vault) == PoolStep(Represents(r.state.vault), i)
            <==> Pool.SettledPurchase(r.state, i)
  {
    var v := r.state.vault;
    match i
    case BuyPoolTokens(o, amount, funds) =>
      BuyEffect(v, o, amount, funds);
      SharesRefine(v, o, amount, BuyTokens(v, o, amount, funds).value);
      Pool.DriftOfPurchase(v, o, amount);
    case DistributePoolReturns(amount, funds) => DistributeRefines(v, amount, funds);
    case ClaimPoolReturns(o) =>
      ClaimRefines(v, o);
    case _ =>
  }

  /** The pool's run ends where the ledger's does. */
  ghost predicate Agrees(target: u64, txs: seq<Pool.Instruction>) {
    Represents(Pool.Life(target, txs).state.vault) == PoolLedger(target, txs)
  }

  /** The two runs agree after every one of the instructions. */
  ghost predicate InStep(target: u64, txs: seq<Pool.Instruction>) {
    Agrees(target, txs) && (txs == [] || InStep(target, txs[..|txs| - 1]))
  }

  lemma PoolLastRefines(target: u64, txs: seq<Pool.Instruction>)
    requires txs != [] && Agrees(target, txs[..|txs| - 1])
    requires Pool.AllSettled(Recorded(Pool.NewPool(target), NO_HISTORY), txs[..|txs| - 1])
    ensures Agrees(target, txs) <==> Pool.AllSettled(Recorded(Pool.NewPool(target), NO_HISTORY), txs)
  {
    var before, i := txs[..|txs| - 1], txs[|txs| - 1];
    Pool.LifeInv(target, before);
    if Pool.Exec(Pool.Life(target, before).state, i).Ok? {
      PoolStepRefines(Pool.Life(target, before), i);
    }
  }

  /**
    Pull refines push in a pool for as long as top-ups are settled, and stops at the first one that
    is not: the run represents the ledger's at every step if and only if all top-ups were settled.
   */
  lemma {:induction false} PoolRefinesPush(target: u64, txs: seq<Pool.Instruction>)
    ensures InStep(target, txs) <==> Pool.AllSettled(Recorded(Pool.NewPool(target), NO_HISTORY), txs)
  {
    if txs == [] {
      assert Represents(Pool.NewPool(target).vault) == EMPTY;
    } else {
      PoolRefinesPush(target, txs[..|txs| - 1]);
      if InStep(target, txs[..|txs| - 1]) {
        PoolLastRefines(target, txs);
      }
    }
  }
}
