/**
  What one call of the program does, said without its functions: which transfer it makes, what it
  writes, when it succeeds, and why it is refused.
 */
module Calls {
  import opened Types
  import opened Accumulator
  import opened Program
  import Platform
  import Pool
  import PoolTheorems
  import Project
  import ProjectLifecycle
  import ProjectTheorems
  import Settlement

  // ---------- Every call is one transfer ----------

  function BalanceOf(w: World, a: Account): int {
    match a
    case Wallet(o) => if o in w.wallets then w.wallets[o] else 0
    case ProjectVault(id) => if id in w.projects then w.projects[id].vault.usdc else 0
    case PoolVault(id) => if id in w.pools then w.pools[id].vault.usdc else 0
  }

  datatype Movement = Nothing | Moves(from: Account, to: Account, amount: int)

  function TokensOf(v: Vault, o: Address): int {
    if o in v.positions then v.positions[o].held else 0
  }

  /** The whole units that a claim pays. */
  function UnitsOwed(v: Vault, o: Address): int {
    if o in v.positions then
      v.positions[o].held * (v.cum - v.positions[o].last) / 1_000_000_000_000
    else
      0
  }

  function ProjectVaultOf(w: World, id: nat): Vault {
    if id in w.projects then w.projects[id].vault else EmptyVault(0)
  }

  function PoolVaultOf(w: World, id: nat): Vault {
    if id in w.pools then w.pools[id].vault else EmptyVault(0)
  }

  /** Who pays whom, and how much, when the call succeeds. */
  function Transferred(w: World, c: Call): Movement {
    match c
    case CreateProject(_, _, _, _) => Nothing
    case BuyProjectTokens(id, o, amount) => Moves(Wallet(o), ProjectVault(id), amount)
    case WithdrawInvestment(id, o, _) => Moves(ProjectVault(id), Wallet(o), TokensOf(ProjectVaultOf(w, id), o))
    case ActivateProject(id) =>
      var fee := ProjectVaultOf(w, id).target * w.config.originationFeeBps / 10_000;
      Moves(ProjectVault(id), Wallet(w.config.treasury), fee)
    case DistributeRepayment(id, amount) => Moves(Wallet(w.config.admin), ProjectVault(id), amount)
    case ClaimProjectReturns(id, o) => Moves(ProjectVault(id), Wallet(o), UnitsOwed(ProjectVaultOf(w, id), o))
    case WithdrawProjectFunds(id, amount, destination) => Moves(ProjectVault(id), destination, amount)
    case CloseProject(_) => Nothing
    case CreatePool(_, _) => Nothing
    case BuyPoolTokens(id, o, amount) => Moves(Wallet(o), PoolVault(id), amount)
    case DistributePoolReturns(id, amount) => Moves(Wallet(w.config.admin), PoolVault(id), amount)
    case ClaimPoolReturns(id, o) => Moves(PoolVault(id), Wallet(o), UnitsOwed(PoolVaultOf(w, id), o))
    case Transfer(from, to, amount) => Moves(Wallet(from), to, amount)
  }

  function Change(m: Movement, a: Account): int {
    match m
    case Nothing => 0
    case Moves(from, to, amount) => (if a == to then amount else 0) - (if a == from then amount else 0)
  }

  /** The wallets whose USDC account the call opens if it does not exist. */
  function Opened(m: Movement): set<Address> {
    if m.Moves? && m.to.Wallet? then {m.to.owner} else {}
  }

  /** Account by account, `x` is `w` after the movement `m`. */
  ghost predicate Settles(w: World, m: Movement, x: World) {
    && x.config == w.config
    && x.wallets.Keys == w.wallets.Keys + Opened(m)
    && forall a :: BalanceOf(x, a) == BalanceOf(w, a) + Change(m, a)
  }

  lemma ProjectSide(w: World, id: nat, i: Project.Instruction)
    requires OnProject(w, id, i).Ok?
    ensures var x := OnProject(w, id, i).value;
            && id in w.projects && id in x.projects
            && x == w.(projects := w.projects[id := x.projects[id]])
            && Project.Exec(w.config.originationFeeBps, w.projects[id], i) == Ok(x.projects[id])
            && forall a :: BalanceOf(x, a) == BalanceOf(w, a) +
                           if a == ProjectVault(id) then ProjectFlow(w.projects[id], i, x.projects[id]) else 0
  {
    ProjectMoves(w.config.originationFeeBps, w.projects[id], i);
  }

  lemma PoolSide(w: World, id: nat, i: Pool.Instruction)
    requires OnPool(w, id, i).Ok?
    ensures var x := OnPool(w, id, i).value;
            && id in w.pools && id in x.pools
            && x == w.(pools := w.pools[id := x.pools[id]])
            && Pool.Exec(w.pools[id], i) == Ok(x.pools[id])
            && forall a :: BalanceOf(x, a) == BalanceOf(w, a) +
                           if a == PoolVault(id) then x.pools[id].vault.usdc - w.pools[id].vault.usdc else 0
  {
  }

  lemma DebitSide(w: World, o: Address, amount: u64)
    requires Debit(w, o, amount).Ok?
    ensures var x := Debit(w, o, amount).value;
            && o in w.wallets
            && x == w.(wallets := x.wallets) && x.wallets.Keys == w.wallets.Keys
            && forall a :: BalanceOf(x, a) == BalanceOf(w, a) - if a == Wallet(o) then amount else 0
  {
  }

  lemma WalletSide(w: World, o: Address, amount: u64)
    requires CreditOrOpen(w, o, amount).Ok?
    ensures var x := CreditOrOpen(w, o, amount).value;
            && x == w.(wallets := x.wallets) && x.wallets.Keys == w.wallets.Keys + {o}
            && forall a :: BalanceOf(x, a) == BalanceOf(w, a) + if a == Wallet(o) then amount else 0
  {
  }

  lemma CreditSide(w: World, to: Account, amount: u64)
    requires Credit(w, to, amount).Ok?
    ensures var x := Credit(w, to, amount).value;
            && x.config == w.config
            && x.wallets.Keys == w.wallets.Keys + (if to.Wallet? then {to.owner} else {})
            && forall a :: BalanceOf(x, a) == BalanceOf(w, a) + if a == to then amount else 0
  {
    match to
    case Wallet(o) => WalletSide(w, o, amount);
    case ProjectVault(id) => ProjectSide(w, id, Project.ReceiveTransfer(amount));
    case PoolVault(id) => PoolSide(w, id, Pool.ReceiveTransfer(amount));
  }

  lemma PurchaseSettles(w: World, id: nat, o: Address, amount: u64)
    requires Invoke(w, BuyProjectTokens(id, o, amount)).Ok?
    ensures Settles(w, Moves(Wallet(o), ProjectVault(id), amount), Invoke(w, BuyProjectTokens(id, o, amount)).value)
  {
    var i := ProjectTx(w, BuyProjectTokens(id, o, amount));
    ProjectSide(w, id, i);
    DebitSide(OnProject(w, id, i).value, o, amount);
  }

  lemma RefundSettles(w: World, id: nat, o: Address, tokens: u64)
    requires Invoke(w, WithdrawInvestment(id, o, tokens)).Ok?
    ensures Settles(w, Moves(ProjectVault(id), Wallet(o), TokensOf(ProjectVaultOf(w, id), o)),
              Invoke(w, WithdrawInvestment(id, o, tokens)).value)
  {
    var i := ProjectTx(w, WithdrawInvestment(id, o, tokens));
    ProjectSide(w, id, i);
    WalletSide(OnProject(w, id, i).value, o, Holding(w, id, o));
  }

  lemma ActivationSettles(w: World, id: nat)
    requires Platform.Capped(w.config) && Invoke(w, ActivateProject(id)).Ok?
    ensures Settles(w, Transferred(w, ActivateProject(id)), Invoke(w, ActivateProject(id)).value)
  {
    var i := ProjectTx(w, ActivateProject(id));
    ProjectSide(w, id, i);
    Project.FeeIsPartOfTarget(w.projects[id].vault.target, w.config.originationFeeBps);
    var x := OnProject(w, id, i).value;
    WalletSide(x, w.config.treasury, x.projects[id].fee);
  }

  lemma RepaymentSettles(w: World, id: nat, amount: u64)
    requires Invoke(w, DistributeRepayment(id, amount)).Ok?
    ensures Settles(w, Moves(Wallet(w.config.admin), ProjectVault(id), amount),
              Invoke(w, DistributeRepayment(id, amount)).value)
  {
    var i := ProjectTx(w, DistributeRepayment(id, amount));
    ProjectSide(w, id, i);
    DebitSide(OnProject(w, id, i).value, w.config.admin, amount);
  }

  lemma ClaimSettles(w: World, id: nat, o: Address)
    requires Invoke(w, ClaimProjectReturns(id, o)).Ok?
    ensures Settles(w, Moves(ProjectVault(id), Wallet(o), UnitsOwed(ProjectVaultOf(w, id), o)),
              Invoke(w, ClaimProjectReturns(id, o)).value)
  {
    var i := ProjectTx(w, ClaimProjectReturns(id, o));
    ProjectSide(w, id, i);
    Settlement.ClaimInFigures(w.projects[id].vault, o);
    WalletSide(OnProject(w, id, i).value, o, Payout(w.projects[id].vault, o).value);
  }

  lemma WithdrawalSettles(w: World, id: nat, amount: u64, destination: Account)
    requires Invoke(w, WithdrawProjectFunds(id, amount, destination)).Ok?
    ensures Settles(w, Moves(ProjectVault(id), destination, amount),
              Invoke(w, WithdrawProjectFunds(id, amount, destination)).value)
  {
    var i := ProjectTx(w, WithdrawProjectFunds(id, amount, destination));
    ProjectSide(w, id, i);
    CreditSide(OnProject(w, id, i).value, destination, amount);
  }

  lemma PoolPurchaseSettles(w: World, id: nat, o: Address, amount: u64)
    requires Invoke(w, BuyPoolTokens(id, o, amount)).Ok?
    ensures Settles(w, Moves(Wallet(o), PoolVault(id), amount), Invoke(w, BuyPoolTokens(id, o, amount)).value)
  {
    var i := PoolTx(w, BuyPoolTokens(id, o, amount));
    PoolSide(w, id, i);
    DebitSide(OnPool(w, id, i).value, o, amount);
  }

  lemma PoolDistributionSettles(w: World, id: nat, amount: u64)
    requires Invoke(w, DistributePoolReturns(id, amount)).Ok?
    ensures Settles(w, Moves(Wallet(w.config.admin), PoolVault(id), amount),
              Invoke(w, DistributePoolReturns(id, amount)).value)
  {
    var i := PoolTx(w, DistributePoolReturns(id, amount));
    PoolSide(w, id, i);
    DebitSide(OnPool(w, id, i).value, w.config.admin, amount);
  }

  lemma PoolClaimSettles(w: World, id: nat, o: Address)
    requires Invoke(w, ClaimPoolReturns(id, o)).Ok?
    ensures Settles(w, Moves(PoolVault(id), Wallet(o), UnitsOwed(PoolVaultOf(w, id), o)),
              Invoke(w, ClaimPoolReturns(id, o)).value)
  {
    var i := PoolTx(w, ClaimPoolReturns(id, o));
    PoolSide(w, id, i);
    Settlement.ClaimInFigures(w.pools[id].vault, o);
    WalletSide(OnPool(w, id, i).value, o, Payout(w.pools[id].vault, o).value);
  }

  lemma PlainTransferSettles(w: World, from: Address, to: Account, amount: u64)
    requires Invoke(w, Transfer(from, to, amount)).Ok?
    ensures Settles(w, Moves(Wallet(from), to, amount), Invoke(w, Transfer(from, to, amount)).value)
  {
    DebitSide(w, from, amount);
    CreditSide(Debit(w, from, amount).value, to, amount);
  }

  /**
    Double entry: every successful call is exactly one transfer, between the payer and the payee that
    it should have and of the amount that it should have; the balance of every other wallet and of
    every other vault stays as it was.
   */
  lemma EveryCallIsOneTransfer(w: World, c: Call)
    requires Platform.Capped(w.config) && Invoke(w, c).Ok?
    ensures Settles(w, Transferred(w, c), Invoke(w, c).value)
  {
    match c
    case CreateProject(_, _, _, _) =>
    case BuyProjectTokens(id, o, amount) => PurchaseSettles(w, id, o, amount);
    case WithdrawInvestment(id, o, tokens) => RefundSettles(w, id, o, tokens);
    case ActivateProject(id) => ActivationSettles(w, id);
    case DistributeRepayment(id, amount) => RepaymentSettles(w, id, amount);
    case ClaimProjectReturns(id, o) => ClaimSettles(w, id, o);
    case WithdrawProjectFunds(id, amount, destination) => WithdrawalSettles(w, id, amount, destination);
    case CloseProject(id) => ProjectSide(w, id, ProjectTx(w, c));
    case CreatePool(_, _) =>
    case BuyPoolTokens(id, o, amount) => PoolPurchaseSettles(w, id, o, amount);
    case DistributePoolReturns(id, amount) => PoolDistributionSettles(w, id, amount);
    case ClaimPoolReturns(id, o) => PoolClaimSettles(w, id, o);
    case Transfer(from, to, amount) => PlainTransferSettles(w, from, to, amount);
  }

  // ---------- What a call writes ----------

  ghost predicate SameShares(v: Vault, w: Vault) {
    w.sold == v.sold && w.supply == v.supply
  }

  ghost predicate SameAccrual(v: Vault, w: Vault) {
    w.cum == v.cum && w.distributed == v.distributed
  }

  /** Apart from cash, nothing was written. */
  ghost predicate Idle(v: Vault, w: Vault) {
    w.target == v.target && SameShares(v, w) && SameAccrual(v, w) && w.positions == v.positions
  }

  /** Of all positions only that of `o` was written. */
  ghost predicate WroteOnly(v: Vault, w: Vault, o: Address) {
    o in w.positions && w.positions == v.positions[o := w.positions[o]]
  }

  /** `o` bought: a first position starts at the current accumulator, an existing one keeps its snapshot. */
  ghost predicate Bought(v: Vault, w: Vault, o: Address, amount: u64) {
    && w.target == v.target && SameAccrual(v, w)
    && w.sold == v.sold + amount && w.supply == v.supply + amount
    && WroteOnly(v, w, o)
    && w.positions[o].held == TokensOf(v, o) + amount
    && (if o in v.positions then
          w.positions[o].last == v.positions[o].last && w.positions[o].claimed == v.positions[o].claimed
        else
          w.positions[o].last == v.cum && w.positions[o].claimed == 0)
  }

  ghost predicate Refunded(v: Vault, w: Vault, o: Address) {
    && w.target == v.target && SameAccrual(v, w)
    && w.sold == v.sold - TokensOf(v, o) && w.supply == v.supply - TokensOf(v, o)
    && o in v.positions && WroteOnly(v, w, o)
    && w.positions[o] == Position(0, v.positions[o].last, v.positions[o].claimed)
  }

  ghost predicate Raised(v: Vault, w: Vault, amount: u64) {
    && w.target == v.target && SameShares(v, w) && w.positions == v.positions
    && 0 < v.sold
    && w.cum == v.cum + amount * 1_000_000_000_000 / v.sold
    && w.distributed == v.distributed + amount
  }

  ghost predicate PaidOff(v: Vault, w: Vault, o: Address) {
    && w.target == v.target && SameShares(v, w) && SameAccrual(v, w)
    && o in v.positions && WroteOnly(v, w, o)
    && 0 < UnitsOwed(v, o)
    && w.positions[o].held == v.positions[o].held
    && w.positions[o].last == v.cum
    && w.positions[o].claimed == v.positions[o].claimed + UnitsOwed(v, o)
  }

  predicate NamesProject(c: Call, id: nat) {
    match c
    case BuyProjectTokens(k, _, _) => k == id
    case WithdrawInvestment(k, _, _) => k == id
    case ActivateProject(k) => k == id
    case DistributeRepayment(k, _) => k == id
    case ClaimProjectReturns(k, _) => k == id
    case CloseProject(k) => k == id
    case _ => false
  }

  /** What the successful call `c` makes of the project `p` under `id`, apart from its cash. */
  ghost predicate ProjectBecomes(w: World, c: Call, id: nat, p: Project.State, q: Project.State) {
    if !NamesProject(c, id) then q.status == p.status && q.fee == p.fee && Idle(p.vault, q.vault)
    else
      match c
      case BuyProjectTokens(_, o, amount) =>
        q.status == p.status == Project.Funding && q.fee == p.fee && Bought(p.vault, q.vault, o, amount)
      case WithdrawInvestment(_, o, _) => q.status == p.status && q.fee == p.fee && Refunded(p.vault, q.vault, o)
      case ActivateProject(_) =>
        && p.status == Project.Funding && q.status == Project.Active
        && q.fee == p.vault.target * w.config.originationFeeBps / 10_000
        && Idle(p.vault, q.vault)
      case DistributeRepayment(_, amount) =>
        q.status == Project.Repaying && q.fee == p.fee && Raised(p.vault, q.vault, amount)
      case ClaimProjectReturns(_, o) => q.status == p.status && q.fee == p.fee && PaidOff(p.vault, q.vault, o)
      case CloseProject(_) => q == p.(status := Project.Completed)
      case _ => false
  }

  lemma PurchaseWrites(v: Vault, o: Address, amount: u64, funds: u64)
    requires BuyTokens(v, o, amount, funds).Ok?
    ensures Bought(v, BuyTokens(v, o, amount, funds).value, o, amount)
  {
    BuyEffect(v, o, amount, funds);
  }

  lemma RefundWrites(v: Vault, o: Address, tokens: u64)
    requires o in v.positions && RefundTokens(v, o, tokens).Ok?
    ensures Refunded(v, RefundTokens(v, o, tokens).value, o)
  {
    RefundEffect(v, o, tokens);
  }

  lemma DistributionWrites(v: Vault, amount: u64, funds: u64)
    requires Distribute(v, amount, funds).Ok?
    ensures Raised(v, Distribute(v, amount, funds).value, amount)
  {
    Settlement.DistributionInFigures(v, amount, funds);
  }

  lemma ClaimWrites(v: Vault, o: Address)
    requires ClaimReturns(v, o).Ok?
    ensures PaidOff(v, ClaimReturns(v, o).value, o)
  {
    Settlement.ClaimInFigures(v, o);
  }

  /** The project that a call names, after the instruction that the call runs on it. */
  lemma NamedProject(w: World, c: Call, id: nat)
    requires NamesProject(c, id) && Invoke(w, c).Ok?
    ensures OnProject(w, id, ProjectTx(w, c)).Ok?
    ensures id in w.projects && id in Invoke(w, c).value.projects
    ensures Invoke(w, c).value.projects[id] == OnProject(w, id, ProjectTx(w, c)).value.projects[id]
    ensures Project.Exec(w.config.originationFeeBps, w.projects[id], ProjectTx(w, c))
            == Ok(Invoke(w, c).value.projects[id])
  {
  }

  lemma OtherProject(w: World, c: Call, id: nat)
    requires !NamesProject(c, id) && Invoke(w, c).Ok? && id in w.projects
    ensures var x := Invoke(w, c).value;
            id in x.projects && ProjectBecomes(w, c, id, w.projects[id], x.projects[id])
  {
    match c
    case WithdrawProjectFunds(k, amount, to) =>
      CreditIdles(OnProject(w, k, Project.WithdrawProjectFunds(amount)).value, to, amount, id);
    case Transfer(from, to, amount) => CreditIdles(Debit(w, from, amount).value, to, amount, id);
    case _ =>
  }

  /** A credit writes nothing but cash. */
  lemma CreditIdles(w: World, to: Account, amount: u64, id: nat)
    requires Credit(w, to, amount).Ok? && id in w.projects
    ensures var x := Credit(w, to, amount).value;
            && id in x.projects
            && x.projects[id].status == w.projects[id].status && x.projects[id].fee == w.projects[id].fee
            && Idle(w.projects[id].vault, x.projects[id].vault)
  {
  }

  /**
    Every successful call writes exactly what it should: in the project it names only the position of
    the investor it names, the counters, the status and the fee that belong to it, and in no other
    project anything but cash.
   */
  lemma ProjectWrites(w: World, c: Call, id: nat)
    requires Platform.Capped(w.config) && Invoke(w, c).Ok? && id in w.projects
    ensures var x := Invoke(w, c).value;
            id in x.projects && ProjectBecomes(w, c, id, w.projects[id], x.projects[id])
  {
    var p := w.projects[id];
    if !NamesProject(c, id) {
      OtherProject(w, c, id);
    } else {
      NamedProject(w, c, id);
      match c
      case BuyProjectTokens(_, o, amount) => PurchaseWrites(p.vault, o, amount, Funds(w, o));
      case WithdrawInvestment(_, o, tokens) => RefundWrites(p.vault, o, tokens);
      case ActivateProject(_) => Project.FeeIsPartOfTarget(p.vault.target, w.config.originationFeeBps);
      case DistributeRepayment(_, amount) => DistributionWrites(p.vault, amount, Funds(w, w.config.admin));
      case ClaimProjectReturns(_, o) => ClaimWrites(p.vault, o);
      case CloseProject(_) =>
    }
  }

  predicate NamesPool(c: Call, id: nat) {
    match c
    case BuyPoolTokens(k, _, _) => k == id
    case DistributePoolReturns(k, _) => k == id
    case ClaimPoolReturns(k, _) => k == id
    case _ => false
  }

  ghost predicate PoolBecomes(c: Call, id: nat, p: Pool.State, q: Pool.State) {
    && q.status == p.status
    && if !NamesPool(c, id) then Idle(p.vault, q.vault)
       else
         match c
         case BuyPoolTokens(_, o, amount) => Bought(p.vault, q.vault, o, amount)
         case DistributePoolReturns(_, amount) => Raised(p.vault, q.vault, amount)
         case ClaimPoolReturns(_, o) => PaidOff(p.vault, q.vault, o)
         case _ => false
  }

  lemma OtherPool(w: World, c: Call, id: nat)
    requires !NamesPool(c, id) && Invoke(w, c).Ok? && id in w.pools
    ensures id in Invoke(w, c).value.pools && PoolBecomes(c, id, w.pools[id], Invoke(w, c).value.pools[id])
  {
  }

  lemma NamedPool(w: World, c: Call, id: nat)
    requires NamesPool(c, id) && Invoke(w, c).Ok?
    ensures OnPool(w, id, PoolTx(w, c)).Ok?
    ensures id in w.pools && id in Invoke(w, c).value.pools
    ensures Pool.Exec(w.pools[id], PoolTx(w, c)) == Ok(Invoke(w, c).value.pools[id])
  {
  }

  /** The same for pools: no call ever changes the status of one. */
  lemma PoolWrites(w: World, c: Call, id: nat)
    requires Invoke(w, c).Ok? && id in w.pools
    ensures id in Invoke(w, c).value.pools && PoolBecomes(c, id, w.pools[id], Invoke(w, c).value.pools[id])
  {
    var p := w.pools[id];
    if !NamesPool(c, id) {
      OtherPool(w, c, id);
    } else {
      NamedPool(w, c, id);
      match c
      case BuyPoolTokens(_, o, amount) => PurchaseWrites(p.vault, o, amount, Funds(w, o));
      case DistributePoolReturns(_, amount) => DistributionWrites(p.vault, amount, Funds(w, w.config.admin));
      case ClaimPoolReturns(_, o) => ClaimWrites(p.vault, o);
    }
  }

  // ---------- Where vaults come from ----------

  /** A project appears exactly by its creation, empty and in Funding. */
  lemma ProjectAppears(w: World, c: Call, id: nat)
    requires Invoke(w, c).Ok? && id !in w.projects
    ensures var x := Invoke(w, c).value;
            && (id in x.projects <==> c.CreateProject? && c.id == id)
            && (id in x.projects ==>
                && c.baselineSubmitted && 0 < c.target && 6 <= c.termMonths <= 60
                && x.projects[id] == Project.State(Vault(c.target, 0, 0, 0, map[], 0, 0), Project.Funding, 0))
  {
    if c.CreateProject? {
      ProjectLifecycle.CreatedIff(c.target, c.termMonths, c.baselineSubmitted);
    }
  }

  lemma PoolAppears(w: World, c: Call, id: nat)
    requires Invoke(w, c).Ok? && id !in w.pools
    ensures var x := Invoke(w, c).value;
            && (id in x.pools <==> c.CreatePool? && c.id == id)
            && (id in x.pools ==>
                0 < c.target && x.pools[id] == Pool.State(Vault(c.target, 0, 0, 0, map[], 0, 0), Pool.Funding))
  {
  }

  /** The call created the project `id` with the target `target` in accordance with the rules. */
  predicate Creates(c: Call, id: nat, target: u64) {
    && c.CreateProject? && c.id == id
    && c.baselineSubmitted && c.target == target && 0 < target && 6 <= c.termMonths <= 60
  }

  /**
    Every project of a reachable world goes back to a call that created it, with a submitted
    baseline, the target it still has, and a term in range.
   */
  lemma {:induction false} EveryProjectWasCreated(w: World, cs: seq<Call>, id: nat)
    requires Genesis(w) && id in After(w, cs).projects
    ensures exists k :: 0 <= k < |cs| && Creates(cs[k], id, After(w, cs).projects[id].vault.target)
  {
    if cs != [] {
      var before, c := cs[..|cs| - 1], cs[|cs| - 1];
      var x := After(w, before);
      ConfigKept(w, before);
      if id in x.projects {
        EveryProjectWasCreated(w, before, id);
        var k :| 0 <= k < |before| && Creates(before[k], id, x.projects[id].vault.target);
        if Invoke(x, c).Ok? {
          ProjectWrites(x, c, id);
        }
        assert Creates(cs[k], id, After(w, cs).projects[id].vault.target);
      } else {
        ProjectAppears(x, c, id);
        assert Creates(cs[|cs| - 1], id, After(w, cs).projects[id].vault.target);
      }
    }
  }

  /** The configuration never changes. */
  lemma {:induction false} ConfigKept(w: World, cs: seq<Call>)
    requires Platform.Capped(w.config)
    ensures After(w, cs).config == w.config
  {
    if cs != [] {
      ConfigKept(w, cs[..|cs| - 1]);
      var x := After(w, cs[..|cs| - 1]);
      if Invoke(x, cs[|cs| - 1]).Ok? {
        EveryCallIsOneTransfer(x, cs[|cs| - 1]);
      }
    }
  }

  // ---------- When a call succeeds ----------

  predicate Known(w: World, a: Account) {
    match a
    case Wallet(o) => o in w.wallets
    case ProjectVault(id) => id in w.projects
    case PoolVault(id) => id in w.pools
  }

  predicate Repays(p: Project.State) {
    p.status == Project.Active || p.status == Project.Repaying
  }

  /** When a call ought to succeed, said without machine arithmetic. */
  ghost predicate CallEnabled(w: World, c: Call) {
    match c
    case CreateProject(id, target, termMonths, baselineSubmitted) =>
      id !in w.projects && baselineSubmitted && 0 < target && 6 <= termMonths <= 60
    case BuyProjectTokens(id, o, amount) =>
      && id in w.projects && o in w.wallets
      && 0 < amount <= w.wallets[o]
      && w.projects[id].status == Project.Funding
      && w.projects[id].vault.sold + amount <= w.projects[id].vault.target
    case WithdrawInvestment(id, o, tokens) =>
      && id in w.projects && o in w.wallets
      && w.projects[id].status == Project.Funding
      && 0 < TokensOf(w.projects[id].vault, o) <= tokens
      && TokensOf(w.projects[id].vault, o) <= w.projects[id].vault.usdc
    case ActivateProject(id) =>
      && id in w.projects && w.config.treasury in w.wallets
      && w.projects[id].status == Project.Funding
      && w.projects[id].vault.sold == w.projects[id].vault.target
      && w.projects[id].vault.target * w.config.originationFeeBps / 10_000 <= w.projects[id].vault.usdc
    case DistributeRepayment(id, amount) =>
      && id in w.projects && w.config.admin in w.wallets
      && 0 < amount <= w.wallets[w.config.admin]
      && Repays(w.projects[id])
      && w.projects[id].vault.distributed + amount < TWO_64
    case ClaimProjectReturns(id, o) =>
      id in w.projects && 0 < UnitsOwed(w.projects[id].vault, o) <= w.projects[id].vault.usdc
    case WithdrawProjectFunds(id, amount, destination) =>
      && id in w.projects && Known(w, destination) && destination != ProjectVault(id)
      && 0 < amount <= w.projects[id].vault.usdc
    case CloseProject(id) => id in w.projects && Repays(w.projects[id])
    case CreatePool(id, target) => id !in w.pools && 0 < target
    case BuyPoolTokens(id, o, amount) =>
      && id in w.pools && o in w.wallets
      && 0 < amount <= w.wallets[o]
      && w.pools[id].vault.sold + amount <= w.pools[id].vault.target
    case DistributePoolReturns(id, amount) =>
      && id in w.pools && w.config.admin in w.wallets
      && 0 < amount <= w.wallets[w.config.admin]
      && 0 < w.pools[id].vault.sold
      && w.pools[id].vault.distributed + amount < TWO_64
    case ClaimPoolReturns(id, o) =>
      && id in w.pools && o in w.pools[id].vault.positions
      && 0 < UnitsOwed(w.pools[id].vault, o) <= w.pools[id].vault.usdc
      && w.pools[id].vault.positions[o].claimed + UnitsOwed(w.pools[id].vault, o) < TWO_64
    case Transfer(from, to, amount) => from in w.wallets && Known(w, to) && amount <= w.wallets[from]
  }

  /** Every project and pool is in a state that its own machine reaches, and all money fits in u64. */
  ghost predicate Reachable(w: World) {
    && Platform.Capped(w.config)
    && (forall id | id in w.projects :: ReachableProject(w, id))
    && (forall id | id in w.pools :: ReachablePool(w, id))
    && Money(w) <= U64_MAX
  }

  ghost predicate ReachableProject(w: World, id: nat)
    requires id in w.projects
  {
    && w.projects[id].vault.target > 0
    && exists txs ::
         w.projects[id] == Project.Life(w.config.originationFeeBps, w.projects[id].vault.target, txs).state
  }

  ghost predicate ReachablePool(w: World, id: nat)
    requires id in w.pools
  {
    exists txs :: w.pools[id] == Pool.Life(w.pools[id].vault.target, txs).state
  }

  lemma AfterIsReachable(w: World, cs: seq<Call>)
    requires Genesis(w) && Money(w) <= U64_MAX
    ensures Reachable(After(w, cs))
    ensures forall c :: Invoke(After(w, cs), c) != Err(TokenOverflow)
  {
    ConfigKept(w, cs);
    MoneyIsConstant(w, cs);
    forall id | id in After(w, cs).projects
      ensures ReachableProject(After(w, cs), id)
    {
      ProjectLifts(w, cs, id);
    }
    forall id | id in After(w, cs).pools
      ensures ReachablePool(After(w, cs), id)
    {
      PoolLifts(w, cs, id);
    }
    forall c: Call
      ensures Invoke(After(w, cs), c) != Err(TokenOverflow)
    {
      NoTokenOverflow(w, cs, c);
    }
  }

  /** A wallet and a vault together hold no more than all the money. */
  lemma RoomInVaults(w: World, o: Address)
    requires Money(w) <= U64_MAX && o in w.wallets
    ensures forall id | id in w.projects :: w.projects[id].vault.usdc + w.wallets[o] < TWO_64
    ensures forall id | id in w.pools :: w.pools[id].vault.usdc + w.wallets[o] < TWO_64
  {
    MoneyBounds(w);
  }

  lemma ProjectEnabledIff(w: World, id: nat, i: Project.Instruction)
    requires Reachable(w) && id in w.projects
    ensures Project.Exec(w.config.originationFeeBps, w.projects[id], i).Ok?
            <==> ProjectTheorems.Enabled(w.config.originationFeeBps, w.projects[id], i)
    ensures Project.Exec(w.config.originationFeeBps, w.projects[id], i).Err? ==>
              Project.Exec(w.config.originationFeeBps, w.projects[id], i).error
              == ProjectLifecycle.Refusal(w.projects[id], i)
    ensures Repays(w.projects[id]) ==> 0 < w.projects[id].vault.sold
    ensures w.projects[id].status != Project.Cancelled
  {
    var bps, target := w.config.originationFeeBps, w.projects[id].vault.target;
    assert ReachableProject(w, id);
    var txs :| w.projects[id] == Project.Life(bps, target, txs).state;
    ProjectTheorems.SucceedsIffEnabled(bps, target, txs, i);
    ProjectTheorems.FreezeAfterFunding(bps, target, txs, []);
    if Project.Exec(bps, w.projects[id], i).Err? {
      ProjectLifecycle.RefusedWith(bps, target, txs, i);
    }
  }

  lemma PoolEnabledIff(w: World, id: nat, i: Pool.Instruction)
    requires Reachable(w) && id in w.pools
    ensures Pool.Exec(w.pools[id], i).Ok? <==> PoolTheorems.Enabled(w.pools[id], i)
    ensures Pool.Exec(w.pools[id], i).Err? ==>
              Pool.Exec(w.pools[id], i).error == PoolTheorems.Refusal(w.pools[id], i)
  {
    assert ReachablePool(w, id);
    var target := w.pools[id].vault.target;
    var txs :| w.pools[id] == Pool.Life(target, txs).state;
    PoolTheorems.SucceedsIffEnabled(target, txs, i);
    if Pool.Exec(w.pools[id], i).Err? {
      PoolTheorems.RefusedWith(target, txs, i);
    }
  }

  /** Why a call is refused that is not enabled: a missing account first, then the reason of the vault. */
  ghost function CallRefusal(w: World, c: Call): Error {
    match c
    case CreateProject(id, target, _, baselineSubmitted) =>
      if id in w.projects then AccountAlreadyInUse
      else if !baselineSubmitted then MrvBaselineMissing
      else if target == 0 then InvalidTargetAmount
      else InvalidTermMonths
    case BuyProjectTokens(id, o, amount) =>
      if id !in w.projects || o !in w.wallets then AccountNotInitialized
      else ProjectLifecycle.Refusal(w.projects[id], Project.BuyProjectTokens(o, amount, w.wallets[o]))
    case WithdrawInvestment(id, o, tokens) =>
      if id !in w.projects || o !in w.wallets then AccountNotInitialized
      else ProjectLifecycle.Refusal(w.projects[id], Project.WithdrawInvestment(o, tokens))
    case ActivateProject(id) =>
      if id !in w.projects || w.config.treasury !in w.wallets then AccountNotInitialized
      else ProjectLifecycle.Refusal(w.projects[id], Project.ActivateProject)
    case DistributeRepayment(id, amount) =>
      if id !in w.projects || w.config.admin !in w.wallets then AccountNotInitialized
      else
        ProjectLifecycle.Refusal(w.projects[id], Project.DistributeRepayment(amount, w.wallets[w.config.admin]))
    case ClaimProjectReturns(id, o) =>
      if id !in w.projects then AccountNotInitialized
      else ProjectLifecycle.Refusal(w.projects[id], Project.ClaimProjectReturns(o))
    case WithdrawProjectFunds(id, amount, destination) =>
      if id !in w.projects || !Known(w, destination) then AccountNotInitialized
      else if destination == ProjectVault(id) then DuplicateMutableAccount
      else ProjectLifecycle.Refusal(w.projects[id], Project.WithdrawProjectFunds(amount))
    case CloseProject(id) => if id !in w.projects then AccountNotInitialized else NotActiveOrRepaying
    case CreatePool(id, _) => if id in w.pools then AccountAlreadyInUse else InvalidTargetAmount
    case BuyPoolTokens(id, o, amount) =>
      if id !in w.pools || o !in w.wallets then AccountNotInitialized
      else PoolTheorems.Refusal(w.pools[id], Pool.BuyPoolTokens(o, amount, w.wallets[o]))
    case DistributePoolReturns(id, amount) =>
      if id !in w.pools || w.config.admin !in w.wallets then AccountNotInitialized
      else PoolTheorems.Refusal(w.pools[id], Pool.DistributePoolReturns(amount, w.wallets[w.config.admin]))
    case ClaimPoolReturns(id, o) =>
      if id !in w.pools then AccountNotInitialized
      else PoolTheorems.Refusal(w.pools[id], Pool.ClaimPoolReturns(o))
    case Transfer(from, to, _) =>
      if from !in w.wallets || !Known(w, to) then AccountNotInitialized else TokenInsufficientFunds
  }

  /** The call succeeds exactly when it is enabled, and fails with its own error. */
  ghost predicate Decided(w: World, c: Call) {
    && (Invoke(w, c).Ok? <==> CallEnabled(w, c))
    && (Invoke(w, c).Err? ==> Invoke(w, c).error == CallRefusal(w, c))
  }

  lemma UnitsAreOwed(v: Vault, o: Address)
    ensures o in v.positions ==> UnitsOwed(v, o) == Owed(v.positions[o], v.cum)
    ensures o !in v.positions ==> UnitsOwed(v, o) == 0
  {
    if o in v.positions {
      Scale(0, 1, v.positions[o], v.cum);
    }
  }

  lemma PayoutFits(v: Vault, o: Address)
    ensures ClaimReturns(v, o).Ok? ==> Payout(v, o).Ok?
  {
    if ClaimReturns(v, o).Ok? {
      ClaimEffect(v, o);
    }
  }

  /** A credit can only fail for an overflow once its account exists. */
  lemma CreditArrives(w: World, id: nat, amount: u64, destination: Account)
    ensures OnProject(w, id, Project.WithdrawProjectFunds(amount)).Ok? && Exists(w, destination) ==>
            var r := Credit(OnProject(w, id, Project.WithdrawProjectFunds(amount)).value, destination, amount);
            r.Ok? || r == Err(TokenOverflow)
  {
  }

  lemma TransferArrives(w: World, from: Address, to: Account, amount: u64)
    ensures Debit(w, from, amount).Ok? && Exists(w, to) ==>
            var r := Credit(Debit(w, from, amount).value, to, amount); r.Ok? || r == Err(TokenOverflow)
  {
  }

  lemma PurchaseDecided(w: World, id: nat, o: Address, amount: u64)
    requires Reachable(w) && Invoke(w, BuyProjectTokens(id, o, amount)) != Err(TokenOverflow)
    ensures Decided(w, BuyProjectTokens(id, o, amount))
  {
    if id in w.projects && o in w.wallets {
      ProjectEnabledIff(w, id, ProjectTx(w, BuyProjectTokens(id, o, amount)));
      RoomInVaults(w, o);
    }
  }

  lemma RefundDecided(w: World, id: nat, o: Address, tokens: u64)
    requires Reachable(w) && Invoke(w, WithdrawInvestment(id, o, tokens)) != Err(TokenOverflow)
    ensures Decided(w, WithdrawInvestment(id, o, tokens))
  {
    if id in w.projects {
      ProjectEnabledIff(w, id, ProjectTx(w, WithdrawInvestment(id, o, tokens)));
    }
  }

  lemma ActivationDecided(w: World, id: nat)
    requires Reachable(w) && Invoke(w, ActivateProject(id)) != Err(TokenOverflow)
    ensures Decided(w, ActivateProject(id))
  {
    if id in w.projects {
      ProjectEnabledIff(w, id, Project.ActivateProject);
    }
  }

  lemma RepaymentDecided(w: World, id: nat, amount: u64)
    requires Reachable(w) && Invoke(w, DistributeRepayment(id, amount)) != Err(TokenOverflow)
    ensures Decided(w, DistributeRepayment(id, amount))
  {
    if id in w.projects && w.config.admin in w.wallets {
      ProjectEnabledIff(w, id, ProjectTx(w, DistributeRepayment(id, amount)));
      RoomInVaults(w, w.config.admin);
    }
  }

  lemma ClaimDecided(w: World, id: nat, o: Address)
    requires Reachable(w) && Invoke(w, ClaimProjectReturns(id, o)) != Err(TokenOverflow)
    ensures Decided(w, ClaimProjectReturns(id, o))
  {
    if id in w.projects {
      ProjectEnabledIff(w, id, Project.ClaimProjectReturns(o));
      UnitsAreOwed(w.projects[id].vault, o);
      PayoutFits(w.projects[id].vault, o);
    }
  }

  lemma WithdrawalDecided(w: World, id: nat, amount: u64, destination: Account)
    requires Reachable(w) && Invoke(w, WithdrawProjectFunds(id, amount, destination)) != Err(TokenOverflow)
    ensures Decided(w, WithdrawProjectFunds(id, amount, destination))
  {
    if id in w.projects {
      ProjectEnabledIff(w, id, Project.WithdrawProjectFunds(amount));
      CreditArrives(w, id, amount, destination);
    }
  }

  lemma ClosingDecided(w: World, id: nat)
    requires Reachable(w) && Invoke(w, CloseProject(id)) != Err(TokenOverflow)
    ensures Decided(w, CloseProject(id))
  {
    if id in w.projects {
      ProjectEnabledIff(w, id, Project.CloseProject);
    }
  }

  lemma PoolPurchaseDecided(w: World, id: nat, o: Address, amount: u64)
    requires Reachable(w) && Invoke(w, BuyPoolTokens(id, o, amount)) != Err(TokenOverflow)
    ensures Decided(w, BuyPoolTokens(id, o, amount))
  {
    if id in w.pools && o in w.wallets {
      PoolEnabledIff(w, id, PoolTx(w, BuyPoolTokens(id, o, amount)));
      RoomInVaults(w, o);
    }
  }

  lemma PoolDistributionDecided(w: World, id: nat, amount: u64)
    requires Reachable(w) && Invoke(w, DistributePoolReturns(id, amount)) != Err(TokenOverflow)
    ensures Decided(w, DistributePoolReturns(id, amount))
  {
    if id in w.pools && w.config.admin in w.wallets {
      PoolEnabledIff(w, id, PoolTx(w, DistributePoolReturns(id, amount)));
      RoomInVaults(w, w.config.admin);
    }
  }

  lemma PoolClaimDecided(w: World, id: nat, o: Address)
    requires Reachable(w) && Invoke(w, ClaimPoolReturns(id, o)) != Err(TokenOverflow)
    ensures Decided(w, ClaimPoolReturns(id, o))
  {
    if id in w.pools {
      PoolEnabledIff(w, id, Pool.ClaimPoolReturns(o));
      UnitsAreOwed(w.pools[id].vault, o);
      PayoutFits(w.pools[id].vault, o);
    }
  }

  lemma PlainTransferDecided(w: World, from: Address, to: Account, amount: u64)
    requires Reachable(w) && Invoke(w, Transfer(from, to, amount)) != Err(TokenOverflow)
    ensures Decided(w, Transfer(from, to, amount))
  {
    TransferArrives(w, from, to, amount);
  }

  /**
    In every reachable world a call succeeds exactly when it is enabled, and one that is not enabled
    is refused with its own error.
   */
  lemma CallSucceedsIff(w: World, cs: seq<Call>, c: Call)
    requires Genesis(w) && Money(w) <= U64_MAX
    ensures var x := After(w, cs);
            && (Invoke(x, c).Ok? <==> CallEnabled(x, c))
            && (!CallEnabled(x, c) ==> Invoke(x, c) == Err(CallRefusal(x, c)))
  {
    var x := After(w, cs);
    AfterIsReachable(w, cs);
    CallDecided(x, c);
  }

  lemma CallDecided(w: World, c: Call)
    requires Reachable(w) && Invoke(w, c) != Err(TokenOverflow)
    ensures Decided(w, c)
  {
    match c
    case CreateProject(_, target, term, baseline) => ProjectLifecycle.CreatedIff(target, term, baseline);
    case BuyProjectTokens(id, o, amount) => PurchaseDecided(w, id, o, amount);
    case WithdrawInvestment(id, o, tokens) => RefundDecided(w, id, o, tokens);
    case ActivateProject(id) => ActivationDecided(w, id);
    case DistributeRepayment(id, amount) => RepaymentDecided(w, id, amount);
    case ClaimProjectReturns(id, o) => ClaimDecided(w, id, o);
    case WithdrawProjectFunds(id, amount, destination) => WithdrawalDecided(w, id, amount, destination);
    case CloseProject(id) => ClosingDecided(w, id);
    case CreatePool(_, _) =>
    case BuyPoolTokens(id, o, amount) => PoolPurchaseDecided(w, id, o, amount);
    case DistributePoolReturns(id, amount) => PoolDistributionDecided(w, id, amount);
    case ClaimPoolReturns(id, o) => PoolClaimDecided(w, id, o);
    case Transfer(from, to, amount) => PlainTransferDecided(w, from, to, amount);
  }
}
