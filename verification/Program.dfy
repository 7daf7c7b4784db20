/**
  The whole program: all projects and pools of one platform, and the USDC accounts they trade with.
  Each vault lives through a run of its own machine, so everything proved of one vault holds of all
  of them at once, and no call creates or destroys USDC.
 */
module Program {
  import opened Types
  import opened Totals
  import opened Accumulator
  import Platform
  import Project
  import Pool
  import ProjectTheorems
  import PoolTheorems

  /** A USDC account: that of a wallet, or the vault of a project or a pool. */
  datatype Account = Wallet(owner: Address) | ProjectVault(id: nat) | PoolVault(id: nat)

  datatype World = World(
    config: Platform.Config,
    projects: map<nat, Project.State>,
    pools: map<nat, Pool.State>,
    wallets: map<Address, u64>  // balances of the USDC accounts that exist
  )

  datatype Call =
    | CreateProject(id: nat, target: u64, termMonths: nat, baselineSubmitted: bool)
    | BuyProjectTokens(id: nat, investor: Address, amount: u64)
    | WithdrawInvestment(id: nat, investor: Address, tokens: u64)
    | ActivateProject(id: nat)
    | DistributeRepayment(id: nat, amount: u64)
    | ClaimProjectReturns(id: nat, investor: Address)
    | WithdrawProjectFunds(id: nat, amount: u64, destination: Account)
    | CloseProject(id: nat)
    | CreatePool(id: nat, target: u64)
    | BuyPoolTokens(id: nat, investor: Address, amount: u64)
    | DistributePoolReturns(id: nat, amount: u64)
    | ClaimPoolReturns(id: nat, investor: Address)
    | Transfer(from: Address, to: Account, amount: u64)  // not an instruction of the program

  // ---------- Calls ----------

  /** Runs an instruction on one project; the wallets are left to the caller. */
  function OnProject(w: World, id: nat, i: Project.Instruction): Result<World> {
    var _ :- Require(id in w.projects, AccountNotInitialized);
    var p :- Project.Exec(w.config.originationFeeBps, w.projects[id], i);
    Ok(w.(projects := w.projects[id := p]))
  }

  function OnPool(w: World, id: nat, i: Pool.Instruction): Result<World> {
    var _ :- Require(id in w.pools, AccountNotInitialized);
    var p :- Pool.Exec(w.pools[id], i);
    Ok(w.(pools := w.pools[id := p]))
  }

  function Debit(w: World, o: Address, amount: u64): Result<World> {
    var _ :- Require(o in w.wallets, AccountNotInitialized);
    var balance :- TokenSub(w.wallets[o], amount);
    Ok(w.(wallets := w.wallets[o := balance]))
  }

  function Funds(w: World, o: Address): u64 {
    if o in w.wallets then w.wallets[o] else 0
  }

  /** Creates the account of `o` if it does not exist yet, as a claim does. */
  function CreditOrOpen(w: World, o: Address, amount: u64): Result<World> {
    var balance :- TokenAdd(Funds(w, o), amount);
    Ok(w.(wallets := w.wallets[o := balance]))
  }

  /** A transfer that arrives at an account. */
  function Credit(w: World, to: Account, amount: u64): Result<World> {
    match to
    case Wallet(o) => CreditOrOpen(w, o, amount)
    case ProjectVault(id) => OnProject(w, id, Project.ReceiveTransfer(amount))
    case PoolVault(id) => OnPool(w, id, Pool.ReceiveTransfer(amount))
  }

  predicate Exists(w: World, account: Account) {
    match account
    case Wallet(o) => o in w.wallets
    case ProjectVault(id) => id in w.projects
    case PoolVault(id) => id in w.pools
  }

  /** The instruction that a call runs on its project. */
  function ProjectTx(w: World, c: Call): Project.Instruction
    requires c.BuyProjectTokens? || c.WithdrawInvestment? || c.ActivateProject? || c.DistributeRepayment?
             || c.ClaimProjectReturns? || c.WithdrawProjectFunds? || c.CloseProject?
  {
    match c
    case BuyProjectTokens(_, o, amount) => Project.BuyProjectTokens(o, amount, Funds(w, o))
    case WithdrawInvestment(_, o, tokens) => Project.WithdrawInvestment(o, tokens)
    case ActivateProject(_) => Project.ActivateProject
    case DistributeRepayment(_, amount) => Project.DistributeRepayment(amount, Funds(w, w.config.admin))
    case ClaimProjectReturns(_, o) => Project.ClaimProjectReturns(o)
    case WithdrawProjectFunds(_, amount, _) => Project.WithdrawProjectFunds(amount)
    case CloseProject(_) => Project.CloseProject
  }

  function PoolTx(w: World, c: Call): Pool.Instruction
    requires c.BuyPoolTokens? || c.DistributePoolReturns? || c.ClaimPoolReturns?
  {
    match c
    case BuyPoolTokens(_, o, amount) => Pool.BuyPoolTokens(o, amount, Funds(w, o))
    case DistributePoolReturns(_, amount) => Pool.DistributePoolReturns(amount, Funds(w, w.config.admin))
    case ClaimPoolReturns(_, o) => Pool.ClaimPoolReturns(o)
  }

  function Holding(w: World, id: nat, o: Address): u64 {
    if id in w.projects && o in w.projects[id].vault.positions then w.projects[id].vault.positions[o].held else 0
  }

  /** What a claim that succeeds in the vault pays. */
  function Payout(v: Vault, o: Address): Result<u64> {
    var owed := Owed(PositionOf(v, o), v.cum);
    var _ :- Require(0 <= owed <= U64_MAX, MathOverflow);
    Ok(owed)
  }

  /** One transaction: the accounts it names must exist, then the handler runs, then its transfer settles. */
  function Invoke(w: World, c: Call): Result<World> {
    match c
    case CreateProject(id, target, termMonths, baselineSubmitted) =>
      var _ :- Require(id !in w.projects, AccountAlreadyInUse);
      var p :- Project.CreateProject(target, termMonths, baselineSubmitted);
      Ok(w.(projects := w.projects[id := p]))
    case CreatePool(id, target) =>
      var _ :- Require(id !in w.pools, AccountAlreadyInUse);
      var p :- Pool.CreatePool(target);
      Ok(w.(pools := w.pools[id := p]))
    case BuyProjectTokens(id, o, amount) =>
      var _ :- Require(o in w.wallets, AccountNotInitialized);
      var x :- OnProject(w, id, ProjectTx(w, c));
      Debit(x, o, amount)
    case WithdrawInvestment(id, o, tokens) =>
      var _ :- Require(o in w.wallets, AccountNotInitialized);
      var x :- OnProject(w, id, ProjectTx(w, c));
      CreditOrOpen(x, o, Holding(w, id, o))
    case ActivateProject(id) =>
      var _ :- Require(w.config.treasury in w.wallets, AccountNotInitialized);
      var x :- OnProject(w, id, ProjectTx(w, c));
      CreditOrOpen(x, w.config.treasury, x.projects[id].fee)
    case DistributeRepayment(id, amount) =>
      var _ :- Require(w.config.admin in w.wallets, AccountNotInitialized);
      var x :- OnProject(w, id, ProjectTx(w, c));
      Debit(x, w.config.admin, amount)
    case ClaimProjectReturns(id, o) =>
      var x :- OnProject(w, id, ProjectTx(w, c));
      var owed :- Payout(w.projects[id].vault, o);
      CreditOrOpen(x, o, owed)
    case WithdrawProjectFunds(id, amount, destination) =>
      var _ :- Require(Exists(w, destination), AccountNotInitialized);
      var _ :- Require(destination != ProjectVault(id), DuplicateMutableAccount);
      var x :- OnProject(w, id, ProjectTx(w, c));
      Credit(x, destination, amount)
    case CloseProject(id) => OnProject(w, id, ProjectTx(w, c))
    case BuyPoolTokens(id, o, amount) =>
      var _ :- Require(o in w.wallets, AccountNotInitialized);
      var x :- OnPool(w, id, PoolTx(w, c));
      Debit(x, o, amount)
    case DistributePoolReturns(id, amount) =>
      var _ :- Require(w.config.admin in w.wallets, AccountNotInitialized);
      var x :- OnPool(w, id, PoolTx(w, c));
      Debit(x, w.config.admin, amount)
    case ClaimPoolReturns(id, o) =>
      var x :- OnPool(w, id, PoolTx(w, c));
      var owed :- Payout(w.pools[id].vault, o);
      CreditOrOpen(x, o, owed)
    case Transfer(from, to, amount) =>
      var _ :- Require(Exists(w, to), AccountNotInitialized);
      var x :- Debit(w, from, amount);
      Credit(x, to, amount)
  }

  function Next(w: World, c: Call): World {
    match Invoke(w, c)
    case Ok(x) => x
    case Err(_) => w
  }

  /** A platform just initialized, without projects or pools. */
  predicate Genesis(w: World) {
    Platform.Capped(w.config) && w.projects == map[] && w.pools == map[]
  }

  function After(w: World, cs: seq<Call>): World {
    if cs == [] then w else Next(After(w, cs[..|cs| - 1]), cs[|cs| - 1])
  }

  // ---------- Money ----------

  function ProjectCash(w: World): map<nat, int> {
    map id | id in w.projects :: w.projects[id].vault.usdc
  }

  function PoolCash(w: World): map<nat, int> {
    map id | id in w.pools :: w.pools[id].vault.usdc
  }

  /** All USDC in existence. */
  ghost function Money(w: World): int {
    Total(w.wallets) + Total(ProjectCash(w)) + Total(PoolCash(w))
  }

  lemma OnProjectMoney(w: World, id: nat, i: Project.Instruction)
    requires OnProject(w, id, i).Ok?
    ensures var x := OnProject(w, id, i).value;
            Money(x) - Money(w) == x.projects[id].vault.usdc - w.projects[id].vault.usdc
  {
    var x := OnProject(w, id, i).value;
    Update(ProjectCash(w), id, x.projects[id].vault.usdc);
    assert ProjectCash(x) == ProjectCash(w)[id := x.projects[id].vault.usdc];
    assert PoolCash(x) == PoolCash(w);
  }

  lemma OnPoolMoney(w: World, id: nat, i: Pool.Instruction)
    requires OnPool(w, id, i).Ok?
    ensures var x := OnPool(w, id, i).value;
            Money(x) - Money(w) == x.pools[id].vault.usdc - w.pools[id].vault.usdc
  {
    var x := OnPool(w, id, i).value;
    Update(PoolCash(w), id, x.pools[id].vault.usdc);
    assert PoolCash(x) == PoolCash(w)[id := x.pools[id].vault.usdc];
    assert ProjectCash(x) == ProjectCash(w);
  }

  lemma WalletMoney(w: World, o: Address, balance: u64)
    ensures Money(w.(wallets := w.wallets[o := balance])) == Money(w) + balance - Funds(w, o)
  {
    var x := w.(wallets := w.wallets[o := balance]);
    Update(w.wallets, o, balance);
    assert ProjectCash(x) == ProjectCash(w) && PoolCash(x) == PoolCash(w);
  }

  lemma CreditMoney(w: World, to: Account, amount: u64)
    requires Credit(w, to, amount).Ok?
    ensures Money(Credit(w, to, amount).value) == Money(w) + amount
  {
    match to
    case Wallet(o) => WalletMoney(w, o, Funds(w, o) + amount);
    case ProjectVault(id) => OnProjectMoney(w, id, Project.ReceiveTransfer(amount));
    case PoolVault(id) => OnPoolMoney(w, id, Pool.ReceiveTransfer(amount));
  }

  /** What each project instruction moves into or out of the vault. */
  function ProjectFlow(p: Project.State, i: Project.Instruction, q: Project.State): int {
    match i
    case BuyProjectTokens(_, amount, _) => amount
    case WithdrawInvestment(o, _) => -(PositionOf(p.vault, o).held as int)
    case ActivateProject => -(q.fee as int)
    case DistributeRepayment(amount, _) => amount
    case ClaimProjectReturns(o) => -Owed(PositionOf(p.vault, o), p.vault.cum)
    case WithdrawProjectFunds(amount) => -(amount as int)
    case CloseProject => 0
    case ReceiveTransfer(amount) => amount
  }

  lemma ProjectMoves(feeBps: u16, p: Project.State, i: Project.Instruction)
    requires Project.Exec(feeBps, p, i).Ok?
    ensures var q := Project.Exec(feeBps, p, i).value; q.vault.usdc - p.vault.usdc == ProjectFlow(p, i, q)
  {
  }

  lemma PoolMoves(p: Pool.State, i: Pool.Instruction)
    requires Pool.Exec(p, i).Ok?
    ensures Pool.Exec(p, i).value.vault.usdc - p.vault.usdc ==
            match i
            case BuyPoolTokens(_, amount, _) => amount as int
            case DistributePoolReturns(amount, _) => amount
            case ClaimPoolReturns(o) => -Owed(PositionOf(p.vault, o), p.vault.cum)
            case ReceiveTransfer(amount) => amount
  {
  }

  lemma ProjectCallMoney(w: World, id: nat, i: Project.Instruction)
    requires OnProject(w, id, i).Ok?
    ensures var x := OnProject(w, id, i).value;
            && x.wallets == w.wallets && x.config == w.config
            && Money(x) == Money(w) + ProjectFlow(w.projects[id], i, x.projects[id])
  {
    OnProjectMoney(w, id, i);
    ProjectMoves(w.config.originationFeeBps, w.projects[id], i);
  }

  lemma PoolCallMoney(w: World, id: nat, i: Pool.Instruction)
    requires OnPool(w, id, i).Ok?
    ensures var x := OnPool(w, id, i).value;
            && x.wallets == w.wallets && x.config == w.config
            && Money(x) - Money(w) == x.pools[id].vault.usdc - w.pools[id].vault.usdc
  {
    OnPoolMoney(w, id, i);
  }

  lemma DebitMoney(w: World, o: Address, amount: u64)
    requires Debit(w, o, amount).Ok?
    ensures Money(Debit(w, o, amount).value) == Money(w) - amount
  {
    WalletMoney(w, o, w.wallets[o] - amount);
  }

  lemma CreditOrOpenMoney(w: World, o: Address, amount: u64)
    requires CreditOrOpen(w, o, amount).Ok?
    ensures Money(CreditOrOpen(w, o, amount).value) == Money(w) + amount
  {
    WalletMoney(w, o, Funds(w, o) + amount);
  }

  lemma PaidInMoney(w: World, id: nat, i: Project.Instruction, o: Address, amount: u64)
    requires OnProject(w, id, i).Ok?
    requires ProjectFlow(w.projects[id], i, OnProject(w, id, i).value.projects[id]) == amount
    requires Debit(OnProject(w, id, i).value, o, amount).Ok?
    ensures Money(Debit(OnProject(w, id, i).value, o, amount).value) == Money(w)
  {
    ProjectCallMoney(w, id, i);
    DebitMoney(OnProject(w, id, i).value, o, amount);
  }

  lemma PaidOutMoney(w: World, id: nat, i: Project.Instruction, o: Address, amount: u64)
    requires OnProject(w, id, i).Ok?
    requires ProjectFlow(w.projects[id], i, OnProject(w, id, i).value.projects[id]) == -(amount as int)
    requires CreditOrOpen(OnProject(w, id, i).value, o, amount).Ok?
    ensures Money(CreditOrOpen(OnProject(w, id, i).value, o, amount).value) == Money(w)
  {
    ProjectCallMoney(w, id, i);
    CreditOrOpenMoney(OnProject(w, id, i).value, o, amount);
  }

  lemma NewProjectMoney(w: World, id: nat, p: Project.State)
    requires id !in w.projects && p.vault.usdc == 0
    ensures Money(w.(projects := w.projects[id := p])) == Money(w)
  {
    var x := w.(projects := w.projects[id := p]);
    Update(ProjectCash(w), id, 0);
    assert ProjectCash(x) == ProjectCash(w)[id := 0];
    assert PoolCash(x) == PoolCash(w);
  }

  lemma NewPoolMoney(w: World, id: nat, p: Pool.State)
    requires id !in w.pools && p.vault.usdc == 0
    ensures Money(w.(pools := w.pools[id := p])) == Money(w)
  {
    var x := w.(pools := w.pools[id := p]);
    Update(PoolCash(w), id, 0);
    assert PoolCash(x) == PoolCash(w)[id := 0];
    assert ProjectCash(x) == ProjectCash(w);
  }

  lemma DrawKeepsMoney(w: World, c: Call)
    requires Invoke(w, c).Ok? && c.WithdrawProjectFunds?
    ensures Money(Invoke(w, c).value) == Money(w)
  {
    ProjectCallMoney(w, c.id, ProjectTx(w, c));
    CreditMoney(OnProject(w, c.id, ProjectTx(w, c)).value, c.destination, c.amount);
  }

  lemma PayInKeepsMoney(w: World, c: Call)
    requires Invoke(w, c).Ok? && (c.BuyProjectTokens? || c.DistributeRepayment? || c.CloseProject?)
    ensures Money(Invoke(w, c).value) == Money(w)
  {
    var i := ProjectTx(w, c);
    match c
    case BuyProjectTokens(id, o, amount) => PaidInMoney(w, id, i, o, amount);
    case DistributeRepayment(id, amount) => PaidInMoney(w, id, i, w.config.admin, amount);
    case CloseProject(id) => ProjectCallMoney(w, id, i);
  }

  lemma PayOutKeepsMoney(w: World, c: Call)
    requires Invoke(w, c).Ok? && (c.WithdrawInvestment? || c.ActivateProject? || c.ClaimProjectReturns?)
    ensures Money(Invoke(w, c).value) == Money(w)
  {
    var i := ProjectTx(w, c);
    match c
    case WithdrawInvestment(id, o, _) => PaidOutMoney(w, id, i, o, Holding(w, id, o));
    case ActivateProject(id) => PaidOutMoney(w, id, i, w.config.treasury, OnProject(w, id, i).value.projects[id].fee);
    case ClaimProjectReturns(id, o) => PaidOutMoney(w, id, i, o, Payout(w.projects[id].vault, o).value);
  }

  lemma PoolCallKeepsMoney(w: World, c: Call)
    requires Invoke(w, c).Ok?
    requires c.BuyPoolTokens? || c.DistributePoolReturns? || c.ClaimPoolReturns?
    ensures Money(Invoke(w, c).value) == Money(w)
  {
    var i := PoolTx(w, c);
    PoolMoves(w.pools[c.id], i);
    PoolCallMoney(w, c.id, i);
    var x := OnPool(w, c.id, i).value;
    match c
    case BuyPoolTokens(id, o, amount) => DebitMoney(x, o, amount);
    case DistributePoolReturns(id, amount) => DebitMoney(x, w.config.admin, amount);
    case ClaimPoolReturns(id, o) => CreditOrOpenMoney(x, o, Payout(w.pools[id].vault, o).value);
  }

  /** No call creates or destroys USDC. */
  lemma InvokeKeepsMoney(w: World, c: Call)
    requires Invoke(w, c).Ok?
    ensures Money(Invoke(w, c).value) == Money(w)
  {
    match c
    case CreateProject(id, target, _, _) => NewProjectMoney(w, id, Project.NewProject(target));
    case CreatePool(id, target) => NewPoolMoney(w, id, Pool.NewPool(target));
    case WithdrawProjectFunds(_, _, _) => DrawKeepsMoney(w, c);
    case Transfer(from, to, amount) =>
      DebitMoney(w, from, amount);
      CreditMoney(Debit(w, from, amount).value, to, amount);
    case _ =>
      if c.BuyPoolTokens? || c.DistributePoolReturns? || c.ClaimPoolReturns? {
        PoolCallKeepsMoney(w, c);
      } else if c.BuyProjectTokens? || c.DistributeRepayment? || c.CloseProject? {
        PayInKeepsMoney(w, c);
      } else {
        PayOutKeepsMoney(w, c);
      }
  }

  /** Over every run, the USDC in all wallets and all vaults stays the same. */
  lemma {:induction false} MoneyIsConstant(w: World, cs: seq<Call>)
    ensures Money(After(w, cs)) == Money(w)
  {
    if cs != [] {
      var before := After(w, cs[..|cs| - 1]);
      MoneyIsConstant(w, cs[..|cs| - 1]);
      if Invoke(before, cs[|cs| - 1]).Ok? {
        InvokeKeepsMoney(before, cs[|cs| - 1]);
      }
    }
  }

  // ---------- Every vault lives through a run of its own ----------

  /** What a successful call does to the project `id`, as instructions of that project. */
  function ProjectTrace(w: World, c: Call, id: nat): seq<Project.Instruction> {
    if Invoke(w, c).Err? then []
    else
      match c
      case WithdrawProjectFunds(k, amount, destination) =>
        if k == id then [ProjectTx(w, c)]
        else if destination == ProjectVault(id) then [Project.ReceiveTransfer(amount)]
        else []
      case Transfer(_, to, amount) => if to == ProjectVault(id) then [Project.ReceiveTransfer(amount)] else []
      case CreateProject(_, _, _, _) => []
      case CreatePool(_, _) => []
      case BuyPoolTokens(_, _, _) => []
      case DistributePoolReturns(_, _) => []
      case ClaimPoolReturns(_, _) => []
      case _ => if c.id == id then [ProjectTx(w, c)] else []
  }

  function PoolTrace(w: World, c: Call, id: nat): seq<Pool.Instruction> {
    if Invoke(w, c).Err? then []
    else
      match c
      case BuyPoolTokens(k, _, _) => if k == id then [PoolTx(w, c)] else []
      case DistributePoolReturns(k, _) => if k == id then [PoolTx(w, c)] else []
      case ClaimPoolReturns(k, _) => if k == id then [PoolTx(w, c)] else []
      case WithdrawProjectFunds(_, amount, destination) =>
        if destination == PoolVault(id) then [Pool.ReceiveTransfer(amount)] else []
      case Transfer(_, to, amount) => if to == PoolVault(id) then [Pool.ReceiveTransfer(amount)] else []
      case _ => []
  }

  function ProjectHistory(w: World, cs: seq<Call>, id: nat): seq<Project.Instruction> {
    if cs == [] then []
    else
      var before := cs[..|cs| - 1];
      ProjectHistory(w, before, id) + ProjectTrace(After(w, before), cs[|cs| - 1], id)
  }

  function PoolHistory(w: World, cs: seq<Call>, id: nat): seq<Pool.Instruction> {
    if cs == [] then []
    else
      var before := cs[..|cs| - 1];
      PoolHistory(w, before, id) + PoolTrace(After(w, before), cs[|cs| - 1], id)
  }

  /** A trace of at most one instruction explains how a project changed, or how it came to be. */
  ghost predicate ProjectExplained(w: World, x: World, id: nat, trace: seq<Project.Instruction>) {
    && x.config == w.config
    && |trace| <= 1
    && (id in w.projects ==>
        && id in x.projects
        && (trace == [] ==> x.projects[id] == w.projects[id])
        && (trace != [] ==> Project.Exec(w.config.originationFeeBps, w.projects[id], trace[0]) == Ok(x.projects[id])))
    && (id !in w.projects ==>
        && trace == []
        && (id in x.projects ==> exists target: u64 :: target > 0 && x.projects[id] == Project.NewProject(target)))
  }

  lemma CreditExplained(w: World, to: Account, amount: u64, id: nat)
    requires Credit(w, to, amount).Ok?
    ensures ProjectExplained(w, Credit(w, to, amount).value, id,
              if to == ProjectVault(id) then [Project.ReceiveTransfer(amount)] else [])
  {
  }

  lemma ProjectCallExplained(w: World, c: Call, id: nat)
    requires Invoke(w, c).Ok?
    requires c.BuyProjectTokens? || c.WithdrawInvestment? || c.ActivateProject? || c.DistributeRepayment?
             || c.ClaimProjectReturns? || c.CloseProject?
    ensures ProjectExplained(w, Invoke(w, c).value, id, ProjectTrace(w, c, id))
  {
  }

  lemma DrawExplained(w: World, c: Call, id: nat)
    requires Invoke(w, c).Ok? && c.WithdrawProjectFunds?
    ensures ProjectExplained(w, Invoke(w, c).value, id, ProjectTrace(w, c, id))
  {
  }

  lemma InvokeExplained(w: World, c: Call, id: nat)
    requires Invoke(w, c).Ok?
    ensures ProjectExplained(w, Invoke(w, c).value, id, ProjectTrace(w, c, id))
  {
    match c
    case CreateProject(_, target, _, _) =>
    case WithdrawProjectFunds(_, _, _) => DrawExplained(w, c, id);
    case Transfer(from, to, amount) => CreditExplained(Debit(w, from, amount).value, to, amount, id);
    case CreatePool(_, _) =>
    case BuyPoolTokens(_, _, _) =>
    case DistributePoolReturns(_, _) =>
    case ClaimPoolReturns(_, _) =>
    case _ => ProjectCallExplained(w, c, id);
  }

  ghost predicate PoolExplained(w: World, x: World, id: nat, trace: seq<Pool.Instruction>) {
    && |trace| <= 1
    && (id in w.pools ==>
        && id in x.pools
        && (trace == [] ==> x.pools[id] == w.pools[id])
        && (trace != [] ==> Pool.Exec(w.pools[id], trace[0]) == Ok(x.pools[id])))
    && (id !in w.pools ==>
        && trace == []
        && (id in x.pools ==> exists target: u64 :: target > 0 && x.pools[id] == Pool.NewPool(target)))
  }

  lemma InvokePoolExplained(w: World, c: Call, id: nat)
    requires Invoke(w, c).Ok?
    ensures PoolExplained(w, Invoke(w, c).value, id, PoolTrace(w, c, id))
  {
  }

  /** After any run of the program, each project is where its own instructions, in order, lead. */
  lemma {:induction false} ProjectLifts(w: World, cs: seq<Call>, id: nat)
    requires Genesis(w)
    ensures After(w, cs).config == w.config
    ensures id in After(w, cs).projects ==>
              var p := After(w, cs).projects[id];
              && p.vault.target > 0
              && p == Project.Life(w.config.originationFeeBps, p.vault.target, ProjectHistory(w, cs, id)).state
    ensures id !in After(w, cs).projects ==> ProjectHistory(w, cs, id) == []
  {
    if cs != [] {
      var c, before := cs[|cs| - 1], cs[..|cs| - 1];
      var x, bps := After(w, before), w.config.originationFeeBps;
      ProjectLifts(w, before, id);
      var history, trace := ProjectHistory(w, before, id), ProjectTrace(x, c, id);
      if Invoke(x, c).Ok? {
        InvokeExplained(x, c, id);
        if id in x.projects && trace != [] {
          var target := x.projects[id].vault.target;
          assert trace == [trace[0]];
          var created := Recorded(Project.NewProject(target), NO_HISTORY);
          ProjectTheorems.RunLast(bps, created, history, trace[0], Next(x, c).projects[id]);
          ProjectTheorems.LifeTarget(bps, created, history + trace);
        }
      }
      if trace == [] {
        assert history + trace == history;
      }
    }
  }

  /** After any run of the program, each pool is where its own instructions, in order, lead. */
  lemma {:induction false} PoolLifts(w: World, cs: seq<Call>, id: nat)
    requires Genesis(w)
    ensures id in After(w, cs).pools ==>
              var p := After(w, cs).pools[id];
              p.vault.target > 0 && p == Pool.Life(p.vault.target, PoolHistory(w, cs, id)).state
    ensures id !in After(w, cs).pools ==> PoolHistory(w, cs, id) == []
  {
    if cs != [] {
      var c, before := cs[|cs| - 1], cs[..|cs| - 1];
      var x := After(w, before);
      PoolLifts(w, before, id);
      var history, trace := PoolHistory(w, before, id), PoolTrace(x, c, id);
      if Invoke(x, c).Ok? {
        InvokePoolExplained(x, c, id);
        if id in x.pools && trace != [] {
          var target := x.pools[id].vault.target;
          assert trace == [trace[0]];
          PoolTheorems.RunLast(target, history, trace[0], Next(x, c).pools[id]);
          PoolTheorems.LifeTarget(Recorded(Pool.NewPool(target), NO_HISTORY), history + trace);
        }
      }
      if trace == [] {
        assert history + trace == history;
      }
    }
  }

  /**
    In every reachable world all vaults are sound at once: each project's claims and debts stay
    within its distributions, and it covers the debts exactly when the admin's withdrawals stay within
    the principal after the fee, what was sent in, and the dust; each pool whose top-ups were settled
    keeps its principal.
   */
  lemma EveryVaultIsSound(w: World, cs: seq<Call>, id: nat)
    requires Genesis(w)
    ensures id in After(w, cs).projects ==>
              var p := After(w, cs).projects[id]; var v := p.vault;
              var owed, claimed := Total(Payable(v.positions, v.cum)), Total(Claimed(v.positions));
              var a := Project.Life(w.config.originationFeeBps, v.target, ProjectHistory(w, cs, id)).audit;
              && Total(Held(v.positions)) == v.sold == v.supply <= v.target
              && claimed + owed <= v.distributed
              && (owed <= v.usdc <==>
                  a.withdrawn <= v.sold - p.fee + a.received + (v.distributed - claimed - owed))
    ensures id in After(w, cs).pools ==>
              var v := After(w, cs).pools[id].vault;
              && Total(Held(v.positions)) == v.sold == v.supply <= v.target
              && v.usdc + Total(Claimed(v.positions)) >= v.sold + v.distributed
              && (Pool.AllSettled(Recorded(Pool.NewPool(v.target), NO_HISTORY), PoolHistory(w, cs, id)) ==>
                  v.sold + Total(Payable(v.positions, v.cum)) <= v.usdc)
  {
    ProjectLifts(w, cs, id);
    PoolLifts(w, cs, id);
    if id in After(w, cs).projects {
      var p, bps := After(w, cs).projects[id], w.config.originationFeeBps;
      ProjectTheorems.SupplyAgreement(bps, p.vault.target, ProjectHistory(w, cs, id));
      ProjectTheorems.Payability(bps, p.vault.target, ProjectHistory(w, cs, id));
    }
    if id in After(w, cs).pools {
      var v, history := After(w, cs).pools[id].vault, PoolHistory(w, cs, id);
      PoolTheorems.Conservation(v.target, history);
      if Pool.AllSettled(Recorded(Pool.NewPool(v.target), NO_HISTORY), history) {
        PoolTheorems.PrincipalIsSafe(v.target, history, []);
      }
    }
  }

  // ---------- No balance overflows ----------

  /** Two accounts together never hold more than all the money. */
  lemma MoneyBounds(w: World)
    ensures forall o | o in w.wallets :: w.wallets[o] <= Total(w.wallets)
    ensures forall id | id in w.projects :: w.projects[id].vault.usdc <= Total(ProjectCash(w))
    ensures forall id | id in w.pools :: w.pools[id].vault.usdc <= Total(PoolCash(w))
    ensures 0 <= Total(w.wallets) && 0 <= Total(ProjectCash(w)) && 0 <= Total(PoolCash(w))
  {
    forall o | o in w.wallets
      ensures w.wallets[o] <= Total(w.wallets)
    {
      EntryAtMostTotal(w.wallets, o);
    }
    forall id | id in w.projects
      ensures ProjectCash(w)[id] <= Total(ProjectCash(w))
    {
      EntryAtMostTotal(ProjectCash(w), id);
    }
    forall id | id in w.pools
      ensures PoolCash(w)[id] <= Total(PoolCash(w))
    {
      EntryAtMostTotal(PoolCash(w), id);
    }
    NonNegative(w.wallets, w.wallets.Keys);
    NonNegative(ProjectCash(w), ProjectCash(w).Keys);
    NonNegative(PoolCash(w), PoolCash(w).Keys);
  }

  /** The machine of each vault is in a state it can reach. */
  ghost predicate Reached(w: World) {
    && Money(w) <= U64_MAX
    && (forall id | id in w.projects :: MintAgrees(w.projects[id].vault))
    && (forall id | id in w.pools :: MintAgrees(w.pools[id].vault))
  }

  ghost predicate MintAgrees(v: Vault) {
    v.supply == v.sold <= v.target
  }

  lemma CreditFits(w: World, to: Account, amount: u64)
    requires Money(w) + amount <= U64_MAX
    ensures Credit(w, to, amount) != Err(TokenOverflow)
  {
    MoneyBounds(w);
  }

  lemma CreditOrOpenFits(w: World, o: Address, amount: u64)
    requires Money(w) + amount <= U64_MAX
    ensures CreditOrOpen(w, o, amount).Ok?
  {
    MoneyBounds(w);
  }

  lemma ProjectTxFits(w: World, c: Call)
    requires Reached(w)
    requires c.BuyProjectTokens? || c.WithdrawInvestment? || c.ActivateProject? || c.DistributeRepayment?
             || c.ClaimProjectReturns? || c.WithdrawProjectFunds? || c.CloseProject?
    ensures OnProject(w, c.id, ProjectTx(w, c)) != Err(TokenOverflow)
  {
    MoneyBounds(w);
  }

  lemma PoolTxFits(w: World, c: Call)
    requires Reached(w)
    requires c.BuyPoolTokens? || c.DistributePoolReturns? || c.ClaimPoolReturns?
    ensures OnPool(w, c.id, PoolTx(w, c)) != Err(TokenOverflow)
  {
    MoneyBounds(w);
  }

  lemma RefundFits(w: World, c: Call)
    requires Reached(w) && c.WithdrawInvestment?
    ensures Invoke(w, c) != Err(TokenOverflow)
  {
    ProjectTxFits(w, c);
    var i := ProjectTx(w, c);
    if OnProject(w, c.id, i).Ok? {
      ProjectCallMoney(w, c.id, i);
      CreditOrOpenFits(OnProject(w, c.id, i).value, c.investor, Holding(w, c.id, c.investor));
    }
  }

  lemma FeeFits(w: World, c: Call)
    requires Reached(w) && c.ActivateProject?
    ensures Invoke(w, c) != Err(TokenOverflow)
  {
    ProjectTxFits(w, c);
    var i := ProjectTx(w, c);
    if OnProject(w, c.id, i).Ok? {
      ProjectCallMoney(w, c.id, i);
      var x := OnProject(w, c.id, i).value;
      CreditOrOpenFits(x, w.config.treasury, x.projects[c.id].fee);
    }
  }

  lemma DrawFits(w: World, c: Call)
    requires Reached(w) && c.WithdrawProjectFunds?
    ensures Invoke(w, c) != Err(TokenOverflow)
  {
    ProjectTxFits(w, c);
    var i := ProjectTx(w, c);
    if OnProject(w, c.id, i).Ok? {
      ProjectCallMoney(w, c.id, i);
      CreditFits(OnProject(w, c.id, i).value, c.destination, c.amount);
    }
  }

  lemma ClaimFits(w: World, c: Call)
    requires Reached(w) && c.ClaimProjectReturns?
    ensures Invoke(w, c) != Err(TokenOverflow)
  {
    ProjectTxFits(w, c);
    var i := ProjectTx(w, c);
    if OnProject(w, c.id, i).Ok? {
      ProjectCallMoney(w, c.id, i);
      ClaimEffect(w.projects[c.id].vault, c.investor);
      CreditOrOpenFits(OnProject(w, c.id, i).value, c.investor, Payout(w.projects[c.id].vault, c.investor).value);
    }
  }

  lemma PoolPayoutFits(w: World, c: Call)
    requires Reached(w) && c.ClaimPoolReturns?
    ensures Invoke(w, c) != Err(TokenOverflow)
  {
    PoolTxFits(w, c);
    var i := PoolTx(w, c);
    if OnPool(w, c.id, i).Ok? {
      PoolCallMoney(w, c.id, i);
      PoolMoves(w.pools[c.id], i);
      ClaimEffect(w.pools[c.id].vault, c.investor);
      CreditOrOpenFits(OnPool(w, c.id, i).value, c.investor, Payout(w.pools[c.id].vault, c.investor).value);
    }
  }

  lemma InvokeFits(w: World, c: Call)
    requires Reached(w)
    ensures Invoke(w, c) != Err(TokenOverflow)
  {
    match c
    case CreateProject(_, _, _, _) =>
    case CreatePool(_, _) =>
    case BuyProjectTokens(_, _, _) => ProjectTxFits(w, c);
    case DistributeRepayment(_, _) => ProjectTxFits(w, c);
    case CloseProject(_) => ProjectTxFits(w, c);
    case BuyPoolTokens(_, _, _) => PoolTxFits(w, c);
    case DistributePoolReturns(_, _) => PoolTxFits(w, c);
    case ClaimPoolReturns(_, _) => PoolPayoutFits(w, c);
    case Transfer(from, to, amount) =>
      if Debit(w, from, amount).Ok? {
        DebitMoney(w, from, amount);
        CreditFits(Debit(w, from, amount).value, to, amount);
      }
    case WithdrawInvestment(_, _, _) => RefundFits(w, c);
    case ActivateProject(_) => FeeFits(w, c);
    case ClaimProjectReturns(_, _) => ClaimFits(w, c);
    case WithdrawProjectFunds(_, _, _) => DrawFits(w, c);
  }

  /**
    Because no more USDC can exist than fits in u64, no call in any run fails for an overflow of a
    token balance or of a mint.
   */
  lemma NoTokenOverflow(w: World, cs: seq<Call>, c: Call)
    requires Genesis(w) && Money(w) <= U64_MAX
    ensures Invoke(After(w, cs), c) != Err(TokenOverflow)
  {
    var x := After(w, cs);
    MoneyIsConstant(w, cs);
    forall id | id in x.projects
      ensures MintAgrees(x.projects[id].vault)
    {
      EveryVaultIsSound(w, cs, id);
    }
    forall id | id in x.pools
      ensures MintAgrees(x.pools[id].vault)
    {
      EveryVaultIsSound(w, cs, id);
    }
    InvokeFits(x, c);
  }
}
