# Exira vaults, verified

Exira sells fractional project and pool tokens for USDC and pays returns to the holders through a
pull-based dividend accumulator: a distribution only raises `cumulative_usdc_per_token`, and each
holder later claims `tokens_held * (cumulative - last_claimed) / PRECISION`. Every division rounds
down, every amount is a `u64` or a `u128`, and every addition is checked. This project models the
handlers that move money or change that arithmetic, and proves what they guarantee over every run.

## How it is built

- `Types.dfy`: machine integers, checked operations, error codes.
- `Totals.dfy`: order-independent sums over finite maps.
- `Accumulator.dfy`: positions, the vault that both layers share, the purchase, refund, distribution
  and claim arithmetic, and the conservation law (`Balanced`) that each operation keeps. An `Audit`
  records the history that the accounts do not: payments, dust, withdrawals, drift.
- `Settlement.dfy`: what sequences of claims do between two distributions.
- `Project.dfy`, `ProjectTheorems.dfy`: a project as a state machine over all its instructions, runs
  of them (failed ones change nothing), the invariant of every run, and what follows from it.
- `ProjectLifecycle.dfy`: creation, the transition table, completion, and the error of each refusal.
- `Pool.dfy`, `PoolTheorems.dfy`: the same for a pool, whose supply moves between distributions.
- `PushLedger.dfy`: the simple O(n) ledger that credits every holder at every distribution; vault runs
  refine it.
- `ProjectAccounts.dfy`, `PoolAccounts.dfy`, `Platform.dfy`: the handlers as methods that update
  account objects in place, each proved against its function in the state machine.
- `Program.dfy`: all vaults of a platform and all USDC accounts together. Each vault's history is
  extracted from the program's run, so the theorems about one vault hold of all of them at once.
- `Calls.dfy`: what one call of the program transfers and writes, when it succeeds, and why not.

Amounts that the environment decides (what a payer's USDC account or an investor's token account
holds when an instruction runs, and transfers sent to a vault from outside) are arguments and may be
anything. `dafny verify dfyconfig.toml` checks the whole project.

## Where the code and its documentation differ

The model follows the code.

- `docs/ARCHITECTURE.md:153` says that topping up a pool position is fine as long as the holder claims
  first. It is not: a holder with less than one unit pending is refused (`NothingToClaim`), keeps the
  old snapshot, and the new tokens inherit the old distributions
  (`PoolTheorems.ClaimingFirstIsNotEnough`). The exact condition is that the snapshot is current
  (`PoolTheorems.PurchaseKeepsEntitlement`). Such a top-up can also put the position out of reach for
  good (`PoolTheorems.TopUpCanLock`, `PoolTheorems.SmallDebtCanStick`); `PoolTheorems.PurchaseSticksIff`
  tells before the call when it does.
- The repository's own `README.md:214` says that `sum(claims) <= total_distributed` holds by
  construction. It does for projects (`ProjectTheorems.Conservation`); for pools it needs settled
  top-ups (`PoolTheorems.ExactIffSettled`, `PoolTheorems.PrincipalIsSafe`).
- `docs/ARCHITECTURE.md:98` says that the admin cannot move vault funds, and the claim error calls a short
  vault an invariant violation. `withdraw_project_funds` moves them in every status, and can leave
  holders unpaid (`ProjectTheorems.AdminCanStarveClaims`); `ProjectTheorems.EveryonePaidIff` says exactly when.
- `docs/ARCHITECTURE.md:160` says that rounding dust raises the next rate. A rate depends on the amount
  and the supply only, and dust stays in the vault (`Accumulator.DustIsNotRecycled`,
  `ProjectTheorems.Conservation`).

## Model

Source paths below are relative to the repository; `I` rows are in-place handlers.

| member | source | states |
|---|---|---|
| ProjectAccounts.ProjectAccount.constructor | programs/exira/src/instructions/admin/create_project.rs:81-95 | a new project is in Funding with nothing sold, distributed, accrued or collected and no positions |
| ProjectAccounts.ProjectAccount.Create | programs/exira/src/instructions/admin/create_project.rs:28-95 | a project is created if and only if the baseline was submitted, the target is positive and the term is 6 to 60 months; otherwise the error of the first failed check |
| ProjectAccounts.ProjectAccount.BuyProjectTokens | programs/exira/src/instructions/investor/buy_project_tokens.rs:63-132 | I: the whole new state and the result are those of the state machine's purchase; an error leaves every field as it was |
| ProjectAccounts.ProjectAccount.WithdrawInvestment | programs/exira/src/instructions/investor/withdraw_investment.rs:54-106 | I: the whole new state and the result are those of the state machine's refund; an error leaves every field as it was |
| ProjectAccounts.ProjectAccount.ActivateProject | programs/exira/src/instructions/admin/activate_project.rs:47-98 | I: fee, transfer and status change are those of the state machine's activation; an error changes nothing |
| ProjectAccounts.ProjectAccount.DistributeRepayment | programs/exira/src/instructions/admin/distribute_repayment.rs:44-94 | I: accumulator, lifetime total, vault and status change together as in the state machine, or nothing does |
| ProjectAccounts.ProjectAccount.ClaimProjectReturns | programs/exira/src/instructions/investor/claim_project_returns.rs:49-100 | I: payment, snapshot and total_claimed change together as in the state machine, or nothing does |
| ProjectAccounts.ProjectAccount.WithdrawProjectFunds | programs/exira/src/instructions/admin/withdraw_project_funds.rs:48-76 | I: only the vault balance changes, in every status, and only for amounts the vault holds |
| ProjectAccounts.ProjectAccount.CloseProject | programs/exira/src/instructions/admin/close_project.rs:26-38 | I: only the status changes, and only from Active or Repaying |
| PoolAccounts.PoolAccount.constructor | programs/exira/src/instructions/admin/create_pool.rs:61-73 | a new pool is in Funding with nothing sold, distributed or accrued and no positions |
| PoolAccounts.PoolAccount.Create | programs/exira/src/instructions/admin/create_pool.rs:58-84 | a pool is created exactly with a positive target |
| PoolAccounts.PoolAccount.BuyPoolTokens | programs/exira/src/instructions/investor/buy_pool_tokens.rs:61-125 | I: the whole new state and the result are those of the state machine's purchase, which does not settle an existing position |
| PoolAccounts.PoolAccount.DistributePoolReturns | programs/exira/src/instructions/admin/distribute_pool_returns.rs:44-81 | I: as for projects, without looking at the status |
| PoolAccounts.PoolAccount.ClaimPoolReturns | programs/exira/src/instructions/investor/claim_pool_returns.rs:48-96 | I: payment, snapshot and total_claimed change together as in the state machine, or nothing does |
| Platform.PlatformAccount.Initialize | programs/exira/src/instructions/admin/initialize_platform.rs:32-54 | succeeds exactly once and exactly with all three fees at most 10_000; then the stored fees are the given ones |
| Platform.CapIsWhole | programs/exira/src/constants.rs:26-29 | the cap on each of the three fees is 10_000 basis points exactly |
| Accumulator.DustBound | programs/exira/src/instructions/admin/distribute_repayment.rs:64-69 | the dust of all distributions is below the target for each of them |
| Accumulator.RaiseAccumulator | programs/exira/src/instructions/admin/distribute_repayment.rs:71-75 | raising the accumulator credits all holders together by the rate times the tokens they hold |
| Accumulator.BuyBalanced | programs/exira/src/instructions/investor/buy_pool_tokens.rs:97-114 | a purchase keeps the conservation law once amount * (cum - last) is booked as drift |
| Accumulator.RefundBalanced | programs/exira/src/instructions/investor/withdraw_investment.rs:89-96 | a refund keeps the conservation law |
| Accumulator.DistributeBalanced | programs/exira/src/instructions/admin/distribute_pool_returns.rs:56-71 | a distribution keeps the conservation law with its remainder booked as dust |
| Accumulator.ClaimBalanced | programs/exira/src/instructions/investor/claim_pool_returns.rs:52-86 | a claim keeps the conservation law with its forgone fraction booked as dust |
| Accumulator.DustIsNotRecycled | docs/ARCHITECTURE.md:160 | two vaults of one supply, whatever their dust, rise by the same rate for the same amount; each keeps its dust and adds the new remainder |
| Accumulator.PendingBounds | programs/exira/src/instructions/investor/claim_project_returns.rs:53-62 | no holder is owed less than nothing or more than the total, and none holds more than was sold |
| Accumulator.PayableBound | programs/exira/src/instructions/investor/claim_project_returns.rs:58-62 | paying the floors to everyone never takes more than what is pending |
| Accumulator.BuyInRange | programs/exira/src/instructions/investor/buy_project_tokens.rs:72-121 | the checked subtraction and additions of a purchase never fail |
| Accumulator.DistributeInRange | programs/exira/src/instructions/admin/distribute_pool_returns.rs:56-71 | of a distribution's checked operations only the addition to the lifetime total can fail, and exactly when that total leaves u64 |
| Settlement.NoDriftRegular | docs/ARCHITECTURE.md:157-159 | without drift, claims plus everything owed stay within the distributions, and no claim's arithmetic can fail |
| Settlement.ClaimOutcome | programs/exira/src/instructions/investor/claim_project_returns.rs:53-90 | every outcome of a claim has its exact condition, with or without drift: overflow is exactly a debt beyond u64, or a covered debt that total_claimed has no room for |
| Settlement.AttemptsSettle | programs/exira/src/instructions/investor/claim_project_returns.rs:53-90 | any sequence of attempts on a covered vault pays each of its investors the debt at the start; each of them succeeds exactly once if open, else never |
| Settlement.ClaimsConfluent | programs/exira/src/instructions/investor/claim_project_returns.rs:53-90 | two orders of the same claims, with any repetitions, end in the same vault; each holder succeeds as often in both, and at most once |
| Settlement.AllPaidIffCovered | programs/exira/src/instructions/investor/claim_project_returns.rs:64-68 | when all holders try, all are paid in full if and only if none is stuck and the vault covered the sum of the debts |
| Project.LifeInv | docs/ARCHITECTURE.md:102 | every run of every instruction keeps the project invariant: balanced books, no drift, tracked claims, life cycle |
| Project.FeeIsPartOfTarget | programs/exira/src/instructions/admin/activate_project.rs:58-63 | a capped fee is at most the target and the `as u64` cast loses nothing |
| Project.ClaimTracks | programs/exira/src/instructions/investor/claim_project_returns.rs:58-90 | a claim pays all that accrued to the position since its last one, up to a fraction of a unit |
| ProjectTheorems.Conservation | programs/exira/src/instructions/admin/distribute_repayment.rs:64-79 | over every run, distributions equal pending plus claimed plus bounded dust, hence claims stay within distributions and the gap is bounded |
| ProjectTheorems.VaultEquation | programs/exira/src/instructions/admin/withdraw_project_funds.rs:61-67 | over every run, vault plus withdrawals equals sold minus fee plus distributed minus claimed plus received |
| ProjectTheorems.SupplyAgreement | programs/exira/src/instructions/investor/buy_project_tokens.rs:94-121 | over every run, the positions, tokens_sold and the mint agree and stay within the target |
| ProjectTheorems.Payability | programs/exira/src/instructions/investor/claim_project_returns.rs:64-68 | the vault covers all debts at once if and only if withdrawals stay within principal after fee, receipts and dust |
| ProjectTheorems.ClaimsRun | programs/exira/src/instructions/investor/claim_project_returns.rs:49-100 | a run of claim instructions is the sequence of attempts, and the history counts its successes, in total and of each investor |
| ProjectTheorems.EveryOrderPaysEveryone | programs/exira/src/instructions/investor/claim_project_returns.rs:64-90 | with withdrawals within the principal after the fee, every run of claims pays every claimant in full, in any order, and no claim with something owed fails |
| ProjectTheorems.EveryonePaidIff | programs/exira/src/instructions/admin/withdraw_project_funds.rs:8-13 | after a run of claims by all holders, in any order, nobody is owed a unit if and only if the withdrawals stayed within that bound |
| ProjectTheorems.AdminCanStarveClaims | programs/exira/src/instructions/admin/withdraw_project_funds.rs:8-13 | a run in which a claim that would succeed fails for lack of vault balance after an admin withdrawal |
| ProjectTheorems.ArithmeticTotality | programs/exira/src/instructions/investor/claim_project_returns.rs:53-62 | in every reachable state debts stay within PRECISION * total_distributed and no checked operation fails except the lifetime total of a distribution, and that exactly when it leaves u64 |
| ProjectTheorems.ProductBounds | programs/exira/src/constants.rs:23-24 | in every reachable project, tokens held times the rise of the accumulator stays below 2^104 |
| ProjectTheorems.ExactAmounts | programs/exira/src/instructions/investor/claim_project_returns.rs:53-90 | in figures: a repayment raises the accumulator by amount * 10^12 / supply and a claim pays held * (cum - last) / 10^12, and neither writes anything else |
| ProjectTheorems.SucceedsIffEnabled | programs/exira/src/instructions/investor/buy_project_tokens.rs:64-76 | in every reachable state each instruction succeeds exactly under its stated guard, said without machine arithmetic |
| ProjectLifecycle.RefusedWith | programs/exira/src/instructions/admin/distribute_repayment.rs:44-79 | in every reachable state an instruction that is not enabled is refused with its own error, the first in the order of the checks |
| ProjectLifecycle.CreatedIff | programs/exira/src/instructions/admin/create_project.rs:28-80 | creation succeeds if and only if baseline, target and term are right, each refusal has its error, and the new project is empty and in Funding |
| ProjectLifecycle.TransitionTable | programs/exira/src/instructions/admin/activate_project.rs:48-87 | which statuses admit each instruction and which status each leaves, over every run; Funding is left exactly by an activation, and only an activation sets the fee |
| ProjectLifecycle.StatusTellsHistory | programs/exira/src/instructions/admin/close_project.rs:28-34 | in every run the status says exactly which of activation, repayment and closing have succeeded, and outside Funding the fee is its share of the target |
| ProjectLifecycle.CompletionIsFinal | programs/exira/src/instructions/admin/close_project.rs:28-34 | closing sets Completed and nothing else; after it, whatever follows, no purchase, refund, activation, repayment or closing succeeds and supply, holdings and accumulator are frozen |
| ProjectLifecycle.CompletedStillPays | programs/exira/src/instructions/investor/claim_project_returns.rs:49-90 | a run to a completed project whose holder still has a claim open, and is paid |
| ProjectTheorems.FreezeAfterFunding | programs/exira/src/instructions/admin/activate_project.rs:48-56 | the status never moves back or becomes Cancelled; nothing accrues before the first distribution; once funded, supply is the target and holdings never change |
| ProjectTheorems.ClaimsEndAfterCompletion | programs/exira/src/instructions/admin/close_project.rs:28-34 | after completion each holder succeeds at most once more, and only with something open at that moment; in total at most the number of open positions |
| ProjectTheorems.RefundRoundTrip | programs/exira/src/instructions/investor/withdraw_investment.rs:55-96 | while funding, an investor's net payment is what the position holds; a refund succeeds exactly when the admin left it in the vault, and returns exactly that, to nobody else's loss |
| ProjectTheorems.RebuyAfterRefund | programs/exira/src/instructions/investor/buy_project_tokens.rs:103-121 | buying again on the surviving position starts from the same baseline, without drift |
| ProjectTheorems.FeeSoundness | programs/exira/src/instructions/admin/activate_project.rs:54-87 | a funded project activates exactly when withdrawals left the fee in the vault; the fee is the capped share of the target |
| ProjectTheorems.UniformSupply | programs/exira/src/instructions/admin/distribute_repayment.rs:64-75 | with one supply, supply times the accumulator plus the dust is PRECISION times what was distributed |
| ProjectTheorems.ProRata | programs/exira/src/instructions/investor/claim_project_returns.rs:58-90 | in every reachable state, what a holder was paid and is owed is at most the pro-rata share, and falls short of it by at most one unit per claim, one for what is pending, and the dust |
| ProjectTheorems.ClaimFrequency | programs/exira/src/instructions/investor/claim_project_returns.rs:61-90 | over any two runs with the same distributions, paid plus owed of as many tokens differs by at most the number of successful claims, not counting one that is still current; claiming only at the end is never worse, and refused claims cost nothing |
| PushLedger.DistributeRefines | programs/exira/src/instructions/admin/distribute_repayment.rs:67-75 | an O(1) distribution is the O(n) ledger crediting every holder |
| PushLedger.ClaimRefines | programs/exira/src/instructions/investor/claim_project_returns.rs:58-90 | a claim is the ledger paying the whole units of one credit |
| PushLedger.SharesRefine | programs/exira/src/instructions/investor/buy_pool_tokens.rs:97-108 | a change of shares is the ledger's if and only if it does not drift |
| PushLedger.ProjectRefinesPush | docs/ARCHITECTURE.md:100-102 | every run of a project represents the run of the simple ledger |
| PushLedger.LedgerDecidesClaims | programs/exira/src/instructions/investor/claim_project_returns.rs:61-68 | the simple ledger alone decides which claims succeed or have nothing to claim |
| PushLedger.PoolRefinesPush | docs/ARCHITECTURE.md:153 | a pool run represents the ledger's run at every step if and only if all its top-ups were settled |
| Pool.DriftOfPurchase | programs/exira/src/instructions/investor/buy_pool_tokens.rs:97-108 | a purchase drifts exactly when it tops up a position whose snapshot is behind |
| Pool.LifeInv | programs/exira/src/instructions/admin/distribute_pool_returns.rs:44-71 | every interleaving keeps the pool invariant, and its drift is zero if and only if every top-up was settled |
| PoolTheorems.Conservation | programs/exira/src/instructions/admin/distribute_pool_returns.rs:56-71 | over every interleaving, distributions plus drift equal pending plus claimed plus bounded dust; the vault equation and the supply agreement hold |
| PoolTheorems.ExactIffSettled | docs/ARCHITECTURE.md:153 | the books are exact, without drift, if and only if every top-up was settled |
| PoolTheorems.ClaimsRun | programs/exira/src/instructions/investor/claim_pool_returns.rs:48-96 | the same for pools, in total |
| PoolTheorems.PrincipalIsSafe | programs/exira/src/instructions/investor/claim_pool_returns.rs:61-86 | with settled top-ups the vault keeps one unit per token sold beside all debts, through every run of claims, and every claimant is paid |
| PoolTheorems.EveryonePaidIff | programs/exira/src/instructions/investor/claim_pool_returns.rs:61-86 | with any drift: after a run of claims by all holders, in any order, nobody is owed a unit if and only if nobody was stuck and debts plus claims stayed within all that came in |
| PoolTheorems.SucceedsIffEnabled | programs/exira/src/instructions/investor/buy_pool_tokens.rs:62-114 | in every reachable pool, with any drift, each instruction succeeds exactly under its stated guard; a claim exactly when its whole units are positive, covered, and fit in total_claimed |
| PoolTheorems.RefusedWith | programs/exira/src/instructions/admin/distribute_pool_returns.rs:44-71 | in every reachable state an instruction that is not enabled is refused with its own error |
| PoolTheorems.ProductBounds | programs/exira/src/constants.rs:23-24 | the accumulator stays below 2^104; so does each product of a claim if all top-ups were settled, and one that reaches it belongs to a stuck position |
| PoolTheorems.ExactAmounts | programs/exira/src/instructions/investor/claim_pool_returns.rs:52-86 | in figures, as for projects, with the supply of the moment |
| PoolTheorems.ArithmeticErrors | programs/exira/src/instructions/investor/claim_pool_returns.rs:52-86 | no checked operation of a reachable pool fails except the lifetime total of a distribution and a claim on a stuck position, each under its exact condition |
| PoolTheorems.PurchaseKeepsEntitlement | programs/exira/src/instructions/investor/buy_pool_tokens.rs:98-108 | a purchase leaves what the buyer is owed unchanged if and only if it is the first or the snapshot is current; it never changes another position |
| PoolTheorems.ClaimingFirstIsNotEnough | docs/ARCHITECTURE.md:153 | a run in which a holder claims before topping up and is then paid ten times what was ever distributed, out of principal |
| PoolTheorems.ClaimThenTopUp | docs/ARCHITECTURE.md:153 | claiming first leaves the snapshot current or less than one unit pending if and only if the vault covers the debt and the holder is not stuck; always, if top-ups were settled so far |
| PoolTheorems.StuckForever | programs/exira/src/instructions/investor/claim_pool_returns.rs:56-86 | a position whose debt total_claimed has no room for stays unpaid and is refused, whatever follows |
| PoolTheorems.NeverPaidIffStuck | programs/exira/src/instructions/investor/claim_pool_returns.rs:56-86 | in every reachable pool, a holder with something to claim is refused in every continuation if and only if the payment would take total_claimed out of u64 |
| PoolTheorems.PurchaseSticksIff | programs/exira/src/instructions/investor/buy_pool_tokens.rs:98-108 | a purchase leaves the buyer without any continuation that pays if and only if claimed + (held + amount) * (cum - last) / PRECISION leaves u64; it does so to nobody else |
| PoolTheorems.TopUpCanLock | programs/exira/src/instructions/investor/buy_pool_tokens.rs:105-108 | an unsettled top-up that turns a claimable position into one whose claims overflow in every later run, with a product beyond 2^104 |
| PoolTheorems.SmallDebtCanStick | programs/exira/src/instructions/investor/claim_pool_returns.rs:82-86 | a run that leaves a debt of 50, covered by 115 in the vault, out of reach for good |
| PoolTheorems.LateBuyerIsolation | docs/ARCHITECTURE.md:151 | two pools with different pasts, one supply and the same future give a later buyer the same tokens, payouts and debts, whatever others top up, as long as the amounts fit in u64 and the vault is never short for that buyer |
| PoolTheorems.EarlierDistributionsLeaveNoTrace | docs/ARCHITECTURE.md:151 | two runs that differ only in earlier distributions, with settled top-ups, give a later buyer the same tokens, payouts and debts |
| PoolTheorems.LateBuyerEarnings | programs/exira/src/instructions/investor/buy_pool_tokens.rs:98-104 | a position bought once has in every later state earned, paid or owed, its tokens times the rates distributed since, each over the supply of its own time, up to a fraction per claim and one for what is pending |
| Program.InvokeKeepsMoney | programs/exira/src/instructions/investor/buy_project_tokens.rs:78-85 | no call creates or destroys USDC; who pays and who receives is EveryCallIsOneTransfer |
| Program.MoneyIsConstant | docs/ARCHITECTURE.md:97 | over every run, the USDC in all wallets and vaults together is constant |
| Program.InvokeExplained | programs/exira/src/state/investor_position.rs:3-18 | a call changes a project by at most one of its own instructions and leaves every other project as it was |
| Program.InvokePoolExplained | programs/exira/src/state/investor_position.rs:3-18 | the same for pools |
| Program.ProjectLifts | programs/exira/src/instructions/investor/claim_project_returns.rs:24-31 | after any run of the program each project is where its own instructions, in order, lead |
| Program.PoolLifts | programs/exira/src/instructions/investor/claim_pool_returns.rs:24-31 | after any run of the program each pool is where its own instructions, in order, lead |
| Program.EveryVaultIsSound | docs/ARCHITECTURE.md:157-159 | in every reachable world, at once: supplies agree; every project keeps claims and debts within distributions and covers the debts exactly when withdrawals stay within the bound of Payability; every settled pool keeps its principal |
| Program.NoTokenOverflow | programs/exira/src/instructions/investor/buy_project_tokens.rs:85-100 | no call of any run fails for an overflow of a token balance or a mint |
| Calls.EveryCallIsOneTransfer | programs/exira/src/instructions/investor/claim_project_returns.rs:70-85 | every successful call is exactly one transfer with the right payer, payee and amount: buyer, refunded investor, treasury, admin, claimant, destination; every other balance stays |
| Calls.ProjectWrites | programs/exira/src/instructions/investor/buy_project_tokens.rs:103-121 | a successful call writes in the project it names exactly the fields it should, of the positions only the one of the investor it names, and in other projects nothing but cash |
| Calls.PoolWrites | programs/exira/src/instructions/investor/buy_pool_tokens.rs:97-114 | the same for pools; no call changes the status of a pool |
| Calls.ProjectAppears | programs/exira/src/instructions/admin/create_project.rs:68-95 | a project appears exactly by its creation, empty, in Funding, under the rules |
| Calls.PoolAppears | programs/exira/src/instructions/admin/create_pool.rs:58-73 | a pool appears exactly by its creation, empty and in Funding |
| Calls.EveryProjectWasCreated | programs/exira/src/instructions/admin/create_project.rs:25-28 | every project of a reachable world goes back to a creation with a submitted baseline, its present target and a term of 6 to 60 months |
| Calls.CallSucceedsIff | programs/exira/src/instructions/investor/buy_project_tokens.rs:63-85 | in every reachable world each of the calls succeeds if and only if its guard holds, said without machine arithmetic, and is otherwise refused with its own error |

## Left out

- Signers, PDA derivation, bumps, rent, discriminators and the accounts' addresses: an account is a map key or an object, and a caller is who the argument says.
- The status Cancelled has no instruction that leads to it; the refund accepts it as the code does.
- The MRV registry: only the flag `baseline_submitted` appears, as an argument of the creation of a project.
- `add_project_to_pool` and `PoolProjectLink`: a counter and a field with no link to the money.
- Performance fee, hurdle rate, platform counters, timestamps and logs: stored or printed, never used; the fees are only capped.
- Token accounts of project and pool tokens: their balance is the argument `tokens` of a refund; a missing one counts as empty. Transfers and burns of those tokens outside the program are not in the mint's supply.
- Order of writes: the program writes as it goes and the runtime undoes a failed transaction; the methods check first and write last.
- Aliasing of USDC accounts other than the destination of an admin withdrawal: the vault, wallet and treasury accounts of a call are distinct.
- Platform.PlatformAccount.constructor: stands for an account before its initialization, which has no counterpart in the program.
- PoolTheorems.NeverPaidIffStuck: for holders with at least one unit to claim; whether a holder with less ever gets one depends on what others still buy and distribute.
- PoolTheorems.LateBuyerIsolation: claims that find the vault short are excluded, because in a pool with drift the cash left in the vault does depend on the past.
