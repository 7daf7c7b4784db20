/**
  The project handlers as they run: methods that check their arguments in the order of the program
  and update the accounts in place. Each is proved against its function in module Project.
 */
module ProjectAccounts {
  import opened Types
  import opened Accumulator
  import opened Project

  /** The project account with its USDC vault, its token mint and the positions that target it. */
  class ProjectAccount {
    const targetAmount: u64
    var tokensSold: u64
    var totalDistributed: u64
    var cumulativeUsdcPerToken: u128
    var status: Status
    var originationFeeCollected: u64
    var positions: map<Address, Position>
    var usdcVault: u64
    var tokenSupply: u64

    function View(): State
      reads this
    {
      State(
        Vault(targetAmount, tokensSold, totalDistributed, cumulativeUsdcPerToken, positions, usdcVault, tokenSupply),
        status, originationFeeCollected)
    }

    constructor (target: u64)
      ensures View() == NewProject(target)
    {
      targetAmount, tokensSold, totalDistributed, cumulativeUsdcPerToken := target, 0, 0, 0;
      status, originationFeeCollected := Funding, 0;
      positions, usdcVault, tokenSupply := map[], 0, 0;
    }

    static method Create(target: u64, termMonths: nat, baselineSubmitted: bool) returns (r: Result<ProjectAccount>)
      ensures r.Ok? ==> fresh(r.value)
      ensures r.Ok? <==> baselineSubmitted && 0 < target && 6 <= termMonths <= 60
      ensures match CreateProject(target, termMonths, baselineSubmitted)
              case Ok(state) => r.Ok? && r.value.View() == state
              case Err(error) => r == Err(error)
    {
      var _ :- Require(baselineSubmitted, MrvBaselineMissing);
      var _ :- Require(target > 0, InvalidTargetAmount);
      var _ :- Require(MIN_TERM_MONTHS <= termMonths <= MAX_TERM_MONTHS, InvalidTermMonths);
      var project := new ProjectAccount(target);
      r := Ok(project);
    }

    method BuyProjectTokens(investor: Address, amount: u64, funds: u64) returns (r: Result<()>)
      modifies this
      ensures Commits(old(View()), Buy(old(View()), investor, amount, funds), View(), r)
    {
      var _ :- Require(amount > 0, ZeroAmount);
      var _ :- Require(status == Funding, NotFunding);
      var remaining :- CheckedSub64(targetAmount, tokensSold);
      var _ :- Require(amount <= remaining, PoolFull);
      var _ :- TokenSub(funds, amount);
      var usdc :- TokenAdd(usdcVault, amount);
      var supply :- TokenAdd(tokenSupply, amount);
      var position := Position(0, cumulativeUsdcPerToken, 0);
      if investor in positions {
        position := positions[investor];
      }
      var held :- CheckedAdd64(position.held, amount);
      usdcVault, tokenSupply := usdc, supply;
      positions := positions[investor := position.(held := held)];
      tokensSold := tokensSold + amount;  // at most the target
      r := Ok(());
    }

    method WithdrawInvestment(investor: Address, tokens: u64) returns (r: Result<()>)
      modifies this
      ensures Commits(old(View()), Withdraw(old(View()), investor, tokens), View(), r)
    {
      var _ :- Require(investor in positions, AccountNotInitialized);
      var _ :- Require(status == Funding || status == Cancelled, CannotWithdraw);
      var amount := positions[investor].held;
      var _ :- Require(amount > 0, NothingToClaim);
      var _ :- TokenSub(tokens, amount);
      var supply :- TokenSub(tokenSupply, amount);
      var usdc :- TokenSub(usdcVault, amount);
      var sold :- CheckedSub64(tokensSold, amount);
      usdcVault, tokenSupply := usdc, supply;
      positions := positions[investor := positions[investor].(held := 0)];
      tokensSold := sold;
      r := Ok(());
    }

    method ActivateProject(feeBps: u16) returns (r: Result<()>)
      modifies this
      ensures Commits(old(View()), Activate(old(View()), feeBps), View(), r)
    {
      var _ :- Require(status == Funding, NotFunding);
      var _ :- Require(tokensSold == targetAmount, NotFullyFunded);
      FeeProductInRange(targetAmount, feeBps);
      var scaled: u128 := targetAmount * feeBps;
      var fee := TruncateToU64(scaled / 10_000);
      if fee > 0 {
        var usdc :- TokenSub(usdcVault, fee);
        usdcVault := usdc;
      }
      status := Active;
      originationFeeCollected := fee;
      r := Ok(());
    }

    method DistributeRepayment(amount: u64, funds: u64) returns (r: Result<()>)
      modifies this
      ensures Commits(old(View()), DistributeTo(old(View()), amount, funds), View(), r)
    {
      var _ :- Require(amount > 0, ZeroAmount);
      var _ :- Require(status == Active || status == Repaying, NotActiveOrRepaying);
      var _ :- Require(tokensSold > 0, NoTokensSold);
      var _ :- TokenSub(funds, amount);
      var usdc :- TokenAdd(usdcVault, amount);
      var scaled: u128 := amount * PRECISION;  // in range for every u64
      var delta: u128 := scaled / tokensSold;  // the divisor is not zero
      var cum :- CheckedAdd128(cumulativeUsdcPerToken, delta);
      var distributed :- CheckedAdd64(totalDistributed, amount);
      usdcVault := usdc;
      cumulativeUsdcPerToken := cum;
      totalDistributed := distributed;
      if status == Active {
        status := Repaying;
      }
      r := Ok(());
    }

    method ClaimProjectReturns(investor: Address) returns (r: Result<()>)
      modifies this
      ensures Commits(old(View()), Claim(old(View()), investor), View(), r)
    {
      var _ :- Require(investor in positions, AccountNotInitialized);
      var position := positions[investor];
      var delta :- CheckedSub128(cumulativeUsdcPerToken, position.last);
      var scaled :- CheckedMul128(position.held, delta);
      var owed :- ToU64(scaled / PRECISION);
      var _ :- Require(owed > 0, NothingToClaim);
      var _ :- Require(usdcVault >= owed, InsufficientVaultBalance);
      var claimed :- CheckedAdd64(position.claimed, owed);
      usdcVault := usdcVault - owed;
      positions := positions[investor := Position(position.held, cumulativeUsdcPerToken, claimed)];
      r := Ok(());
    }

    method WithdrawProjectFunds(amount: u64) returns (r: Result<()>)
      modifies this
      ensures Commits(old(View()), WithdrawFunds(old(View()), amount), View(), r)
    {
      var _ :- Require(amount > 0, ZeroAmount);
      var _ :- Require(amount <= usdcVault, InsufficientVaultBalance);
      usdcVault := usdcVault - amount;
      r := Ok(());
    }

    method CloseProject() returns (r: Result<()>)
      modifies this
      ensures Commits(old(View()), Close(old(View())), View(), r)
    {
      var _ :- Require(status == Repaying || status == Active, NotActiveOrRepaying);
      status := Completed;
      r := Ok(());
    }
  }
}
