/**
  The pool handlers as they run: methods that check their arguments in the order of the program and
  update the accounts in place. Each is proved against its function in module Pool.
 */
module PoolAccounts {
  import opened Types
  import opened Accumulator
  import opened Pool

  /** The pool account with its USDC vault, its token mint and the positions that target it. */
  class PoolAccount {
    const targetAmount: u64
    var tokensSold: u64
    var totalDistributed: u64
    var cumulativeUsdcPerToken: u128
    var status: Status
    var positions: map<Address, Position>
    var usdcVault: u64
    var tokenSupply: u64

    function View(): State
      reads this
    {
      State(
        Vault(targetAmount, tokensSold, totalDistributed, cumulativeUsdcPerToken, positions, usdcVault, tokenSupply),
        status)
    }

    constructor (target: u64)
      ensures View() == NewPool(target)
    {
      targetAmount, tokensSold, totalDistributed, cumulativeUsdcPerToken := target, 0, 0, 0;
      status := Funding;
      positions, usdcVault, tokenSupply := map[], 0, 0;
    }

    static method Create(target: u64) returns (r: Result<PoolAccount>)
      ensures r.Ok? ==> fresh(r.value)
      ensures match CreatePool(target)
              case Ok(state) => r.Ok? && r.value.View() == state
              case Err(error) => r == Err(error)
    {
      var _ :- Require(target > 0, InvalidTargetAmount);
      var pool := new PoolAccount(target);
      r := Ok(pool);
    }

    method BuyPoolTokens(investor: Address, amount: u64, funds: u64) returns (r: Result<()>)
      modifies this
      ensures Commits(old(View()), Buy(old(View()), investor, amount, funds), View(), r)
    {
      var _ :- Require(amount > 0, ZeroAmount);
      var _ :- Require(status == Funding, NotFunding);
      var remaining :- CheckedSub64(targetAmount, tokensSold);
      var _ :- Require(amount <= remaining, PoolFull);
      var _ :- TokenSub(funds, amount);
      var usdc :- TokenAdd(usdcVault, amount);
      var supply :- TokenAdd(tokenSupply, amount);
      var position := Position(0, cumulativeUsdcPerToken, 0);
      if investor in positions {
        position := positions[investor];
      }
      var held :- CheckedAdd64(position.held, amount);
      usdcVault, tokenSupply := usdc, supply;
      positions := positions[investor := position.(held := held)];
      tokensSold := tokensSold + amount;  // at most the target
      r := Ok(());
    }

    method DistributePoolReturns(amount: u64, funds: u64) returns (r: Result<()>)
      modifies this
      ensures Commits(old(View()), DistributeTo(old(View()), amount, funds), View(), r)
    {
      var _ :- Require(amount > 0, ZeroAmount);
      var _ :- Require(tokensSold > 0, NoTokensSold);
      var _ :- TokenSub(funds, amount);
      var usdc :- TokenAdd(usdcVault, amount);
      var scaled: u128 := amount * PRECISION;  // in range for every u64
      var delta: u128 := scaled / tokensSold;  // the divisor is not zero
      var cum :- CheckedAdd128(cumulativeUsdcPerToken, delta);
      var distributed :- CheckedAdd64(totalDistributed, amount);
      usdcVault := usdc;
      cumulativeUsdcPerToken := cum;
      totalDistributed := distributed;
      r := Ok(());
    }

    method ClaimPoolReturns(investor: Address) returns (r: Result<()>)
      modifies this
      ensures Commits(old(View()), Claim(old(View()), investor), View(), r)
    {
      var _ :- Require(investor in positions, AccountNotInitialized);
      var position := positions[investor];
      var delta :- CheckedSub128(cumulativeUsdcPerToken, position.last);
      var scaled :- CheckedMul128(position.held, delta);
      var owed :- ToU64(scaled / PRECISION);
      var _ :- Require(owed > 0, NothingToClaim);
      var _ :- Require(usdcVault >= owed, InsufficientVaultBalance);
      var claimed :- CheckedAdd64(position.claimed, owed);
      usdcVault := usdcVault - owed;
      positions := positions[investor := Position(position.held, cumulativeUsdcPerToken, claimed)];
      r := Ok(());
    }
  }
}
