/** Machine integers, error codes and account records shared by every handler. */
module Types {
  const U16_MAX: int := 0xFFFF
  const U64_MAX: int := 0xFFFF_FFFF_FFFF_FFFF
  const U128_MAX: int := 0xFFFF_FFFF_FFFF_FFFF_FFFF_FFFF_FFFF_FFFF

  /** The number of values of a u64. */
  const TWO_64: int := 0x1_0000_0000_0000_0000

  type u16 = x: int | 0 <= x <= U16_MAX
  type u64 = x: int | 0 <= x <= U64_MAX
  type u128 = x: int | 0 <= x <= U128_MAX

  /** Scale of the dividend accumulator. */
  const PRECISION: int := 1_000_000_000_000
  /** Cap of every fee, and the number of basis points in 100%. */
  const MAX_FEE_BPS: int := 10_000
  const MIN_TERM_MONTHS: int := 6
  const MAX_TERM_MONTHS: int := 60

  /** A wallet's public key. */
  type Address = nat

  datatype Error =
    | InvalidFeeBps
    | InvalidTargetAmount
    | InvalidTermMonths
    | MrvBaselineMissing
    | PoolFull
    | NotFunding
    | NotActiveOrRepaying
    | CannotWithdraw
    | NotFullyFunded
    | NothingToClaim
    | ZeroAmount
    | NoTokensSold
    | MathOverflow
    | MathUnderflow
    | InsufficientVaultBalance
    | AccountNotInitialized    // Anchor: the named account does not exist
    | AccountAlreadyInUse      // Anchor: `init` of an existing account
    | DuplicateMutableAccount  // Anchor: one account passed twice as mutable
    | TokenInsufficientFunds   // SPL Token: the source balance is too small
    | TokenOverflow            // SPL Token: a balance or a mint supply leaves u64

  datatype Result<+T> = Ok(value: T) | Err(error: Error) {
    predicate IsFailure() {
      Err?
    }

    function PropagateFailure<U>(): Result<U>
      requires Err?
    {
      Err(error)
    }

    function Extract(): T
      requires Ok?
    {
      value
    }
  }

  /** `require!` */
  function Require(condition: bool, error: Error): Result<()> {
    if condition then Ok(()) else Err(error)
  }

  function CheckedAdd64(a: u64, b: u64): Result<u64> {
    if a + b <= U64_MAX then Ok(a + b) else Err(MathOverflow)
  }

  function CheckedSub64(a: u64, b: u64): Result<u64> {
    if b <= a then Ok(a - b) else Err(MathUnderflow)
  }

  function CheckedAdd128(a: u128, b: u128): Result<u128> {
    if a + b <= U128_MAX then Ok(a + b) else Err(MathOverflow)
  }

  function CheckedSub128(a: u128, b: u128): Result<u128> {
    if b <= a then Ok(a - b) else Err(MathUnderflow)
  }

  function CheckedMul128(a: u128, b: u128): Result<u128> {
    if a * b <= U128_MAX then Ok(a * b) else Err(MathOverflow)
  }

  function CheckedDiv128(a: u128, b: u128): Result<u128> {
    if b != 0 then Ok(a / b) else Err(MathUnderflow)
  }

  /** `u64::try_from`. */
  function ToU64(a: u128): Result<u64> {
    if a <= U64_MAX then Ok(a) else Err(MathOverflow)
  }

  /** `as u64`: keeps the low 64 bits. */
  function TruncateToU64(a: u128): u64 {
    a % (U64_MAX + 1)
  }

  /** SPL Token's addition to a balance or a supply. */
  function TokenAdd(balance: u64, amount: u64): Result<u64> {
    if balance + amount <= U64_MAX then Ok(balance + amount) else Err(TokenOverflow)
  }

  /** SPL Token's subtraction from a balance. */
  function TokenSub(balance: u64, amount: u64): Result<u64> {
    if amount <= balance then Ok(balance - amount) else Err(TokenInsufficientFunds)
  }

  /** What a method tells its caller, and what it does to the state, when `spec` says what it must do. */
  ghost predicate Commits<S>(before: S, spec: Result<S>, after: S, result: Result<()>) {
    match spec
    case Ok(state) => result == Ok(()) && after == state
    case Err(error) => result == Err(error) && after == before
  }
}
