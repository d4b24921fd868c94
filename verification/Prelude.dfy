/** Machine integers, protocol constants and the error-carrying result shared by every engine. */
module Prelude {

  const I128_MAX: int := 0x7FFF_FFFF_FFFF_FFFF_FFFF_FFFF_FFFF_FFFF
  const U32_MAX: int := 0xFFFF_FFFF

  type i128 = x: int | -I128_MAX - 1 <= x <= I128_MAX
  type u32 = x: int | 0 <= x <= U32_MAX

  const WAD: i128 := 1_000_000_000_000_000_000
  const RAY: i128 := 1_000_000_000_000_000_000_000_000_000
  const PERCENTAGE_FACTOR: u32 := 10_000
  const MAX_LTV_BPS: u32 := 9_900
  const MAX_RESERVES: u32 := 64
  const MIN_HEALTH_FACTOR: i128 := WAD
  const TTL_EXTEND_TO: u32 := 518_400

  datatype LendingError =
    | Unauthorized
    | AlreadyInitialized
    | NotInitialized
    | Paused
    | InvalidAdmin
    | InvalidGuardian
    | MathOverflow
    | MathUnderflow
    | DivisionByZero
    | InvalidAmount
    | InvalidIndex
    | InvalidLTV
    | InvalidLiquidationThreshold
    | InvalidLiquidationBonus
    | InvalidReserveFactor
    | InvalidOptimalUtilization
    | InvalidInterestRateConfig
    | InvalidPriceAge
    | ReserveNotFound
    | ReserveFrozen
    | ReservePaused
    | ReserveNotActive
    | MaxReservesReached
    | SupplyCapViolation
    | BorrowCapViolation
    | InsufficientLiquidity
    | InsufficientCollateral
    | HFTooLow
    | LiquidationNotAllowed
    | NoDebtToRepay
    | InvalidPriceValue
    | OraclePriceDeviationExceeded
    | ProposalThresholdNotMet
    | TimelockActive

  datatype Option<+T> = None | Some(value: T) {
    function GetOr(default: T): T {
      if Some? then value else default
    }

    predicate IsFailure() {
      None?
    }

    function PropagateFailure<U>(): Option<U>
      requires None?
    {
      None
    }

    function Extract(): T
      requires Some?
    {
      value
    }

    /** `ok_or`: the absence of a value becomes the given error. */
    function OkOr(error: LendingError): Result<T> {
      if Some? then Ok(value) else Err(error)
    }
  }

  datatype Result<+T> = Ok(value: T) | Err(error: LendingError) {
    predicate IsFailure() {
      Err?
    }

    function PropagateFailure<U>(): Result<U>
      requires Err?
    {
      Err(error)
    }

    function Extract(): T
      requires Ok?
    {
      value
    }
  }

  /** A guard: the error is raised when the condition holds. */
  function Reject(condition: bool, error: LendingError): Result<()> {
    if condition then Err(error) else Ok(())
  }

  function Lookup<K, V>(m: map<K, V>, key: K): Option<V> {
    if key in m then Some(m[key]) else None
  }

  predicate InI128(x: int) {
    -I128_MAX - 1 <= x <= I128_MAX
  }

  /** `checked_*().ok_or(error)`. */
  function Checked(x: int, error: LendingError): Result<i128> {
    if InI128(x) then Ok(x) else Err(error)
  }
}
