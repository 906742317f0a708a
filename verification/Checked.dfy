/** Machine integers, named failures and checked arithmetic.
    The program never wraps: every overflow is an error that reverts the instruction. */
module Checked {

  const U64_MAX: int := 0xFFFF_FFFF_FFFF_FFFF
  const U128_MAX: int := 0xFFFF_FFFF_FFFF_FFFF_FFFF_FFFF_FFFF_FFFF

  type u8 = x: int | 0 <= x < 0x100
  type u16 = x: int | 0 <= x < 0x1_0000
  type u32 = x: int | 0 <= x < 0x1_0000_0000
  type u64 = x: int | 0 <= x <= U64_MAX
  type u128 = x: int | 0 <= x <= U128_MAX
  type i32 = x: int | -0x8000_0000 <= x < 0x8000_0000
  type i64 = x: int | -0x8000_0000_0000_0000 <= x < 0x8000_0000_0000_0000

  /** Public keys and SHA-256 digests. */
  type Bytes32 = b: seq<u8> | |b| == 32 witness ZERO_8 + ZERO_8 + ZERO_8 + ZERO_8
  datatype Key = Key(bytes: Bytes32)

  const ZERO_8: seq<u8> := [0, 0, 0, 0, 0, 0, 0, 0]
  const ZERO_HASH: Bytes32 := ZERO_8 + ZERO_8 + ZERO_8 + ZERO_8

  datatype Error =
    | Unauthorized | GuardianCannotUnpause
    | MintPaused | RedeemPaused | VaultsNotReady | VaultAlreadyInitialized
    | InvalidBps | InvalidCollateralRatio | InvalidDeltaThreshold | InvalidPriceAge | InvalidDecimals
    | ZeroAmount
    | OracleInvalidPrice | OraclePriceStale | OraclePriceFromFuture | OracleConfidenceTooWide
    | VenueNotEnabled | VenueStateMissing | VenueStateStale | VenueStateFromFuture | VenueStateNotMonotonic
    | NotAuthorizedReporter | CarryOutOfRange | CarryBelowFloor | VenueCapacityExceeded | DeltaOutsideHardBand
    | InsufficientBond | KeeperInactive | SlashExceedsBond | UnknownSlashReason | UnbondCooldownActive
    | BondBelowMinimum
    | ProofSequenceMismatch | ProofSlotNotMonotonic | EmptyProofHash | DeltaThresholdExceeded | DeltaOutOfRange
    | ProofCollateralMismatch | ProofDeltaMismatch
    | RequestExpired | RequestNotExpired | SettlementDelayActive | HedgeFillTooSmall | HedgeFillTooLarge
    | SlippageExceeded | RedeemExceedsSupply | RedeemExceedsCollateral | SupplyCapExceeded
    | NoStakers | InsufficientStake | NothingToClaim | UnstakeCooldownActive | NoPendingUnstake
    | InsufficientBuffer | BufferLocked | BufferDrawCapExceeded
    | MathOverflow
      // raised by the runtime rather than by a handler
    | AccountMissing | AccountInUse | TokenTransferFailed

  datatype Result<+T> = Ok(value: T) | Err(error: Error) {
    predicate IsFailure() {
      Err?
    }

    function PropagateFailure<U>(): Result<U>
      requires Err?
    {
      Err(error)
    }

    function Extract(): T
      requires Ok?
    {
      value
    }
  }

  /** What an instruction reports: success, or the failure that reverted it. */
  function Verdict<T>(r: Result<T>): Result<()> {
    match r
    case Ok(_) => Ok(())
    case Err(e) => Err(e)
  }

  datatype Option<+T> = None | Some(value: T) {
    function GetOr(default: T): T {
      if Some? then value else default
    }
  }

  datatype Check = Pass | Fail(error: Error) {
    predicate IsFailure() {
      Fail?
    }

    function PropagateFailure<U>(): Result<U>
      requires Fail?
    {
      Err(error)
    }
  }

  function Require(condition: bool, error: Error): Check {
    if condition then Pass else Fail(error)
  }

  function ToU64(x: int): Result<u64> {
    if 0 <= x <= U64_MAX then Ok(x) else Err(MathOverflow)
  }

  function ToU128(x: int): Result<u128> {
    if 0 <= x <= U128_MAX then Ok(x) else Err(MathOverflow)
  }

  function ToI64(x: int): Result<i64> {
    if -0x8000_0000_0000_0000 <= x < 0x8000_0000_0000_0000 then Ok(x) else Err(MathOverflow)
  }

  function AddU32(a: u32, b: u32): Result<u32> {
    if a + b < 0x1_0000_0000 then Ok(a + b) else Err(MathOverflow)
  }

  function AddU64(a: u64, b: u64): Result<u64> {
    ToU64(a + b)
  }

  function SubU64(a: u64, b: u64): Result<u64> {
    ToU64(a - b)
  }

  function AddU128(a: u128, b: u128): Result<u128> {
    ToU128(a + b)
  }

  function SubU128(a: u128, b: u128): Result<u128> {
    ToU128(a - b)
  }

  function AddI64(a: i64, b: i64): Result<i64> {
    ToI64(a + b)
  }

  function SubI64(a: i64, b: i64): Result<i64> {
    ToI64(a - b)
  }

  function Min(a: u64, b: u64): u64 {
    if a <= b then a else b
  }

  function Abs(x: int): nat {
    if x < 0 then -x else x
  }
}
