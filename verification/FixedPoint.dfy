/** Fixed-point helpers; payouts round down, charges round up. */
module FixedPoint {
  import opened Checked

  const BPS: int := 10_000
  const ACC_SCALE: int := 1_000_000_000_000
  const MAX_DECIMAL_SHIFT: int := 30

  function TenTo(n: nat): nat
    ensures TenTo(n) > 0
  {
    if n == 0 then 1 else 10 * TenTo(n - 1)
  }

  function Pow10(exp: nat): Result<u128> {
    if exp > MAX_DECIMAL_SHIFT then Err(MathOverflow) else
    ToU128(TenTo(exp))
  }

  function DecimalShift(expo: i32, collateralDecimals: u8, syntheticDecimals: u8): Result<int> {
    var raised := expo + syntheticDecimals;
    :- Require(raised < 0x8000_0000, MathOverflow);
    var shift := raised - collateralDecimals;
    :- Require(-0x8000_0000 <= shift, MathOverflow);
    Ok(shift)
  }

  /** Collateral units to synthetic base units, rounded down. */
  function CollateralToNotional(amount: u64, price: i64, expo: i32, cd: u8, sd: u8): Result<u64> {
    if price <= 0 then Err(OracleInvalidPrice) else
    var shift :- DecimalShift(expo, cd, sd);
    var base :- ToU128(amount * price);
    var power :- Pow10(Abs(shift));
    var out :- if shift >= 0 then ToU128(base * power) else Ok(base / power);
    ToU64(out)
  }

  /** Synthetic base units to collateral units, rounded down. */
  function NotionalToCollateral(notional: u64, price: i64, expo: i32, cd: u8, sd: u8): Result<u64> {
    if price <= 0 then Err(OracleInvalidPrice) else
    var shift :- DecimalShift(expo, cd, sd);
    var power :- Pow10(Abs(shift));
    var out :- if shift >= 0 then
                 var denominator :- ToU128(price * power);
                 :- Require(denominator > 0, MathOverflow);
                 Ok(notional / denominator)
               else
                 var numerator :- ToU128(notional * power);
                 Ok(numerator / price);
    ToU64(out)
  }

  function MulBpsFloor(amount: u64, bps: u16): Result<u64> {
    ToU64(amount * bps / BPS)
  }

  function MulBpsCeil(amount: u64, bps: u16): Result<u64> {
    ToU64((amount * bps + (BPS - 1)) / BPS)
  }

  function DivBpsFloor(amount: u64, ratioBps: u16): Result<u64> {
    if ratioBps == 0 then Err(InvalidCollateralRatio) else
    ToU64(amount * BPS / ratioBps)
  }

  function ConfidenceBps(conf: u64, price: i64): Result<u64> {
    if price <= 0 then Err(OracleInvalidPrice) else
    ToU64((conf * BPS + (price - 1)) / price)
  }

  /** Rust's signed division truncates toward zero. */
  function TruncDiv(n: int, d: int): int
    requires d > 0
  {
    if n >= 0 then n / d else -((-n) / d)
  }

  /** Signed book delta in basis points of the collateral notional; positive means under-hedged. */
  function DeltaBps(collateralNotional: u64, hedgedNotional: u64): Result<i32> {
    if collateralNotional == 0 then Err(ZeroAmount) else
    var deviation := TruncDiv((collateralNotional - hedgedNotional) * BPS, collateralNotional);
    :- Require(-0x8000_0000 <= deviation < 0x8000_0000, DeltaOutOfRange);
    Ok(deviation)
  }

  /** Index increment of a settlement, rounded down. */
  function AccIncrement(amount: u64, totalStaked: u64): Result<u128> {
    if totalStaked == 0 then Err(NoStakers) else
    var scaled :- ToU128(amount * ACC_SCALE);
    Ok(scaled / totalStaked)
  }

  /** floor(amount * acc / SCALE) without the overflow check. */
  function Entitlement(amount: nat, acc: nat): nat {
    amount * acc / ACC_SCALE
  }

  /** A staker's lifetime entitlement at index acc. */
  function AccEntitlement(amount: u64, acc: u128): Result<u128> {
    var scaled :- ToU128(amount * acc);
    Ok(Entitlement(amount, acc))
  }
}
