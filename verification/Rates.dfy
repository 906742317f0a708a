/** Price conversions against exact rational exchange rates. */
module Rates {
  import opened Checked
  import opened FixedPoint
  import opened Accounts
  import opened Oracle

  /** `num / den` synthetic base units per collateral unit. */
  datatype Rate = Rate(num: nat, den: nat)

  function RateOf(price: int, shift: int): (r: Rate)
    requires price > 0
    ensures r.num > 0 && r.den > 0
  {
    if shift >= 0 then Rate(Times(price, TenTo(shift)), 1) else Rate(price, TenTo(-shift))
  }

  function FeedRate(c: Config, feed: PriceUpdate): (r: Rate)
    requires feed.price > 0
    ensures r.num > 0 && r.den > 0
  {
    RateOf(feed.price, feed.expo + c.syntheticDecimals - c.collateralDecimals)
  }

  predicate AtMost(a: Rate, b: Rate) {
    a.num * b.den <= b.num * a.den
  }

  // ---------------------------------------------------------------- arithmetic

  lemma DivBounds(n: nat, d: nat)
    requires d > 0
    ensures d * (n / d) <= n < d * (n / d) + d
  {
  }

  lemma ProductBound(a: nat, b: nat, x: nat, y: nat)
    requires a <= x && b <= y
    ensures a * b <= x * y
  {
    assert a * b <= x * b <= x * y;
  }

  /** The product as repeated addition. Invariants of whole runs are stated with it, so that only the lemmas
      about numbers meet multiplication of unknowns. */
  function Times(a: nat, b: nat): nat {
    if a == 0 then 0 else b + Times(a - 1, b)
  }

  lemma {:induction false} TimesIs(a: nat, b: nat)
    ensures Times(a, b) == a * b
  {
    if a > 0 {
      TimesIs(a - 1, b);
    }
  }

  /** A floor quotient is the largest integer below the quotient. */
  lemma FloorLargest(n: nat, d: nat, q: nat)
    requires d > 0 && q * d <= n
    ensures q <= n / d
  {
    if q > n / d {
      ProductBound(n / d + 1, d, q, d);
    }
  }

  lemma FloorSmall(n: nat, d: nat, q: int)
    requires d > 0 && n < (q + 1) * d
    ensures n / d <= q
  {
    if n / d >= q + 1 {
      ProductBound(q + 1, d, n / d, d);
    }
  }

  lemma {:induction false} TenToAtMost(n: nat, m: nat)
    requires n <= m
    ensures TenTo(n) <= TenTo(m)
    decreases m - n
  {
    if n < m {
      TenToAtMost(n + 1, m);
    }
  }

  lemma {:induction false} TenToSum(n: nat, m: nat)
    ensures TenTo(n + m) == TenTo(n) * TenTo(m)
  {
    if n > 0 {
      TenToSum(n - 1, m);
    }
  }

  lemma Powers()
    ensures TenTo(19) == 10_000_000_000_000_000_000
    ensures TenTo(30) == 1_000_000_000_000_000_000_000_000_000_000
  {
    TenToSum(5, 5);
    TenToSum(9, 10);
    TenToSum(10, 10);
    TenToSum(10, 20);
    assert TenTo(5) == 100_000;
    assert TenTo(4) == 10_000;
    TenToSum(4, 5);
  }

  lemma PowerFits(exp: nat)
    ensures Pow10(exp) == if exp <= MAX_DECIMAL_SHIFT then Ok(TenTo(exp)) else Err(MathOverflow)
  {
    if exp <= MAX_DECIMAL_SHIFT {
      TenToAtMost(exp, 30);
      Powers();
    }
  }

  lemma ShiftFits(expo: i32, cd: u8, sd: u8)
    ensures Abs(expo + sd - cd) <= MAX_DECIMAL_SHIFT ==> DecimalShift(expo, cd, sd) == Ok(expo + sd - cd)
    ensures DecimalShift(expo, cd, sd).Ok? ==> DecimalShift(expo, cd, sd).value == expo + sd - cd
  {
  }

  // ---------------------------------------------------------------- the two conversions

  lemma NotionalUp(amount: u64, price: i64, expo: i32, cd: u8, sd: u8, exact: nat)
    requires price > 0 && expo + sd - cd >= 0 && exact == amount * price * TenTo(expo + sd - cd)
    ensures var n := CollateralToNotional(amount, price, expo, cd, sd);
            && (n.Ok? <==> expo + sd - cd <= MAX_DECIMAL_SHIFT && exact <= U64_MAX)
            && (n.Ok? ==> n.value == exact)
  {
    ShiftFits(expo, cd, sd);
    PowerFits(expo + sd - cd);
    ProductBound(amount, price, U64_MAX, 0x7FFF_FFFF_FFFF_FFFF);
  }

  lemma NotionalDown(amount: u64, price: i64, expo: i32, cd: u8, sd: u8, exact: nat)
    requires price > 0 && expo + sd - cd < 0 && exact == amount * price / TenTo(-(expo + sd - cd))
    ensures var n := CollateralToNotional(amount, price, expo, cd, sd);
            && (n.Ok? <==> -(expo + sd - cd) <= MAX_DECIMAL_SHIFT && exact <= U64_MAX)
            && (n.Ok? ==> n.value == exact)
  {
    ShiftFits(expo, cd, sd);
    PowerFits(-(expo + sd - cd));
    ProductBound(amount, price, U64_MAX, 0x7FFF_FFFF_FFFF_FFFF);
  }

  /** Collateral to notional is the floor of the exact value, and fails only out of range. */
  lemma NotionalIsFloor(amount: u64, price: i64, expo: i32, cd: u8, sd: u8)
    requires price > 0
    ensures var n, rate := CollateralToNotional(amount, price, expo, cd, sd), RateOf(price, expo + sd - cd);
            && (n.Ok? <==> Abs(expo + sd - cd) <= MAX_DECIMAL_SHIFT && amount * rate.num / rate.den <= U64_MAX)
            && (n.Ok? ==> n.value == amount * rate.num / rate.den)
  {
    var shift := expo + sd - cd;
    if shift >= 0 {
      TimesIs(price, TenTo(shift));
      Regrouped(amount, price, TenTo(shift));
      NotionalUp(amount, price, expo, cd, sd, amount * price * TenTo(shift));
    } else {
      QuotientFits(amount * price, TenTo(-shift));
      NotionalDown(amount, price, expo, cd, sd, amount * price / TenTo(-shift));
    }
  }

  lemma Regrouped(a: int, b: int, c: int)
    ensures a * (b * c) == a * b * c
  {
  }

  lemma CollateralUp(notional: u64, price: i64, expo: i32, cd: u8, sd: u8, scaled: nat)
    requires price > 0 && expo + sd - cd >= 0 && scaled == price * TenTo(expo + sd - cd) > 0
    ensures var c := NotionalToCollateral(notional, price, expo, cd, sd);
            && (c.Ok? <==> expo + sd - cd <= MAX_DECIMAL_SHIFT && scaled <= U128_MAX)
            && (c.Ok? ==> c.value == notional / scaled)
  {
    ShiftFits(expo, cd, sd);
    PowerFits(expo + sd - cd);
    QuotientFits(notional, scaled);
  }

  lemma QuotientFits(n: nat, d: nat)
    requires d > 0
    ensures 0 <= n / d <= n
  {
    DivBounds(n, d);
    if n / d > n {
      ProductBound(1, n / d, d, n / d);
    }
  }

  lemma CollateralDown(notional: u64, price: i64, expo: i32, cd: u8, sd: u8, scaled: nat)
    requires price > 0 && expo + sd - cd < 0 && scaled == notional * TenTo(-(expo + sd - cd))
    ensures var c := NotionalToCollateral(notional, price, expo, cd, sd);
            && (c.Ok? <==> -(expo + sd - cd) <= MAX_DECIMAL_SHIFT && scaled <= U128_MAX && scaled / price <= U64_MAX)
            && (c.Ok? ==> c.value == scaled / price)
  {
    ShiftFits(expo, cd, sd);
    PowerFits(-(expo + sd - cd));
  }

  /** Notional to collateral is the floor of the exact value; its intermediate product may also overflow. */
  lemma CollateralIsFloor(notional: u64, price: i64, expo: i32, cd: u8, sd: u8)
    requires price > 0
    ensures var c, rate := NotionalToCollateral(notional, price, expo, cd, sd), RateOf(price, expo + sd - cd);
            && (c.Ok? <==> && Abs(expo + sd - cd) <= MAX_DECIMAL_SHIFT
                           && (if expo + sd - cd >= 0 then rate.num else notional * rate.den) <= U128_MAX
                           && notional * rate.den / rate.num <= U64_MAX)
            && (c.Ok? ==> c.value == notional * rate.den / rate.num)
  {
    var shift := expo + sd - cd;
    var rate := RateOf(price, shift);
    if shift >= 0 {
      TimesIs(price, TenTo(shift));
      CollateralUp(notional, price, expo, cd, sd, rate.num);
      QuotientFits(notional, rate.num);
    } else {
      CollateralDown(notional, price, expo, cd, sd, notional * rate.den);
    }
  }

  // ---------------------------------------------------------------- round trip

  function CeilDiv(n: nat, d: nat): nat
    requires d > 0
  {
    (n + d - 1) / d
  }

  lemma CeilCovers(n: nat, d: nat)
    requires d > 0
    ensures CeilDiv(n, d) * d >= n
  {
    DivBounds(n + d - 1, d);
  }

  /** Floor there and floor back never gains and loses at most ceil((den - 1) / num). */
  lemma FloorRoundTrip(c: nat, rate: Rate)
    requires rate.num > 0 && rate.den > 0
    ensures var back := c * rate.num / rate.den * rate.den / rate.num;
            back <= c <= back + CeilDiv(rate.den - 1, rate.num)
  {
    var n, loss := c * rate.num / rate.den, CeilDiv(rate.den - 1, rate.num);
    DivBounds(c * rate.num, rate.den);
    assert c * rate.num - (rate.den - 1) <= n * rate.den < (c + 1) * rate.num;
    FloorSmall(n * rate.den, rate.num, c);
    CeilCovers(rate.den - 1, rate.num);
    if c > loss {
      assert (c - loss) * rate.num == c * rate.num - loss * rate.num;
      FloorLargest(n * rate.den, rate.num, c - loss);
    } else {
      QuotientFits(n * rate.den, rate.num);
    }
  }

  /** Converting collateral to notional succeeds; then converting back fails exactly when nothing was
      converted at a price too large to scale up. */
  predicate BackConverts(amount: u64, price: int, shift: int)
    requires price > 0
  {
    amount > 0 || shift < 0 || price * TenTo(shift) <= U128_MAX
  }

  lemma RoundTripUp(amount: u64, price: i64, expo: i32, cd: u8, sd: u8, n: u64)
    requires expo + sd - cd >= 0 && CollateralToNotional(amount, price, expo, cd, sd) == Ok(n)
    ensures NotionalToCollateral(n, price, expo, cd, sd)
            == if BackConverts(amount, price, expo + sd - cd) then Ok(amount) else Err(MathOverflow)
  {
    var shift := expo + sd - cd;
    var scaled := price * TenTo(shift);
    assert scaled > 0 by { ProductBound(1, 1, price, TenTo(shift)); }
    NotionalUp(amount, price, expo, cd, sd, amount * price * TenTo(shift));
    Regrouped(amount, price, TenTo(shift));
    CollateralUp(n, price, expo, cd, sd, scaled);
    Exact(amount, scaled);
    PowerFits(shift);
    if amount > 0 {
      ProductBound(1, scaled, amount, scaled);
    }
  }

  lemma Exact(a: nat, d: nat)
    requires d > 0
    ensures a * d / d == a
  {
    DivBounds(a * d, d);
    FloorLargest(a * d, d, a);
    FloorSmall(a * d, d, a);
  }

  lemma RoundTripDown(amount: u64, price: i64, expo: i32, cd: u8, sd: u8, n: u64)
    requires expo + sd - cd < 0 && CollateralToNotional(amount, price, expo, cd, sd) == Ok(n)
    ensures var back := NotionalToCollateral(n, price, expo, cd, sd);
            back.Ok? && back.value <= amount <= back.value + CeilDiv(TenTo(-(expo + sd - cd)) - 1, price)
  {
    var power := TenTo(-(expo + sd - cd));
    QuotientFits(amount * price, power);
    NotionalDown(amount, price, expo, cd, sd, amount * price / power);
    DivBounds(amount * price, power);
    ProductBound(amount, price, U64_MAX, 0x7FFF_FFFF_FFFF_FFFF);
    FloorRoundTrip(amount, Rate(price, power));
    CollateralDown(n, price, expo, cd, sd, n * power);
  }

  lemma RoundTripExactly(amount: u64, price: i64, expo: i32, cd: u8, sd: u8, n: u64)
    requires CollateralToNotional(amount, price, expo, cd, sd) == Ok(n)
    ensures var shift, back := expo + sd - cd, NotionalToCollateral(n, price, expo, cd, sd);
            && (back.Ok? <==> BackConverts(amount, price, shift))
            && (back.Ok? && shift >= 0 ==> back.value == amount)
            && (back.Ok? && shift < 0 ==>
                  back.value <= amount <= back.value + CeilDiv(TenTo(-shift) - 1, price))
  {
    if expo + sd - cd >= 0 {
      RoundTripUp(amount, price, expo, cd, sd, n);
    } else {
      RoundTripDown(amount, price, expo, cd, sd, n);
    }
  }

  /** Up to nineteen decimals apart the inverse direction has no intermediate overflow at any amount. */
  lemma NineteenDecimalsSafe(notional: u64, price: i64, expo: i32, cd: u8, sd: u8)
    requires price > 0 && Abs(expo + sd - cd) <= 19
    ensures var rate := RateOf(price, expo + sd - cd);
            NotionalToCollateral(notional, price, expo, cd, sd)
            == if notional * rate.den / rate.num <= U64_MAX then Ok(notional * rate.den / rate.num)
               else Err(MathOverflow)
  {
    var shift := expo + sd - cd;
    CollateralIsFloor(notional, price, expo, cd, sd);
    TenToAtMost(Abs(shift), 19);
    Powers();
    PowerFits(Abs(shift));
    TimesIs(price, TenTo(Abs(shift)));
    ProductBound(if shift >= 0 then price else notional, TenTo(Abs(shift)), U64_MAX, TenTo(19));
  }

  // ---------------------------------------------------------------- the price gates

  /** Positive, published in the recent past, and with a confidence interval of at most `maxConfBps` of the price. */
  predicate Trusted(env: Env, p: Params) {
    && env.feed.price > 0
    && 0 <= env.now - env.feed.publishTime <= p.maxPriceAgeSec
    && env.feed.conf * BPS <= p.maxConfBps * env.feed.price
  }

  lemma CeilAtMost(n: nat, d: nat, bound: nat)
    requires d > 0
    ensures (n + (d - 1)) / d <= bound <==> n <= bound * d
  {
    DivBounds(n + (d - 1), d);
    var q := (n + (d - 1)) / d;
    if q <= bound {
      ProductBound(q, d, bound, d);
    }
    if n <= bound * d {
      assert n + (d - 1) < (bound + 1) * d;
      FloorSmall(n + (d - 1), d, bound);
    }
  }

  /** A price is used exactly when it is trusted, and then unchanged; rounding the confidence up loses no case. */
  lemma LoadPriceExactly(env: Env, p: Params)
    ensures LoadPrice(env, p).Ok? <==> Trusted(env, p)
    ensures LoadPrice(env, p).Ok? ==> LoadPrice(env, p).value == env.feed
  {
    if env.feed.price > 0 {
      CeilAtMost(env.feed.conf * BPS, env.feed.price, p.maxConfBps);
      CeilAtMost(env.feed.conf * BPS, env.feed.price, U64_MAX);
    }
  }
}
