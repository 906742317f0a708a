/** Splitting an order never pays: every rounding along both pipelines favours the larger order. */
module Splitting {
  import opened Checked
  import opened FixedPoint
  import opened TokenLedger
  import opened Accounts
  import opened Oracle
  import opened Mint
  import opened Redeem
  import opened Admin
  import opened Rates

  // ---------------------------------------------------------------- superadditive steps

  lemma FloorAdds(a: nat, b: nat, num: nat, den: nat)
    requires den > 0
    ensures 0 <= a * num / den && 0 <= b * num / den
    ensures a * num / den + b * num / den <= (a + b) * num / den
  {
    DivBounds(a * num, den);
    DivBounds(b * num, den);
    QuotientFits(a * num, den);
    QuotientFits(b * num, den);
    var x, y := a * num / den, b * num / den;
    assert (x + y) * den == den * x + den * y;
    assert (a + b) * num == a * num + b * num;
    FloorLargest((a + b) * num, den, x + y);
  }

  lemma FloorMonotone(a: nat, b: nat, num: nat, den: nat)
    requires den > 0 && a <= b
    ensures 0 <= a * num / den <= b * num / den
  {
    FloorAdds(a, b - a, num, den);
    assert a + (b - a) == b;
  }

  /** Taking a fee rounded up leaves the remaining share rounded down. */
  lemma NetIsFloor(amount: nat, feeBps: nat)
    requires feeBps <= 10_000
    ensures amount - (amount * feeBps + 9_999) / 10_000 == amount * (10_000 - feeBps) / 10_000
    ensures 0 <= (amount * feeBps + 9_999) / 10_000 <= amount
  {
    assert amount * (10_000 - feeBps) == amount * 10_000 - amount * feeBps;
    assert 0 <= amount * feeBps <= amount * 10_000;
  }

  // ---------------------------------------------------------------- mint

  /** What a deposit issues once it is confirmed, from its value at the two prices. */
  function MintOutcome(c0: Config, c1: Config, amount: u64, first: PriceUpdate, second: PriceUpdate): Result<u64> {
    IssueAtLower(c1.params, BookNotional(c0, amount, first), BookNotional(c1, amount, second))
  }

  function IssueAtLower(p: Params, atRequest: Result<u64>, atConfirm: Result<u64>): Result<u64> {
    var quoted :- atRequest;
    var now :- atConfirm;
    :- Require(Min(now, quoted) > 0, ZeroAmount);
    var terms :- IssueTerms(p, Min(now, quoted));
    Ok(terms.net)
  }

  /** The same as exact integer arithmetic without failures. */
  function MintNet(p: Params, first: Rate, second: Rate, amount: nat): int
    requires first.den > 0 && second.den > 0 && p.collateralRatioBps > 0
  {
    NetOf(p, Lower(amount * second.num / second.den, amount * first.num / first.den))
  }

  function Lower(a: int, b: int): int {
    if a <= b then a else b
  }

  /** Ratio, then fee. */
  function NetOf(p: Params, effective: int): int
    requires p.collateralRatioBps > 0
  {
    effective * BPS / p.collateralRatioBps * (BPS - p.mintFeeBps) / BPS
  }

  lemma IssueTermsExactly(p: Params, effective: u64)
    requires p.collateralRatioBps >= 10_000 && p.mintFeeBps <= 10_000
    ensures var net, terms := NetOf(p, effective), IssueTerms(p, effective);
            && (terms.Ok? <==> net > 0)
            && (terms.Ok? ==> terms.value.net == net)
  {
    var gross := effective * BPS / p.collateralRatioBps;
    QuotientFits(effective * BPS, p.collateralRatioBps);
    ProductBound(effective, BPS, effective, p.collateralRatioBps);
    FloorSmall(effective * BPS, p.collateralRatioBps, effective);
    NetIsFloor(gross, p.mintFeeBps);
  }

  predicate PriceUsable(c: Config, feed: PriceUpdate) {
    feed.price > 0 && Abs(feed.expo + c.syntheticDecimals - c.collateralDecimals) <= MAX_DECIMAL_SHIFT
  }

  lemma NetOfNothing(p: Params)
    requires p.collateralRatioBps > 0
    ensures NetOf(p, 0) == 0
  {
  }

  lemma IssueAtLowerExactly(p: Params, one: nat, two: nat, atRequest: Result<u64>, atConfirm: Result<u64>)
    requires ValidParams(p)
    requires (atRequest.Ok? <==> one <= U64_MAX) && (atRequest.Ok? ==> atRequest.value == one)
    requires (atConfirm.Ok? <==> two <= U64_MAX) && (atConfirm.Ok? ==> atConfirm.value == two)
    ensures var out, net := IssueAtLower(p, atRequest, atConfirm), NetOf(p, Lower(two, one));
            && (out.Ok? <==> one <= U64_MAX && two <= U64_MAX && net > 0)
            && (out.Ok? ==> out.value == net)
  {
    NetOfNothing(p);
    if one <= U64_MAX && two <= U64_MAX {
      IssueTermsExactly(p, Min(two, one));
    }
  }

  /** A deposit succeeds exactly when its notional fits at both prices and something is left to issue. */
  lemma MintOutcomeExactly(c0: Config, c1: Config, amount: u64, first: PriceUpdate, second: PriceUpdate)
    requires ValidParams(c1.params) && PriceUsable(c0, first) && PriceUsable(c1, second)
    ensures var r0, r1, out := FeedRate(c0, first), FeedRate(c1, second), MintOutcome(c0, c1, amount, first, second);
            var net := MintNet(c1.params, r0, r1, amount);
            && (out.Ok? <==> && amount * r0.num / r0.den <= U64_MAX && amount * r1.num / r1.den <= U64_MAX
                             && net > 0)
            && (out.Ok? ==> out.value == net)
  {
    var r0, r1 := FeedRate(c0, first), FeedRate(c1, second);
    NotionalIsFloor(amount, first.price, first.expo, c0.collateralDecimals, c0.syntheticDecimals);
    NotionalIsFloor(amount, second.price, second.expo, c1.collateralDecimals, c1.syntheticDecimals);
    QuotientFits(amount * r0.num, r0.den);
    QuotientFits(amount * r1.num, r1.den);
    IssueAtLowerExactly(c1.params, amount * r0.num / r0.den, amount * r1.num / r1.den,
                        BookNotional(c0, amount, first), BookNotional(c1, amount, second));
  }

  lemma MintNetAdds(p: Params, first: Rate, second: Rate, a: nat, b: nat)
    requires first.den > 0 && second.den > 0 && ValidParams(p)
    ensures 0 <= MintNet(p, first, second, a) && 0 <= MintNet(p, first, second, b)
    ensures MintNet(p, first, second, a) + MintNet(p, first, second, b) <= MintNet(p, first, second, a + b)
  {
    FloorAdds(a, b, first.num, first.den);
    FloorAdds(a, b, second.num, second.den);
    var x := Lower(a * second.num / second.den, a * first.num / first.den);
    var y := Lower(b * second.num / second.den, b * first.num / first.den);
    var z := Lower((a + b) * second.num / second.den, (a + b) * first.num / first.den);
    ChainAdds(x, y, z, BPS, p.collateralRatioBps);
    ChainAdds(x * BPS / p.collateralRatioBps, y * BPS / p.collateralRatioBps, z * BPS / p.collateralRatioBps,
              BPS - p.mintFeeBps, BPS);
  }

  lemma ChainAdds(x: nat, y: nat, z: nat, num: nat, den: nat)
    requires den > 0 && x + y <= z
    ensures 0 <= x * num / den && 0 <= y * num / den && x * num / den + y * num / den <= z * num / den
  {
    FloorAdds(x, y, num, den);
    FloorMonotone(x + y, z, num, den);
  }

  function Total(amounts: seq<u64>): nat {
    if amounts == [] then 0 else amounts[0] + Total(amounts[1..])
  }

  /** A piece that fails brings nothing. */
  function Worth(r: Result<u64>): nat {
    if r.Ok? then r.value else 0
  }

  /** What separate deposits are worth together. */
  function MintEach(c0: Config, c1: Config, amounts: seq<u64>, first: PriceUpdate, second: PriceUpdate): nat {
    if amounts == [] then 0
    else Worth(MintOutcome(c0, c1, amounts[0], first, second)) + MintEach(c0, c1, amounts[1..], first, second)
  }

  lemma {:induction false} MintEachBelow(
    c0: Config, c1: Config, amounts: seq<u64>, first: PriceUpdate, second: PriceUpdate)
    requires ValidParams(c1.params) && PriceUsable(c0, first) && PriceUsable(c1, second)
    ensures MintEach(c0, c1, amounts, first, second)
            <= MintNet(c1.params, FeedRate(c0, first), FeedRate(c1, second), Total(amounts))
  {
    var r0, r1 := FeedRate(c0, first), FeedRate(c1, second);
    if amounts == [] {
      NothingForNothing(c1.params, r0, r1);
    } else {
      MintEachBelow(c0, c1, amounts[1..], first, second);
      MintOutcomeExactly(c0, c1, amounts[0], first, second);
      MintNetAdds(c1.params, r0, r1, amounts[0], Total(amounts[1..]));
    }
  }

  lemma NothingForNothing(p: Params, first: Rate, second: Rate)
    requires first.den > 0 && second.den > 0 && p.collateralRatioBps > 0
    ensures MintNet(p, first, second, 0) == 0
  {
    assert 0 * first.num / first.den == 0 && 0 * second.num / second.den == 0;
  }

  /** Conversions succeed at usable prices only. */
  lemma SuccessNeedsUsablePrice(c: Config, amount: u64, feed: PriceUpdate)
    requires BookNotional(c, amount, feed).Ok? || QuoteCollateral(c, amount, feed).Ok?
    ensures PriceUsable(c, feed)
  {
    NotionalIsFloor(amount, feed.price, feed.expo, c.collateralDecimals, c.syntheticDecimals);
    CollateralIsFloor(amount, feed.price, feed.expo, c.collateralDecimals, c.syntheticDecimals);
  }

  lemma {:induction false} MintEachNeedsPrices(
    c0: Config, c1: Config, amounts: seq<u64>, first: PriceUpdate, second: PriceUpdate)
    requires MintEach(c0, c1, amounts, first, second) > 0
    ensures PriceUsable(c0, first) && PriceUsable(c1, second)
  {
    if MintOutcome(c0, c1, amounts[0], first, second).Ok? {
      SuccessNeedsUsablePrice(c0, amounts[0], first);
      SuccessNeedsUsablePrice(c1, amounts[0], second);
    } else {
      MintEachNeedsPrices(c0, c1, amounts[1..], first, second);
    }
  }

  /** However a deposit is split at the same two prices, failing pieces included: if the pieces bring anything,
      one deposit of the total either does not fit the machine integers or issues at least as much. */
  lemma SplitDepositsNeverPay(c0: Config, c1: Config, amounts: seq<u64>, first: PriceUpdate, second: PriceUpdate)
    requires ValidParams(c1.params) && Total(amounts) <= U64_MAX
    ensures var sum := MintEach(c0, c1, amounts, first, second);
            var whole := MintOutcome(c0, c1, Total(amounts), first, second);
            sum > 0 ==>
              && PriceUsable(c0, first) && PriceUsable(c1, second)
              && var r0, r1 := FeedRate(c0, first), FeedRate(c1, second);
              if Total(amounts) * r0.num / r0.den <= U64_MAX && Total(amounts) * r1.num / r1.den <= U64_MAX
              then whole.Ok? && whole.value >= sum else whole.Err?
  {
    if MintEach(c0, c1, amounts, first, second) > 0 {
      MintEachNeedsPrices(c0, c1, amounts, first, second);
      MintEachBelow(c0, c1, amounts, first, second);
      MintOutcomeExactly(c0, c1, Total(amounts), first, second);
    }
  }

  lemma RequestQuotes(s: State, env: Env, user: Key, nonce: u64, amount: u64, minOut: u64, t: State)
    requires MintRequestSpec(s, env, user, nonce, amount, minOut) == Ok(t)
    ensures var r := t.mints[RequestId(user, nonce)];
            && r.collateralAmount == amount && r.minSyntheticOut == minOut
            && BookNotional(s.config, amount, env.feed) == Ok(r.quotedNotional)
  {
    assert LoadPrice(env, s.config.params) == Ok(env.feed);
    assert BookNotional(s.config, amount, env.feed).Ok?;
  }

  lemma ConfirmIssues(
    s: State, env: Env, keeper: Key, user: Key, nonce: u64, hedgeHash: Bytes32, venueId: u8, filled: u64, t: State)
    requires MintConfirmSpec(s, env, keeper, user, nonce, hedgeHash, venueId, filled) == Ok(t)
    ensures var r := s.mints[RequestId(user, nonce)];
            IssueAtLower(s.config.params, Ok(r.quotedNotional), BookNotional(s.config, r.collateralAmount, env.feed))
            == Ok(t.config.book.totalSynthetic - s.config.book.totalSynthetic)
  {
  }

  lemma ConfirmCredits(
    s: State, env: Env, keeper: Key, user: Key, nonce: u64, hedgeHash: Bytes32, venueId: u8, filled: u64, t: State)
    requires MintConfirmSpec(s, env, keeper, user, nonce, hedgeHash, venueId, filled) == Ok(t)
    ensures s.mints[RequestId(user, nonce)].minSyntheticOut
            <= t.config.book.totalSynthetic - s.config.book.totalSynthetic
            == Balance(t.tokens.synthetic, User(user)) - Balance(s.tokens.synthetic, User(user))
  {
  }

  /** A deposit carried through both handlers issues what `MintOutcome` says, whatever happened between, to the
      depositor and never less than the depositor asked for. */
  lemma DepositPays(
    s: State, env: Env, user: Key, nonce: u64, amount: u64, minOut: u64, escrowed: State,
    later: State, env': Env, keeper: Key, hedgeHash: Bytes32, venueId: u8, filled: u64, settled: State)
    requires MintRequestSpec(s, env, user, nonce, amount, minOut) == Ok(escrowed)
    requires var id := RequestId(user, nonce); id in later.mints && later.mints[id] == escrowed.mints[id]
    requires MintConfirmSpec(later, env', keeper, user, nonce, hedgeHash, venueId, filled) == Ok(settled)
    ensures MintOutcome(s.config, later.config, amount, env.feed, env'.feed)
            == Ok(settled.config.book.totalSynthetic - later.config.book.totalSynthetic)
    ensures var issued := Balance(settled.tokens.synthetic, User(user)) - Balance(later.tokens.synthetic, User(user));
            minOut <= issued == settled.config.book.totalSynthetic - later.config.book.totalSynthetic
  {
    RequestQuotes(s, env, user, nonce, amount, minOut, escrowed);
    ConfirmIssues(later, env', keeper, user, nonce, hedgeHash, venueId, filled, settled);
    ConfirmCredits(later, env', keeper, user, nonce, hedgeHash, venueId, filled, settled);
  }

  // ---------------------------------------------------------------- redeem

  /** The net amount at one price. */
  function NetQuote(c: Config, amount: u64, feed: PriceUpdate): Result<u64> {
    var net :- NetOfRedeemFee(amount, c.params.redeemFeeBps);
    QuoteCollateral(c, net, feed)
  }

  /** What a redemption pays; the fee in force at each of the two phases applies to its own quote. */
  function RedeemOutcome(c0: Config, c1: Config, amount: u64, first: PriceUpdate, second: PriceUpdate): Result<u64> {
    PayAtLower(NetQuote(c0, amount, first), NetQuote(c1, amount, second))
  }

  function PayAtLower(atRequest: Result<u64>, atConfirm: Result<u64>): Result<u64> {
    var quoted :- atRequest;
    var now :- atConfirm;
    :- Require(Min(now, quoted) > 0, ZeroAmount);
    Ok(Min(now, quoted))
  }

  /** One quote as exact integer arithmetic. */
  function QuoteOf(feeBps: nat, rate: Rate, amount: nat): int
    requires rate.num > 0
  {
    amount * (BPS - feeBps) / BPS * rate.den / rate.num
  }

  /** One quote fits the machine integers, intermediate products included. */
  predicate QuoteFits(c: Config, feed: PriceUpdate, amount: u64)
    requires feed.price > 0
  {
    var net, rate := amount * (BPS - c.params.redeemFeeBps) / BPS, FeedRate(c, feed);
    && (if feed.expo + c.syntheticDecimals >= c.collateralDecimals then rate.num else net * rate.den) <= U128_MAX
    && QuoteOf(c.params.redeemFeeBps, rate, amount) <= U64_MAX
  }

  lemma QuoteExactly(c: Config, feed: PriceUpdate, amount: u64)
    requires ValidParams(c.params) && PriceUsable(c, feed)
    ensures var quote := NetQuote(c, amount, feed);
            && (quote.Ok? <==> QuoteFits(c, feed, amount))
            && (quote.Ok? ==> quote.value == QuoteOf(c.params.redeemFeeBps, FeedRate(c, feed), amount))
  {
    NetIsFloor(amount, c.params.redeemFeeBps);
    var net := amount * (BPS - c.params.redeemFeeBps) / BPS;
    CollateralIsFloor(net, feed.price, feed.expo, c.collateralDecimals, c.syntheticDecimals);
  }

  function RedeemNet(c0: Config, c1: Config, first: PriceUpdate, second: PriceUpdate, amount: nat): int
    requires first.price > 0 && second.price > 0
  {
    Lower(QuoteOf(c1.params.redeemFeeBps, FeedRate(c1, second), amount),
          QuoteOf(c0.params.redeemFeeBps, FeedRate(c0, first), amount))
  }

  /** A redemption succeeds exactly when both quotes fit and something is left to pay. */
  lemma RedeemOutcomeExactly(c0: Config, c1: Config, amount: u64, first: PriceUpdate, second: PriceUpdate)
    requires ValidParams(c0.params) && ValidParams(c1.params) && PriceUsable(c0, first) && PriceUsable(c1, second)
    ensures var out, net := RedeemOutcome(c0, c1, amount, first, second), RedeemNet(c0, c1, first, second, amount);
            && (out.Ok? <==> QuoteFits(c0, first, amount) && QuoteFits(c1, second, amount) && net > 0)
            && (out.Ok? ==> out.value == net)
  {
    QuoteExactly(c0, first, amount);
    QuoteExactly(c1, second, amount);
  }

  lemma QuoteAdds(feeBps: nat, rate: Rate, a: nat, b: nat)
    requires rate.num > 0 && feeBps <= BPS
    ensures 0 <= QuoteOf(feeBps, rate, a) && 0 <= QuoteOf(feeBps, rate, b)
    ensures QuoteOf(feeBps, rate, a) + QuoteOf(feeBps, rate, b) <= QuoteOf(feeBps, rate, a + b)
  {
    FloorAdds(a, b, BPS - feeBps, BPS);
    FloorMonotone(0, a + b, BPS - feeBps, BPS);
    ChainAdds(a * (BPS - feeBps) / BPS, b * (BPS - feeBps) / BPS, (a + b) * (BPS - feeBps) / BPS, rate.den, rate.num);
  }

  function RedeemEach(c0: Config, c1: Config, amounts: seq<u64>, first: PriceUpdate, second: PriceUpdate): nat {
    if amounts == [] then 0
    else Worth(RedeemOutcome(c0, c1, amounts[0], first, second)) + RedeemEach(c0, c1, amounts[1..], first, second)
  }

  lemma {:induction false} RedeemEachBelow(
    c0: Config, c1: Config, amounts: seq<u64>, first: PriceUpdate, second: PriceUpdate)
    requires ValidParams(c0.params) && ValidParams(c1.params) && PriceUsable(c0, first) && PriceUsable(c1, second)
    ensures RedeemEach(c0, c1, amounts, first, second) <= RedeemNet(c0, c1, first, second, Total(amounts))
  {
    var f0, f1, r0, r1 := c0.params.redeemFeeBps, c1.params.redeemFeeBps, FeedRate(c0, first), FeedRate(c1, second);
    if amounts == [] {
      QuoteAdds(f0, r0, 0, 0);
      QuoteAdds(f1, r1, 0, 0);
    } else {
      RedeemEachBelow(c0, c1, amounts[1..], first, second);
      RedeemOutcomeExactly(c0, c1, amounts[0], first, second);
      QuoteAdds(f0, r0, amounts[0], Total(amounts[1..]));
      QuoteAdds(f1, r1, amounts[0], Total(amounts[1..]));
    }
  }

  lemma {:induction false} RedeemEachNeedsPrices(
    c0: Config, c1: Config, amounts: seq<u64>, first: PriceUpdate, second: PriceUpdate)
    requires RedeemEach(c0, c1, amounts, first, second) > 0
    ensures PriceUsable(c0, first) && PriceUsable(c1, second)
  {
    if RedeemOutcome(c0, c1, amounts[0], first, second).Ok? {
      SuccessNeedsUsablePrice(c0, NetOfRedeemFee(amounts[0], c0.params.redeemFeeBps).value, first);
      SuccessNeedsUsablePrice(c1, NetOfRedeemFee(amounts[0], c1.params.redeemFeeBps).value, second);
    } else {
      RedeemEachNeedsPrices(c0, c1, amounts[1..], first, second);
    }
  }

  /** However a redemption is split at the same two prices, failing pieces included: if the pieces bring anything,
      one redemption of the total either does not fit the machine integers or pays at least as much. */
  lemma SplitRedemptionsNeverPay(c0: Config, c1: Config, amounts: seq<u64>, first: PriceUpdate, second: PriceUpdate)
    requires ValidParams(c0.params) && ValidParams(c1.params) && Total(amounts) <= U64_MAX
    ensures var sum := RedeemEach(c0, c1, amounts, first, second);
            var whole := RedeemOutcome(c0, c1, Total(amounts), first, second);
            sum > 0 ==>
              && PriceUsable(c0, first) && PriceUsable(c1, second)
              && if QuoteFits(c0, first, Total(amounts)) && QuoteFits(c1, second, Total(amounts))
                 then whole.Ok? && whole.value >= sum else whole.Err?
  {
    if RedeemEach(c0, c1, amounts, first, second) > 0 {
      RedeemEachNeedsPrices(c0, c1, amounts, first, second);
      RedeemEachBelow(c0, c1, amounts, first, second);
      RedeemOutcomeExactly(c0, c1, Total(amounts), first, second);
    }
  }

  /** A redemption carried through both handlers pays what `RedeemOutcome` says, to the redeemer and never
      less than the redeemer asked for. */
  lemma RedemptionPays(
    s: State, env: Env, user: Key, nonce: u64, amount: u64, minOut: u64, escrowed: State,
    later: State, env': Env, keeper: Key, unwindHash: Bytes32, unwound: u64, settled: State)
    requires RedeemRequestSpec(s, env, user, nonce, amount, minOut) == Ok(escrowed)
    requires var id := RequestId(user, nonce); id in later.redeems && later.redeems[id] == escrowed.redeems[id]
    requires RedeemConfirmSpec(later, env', keeper, user, nonce, unwindHash, unwound) == Ok(settled)
    ensures RedeemOutcome(s.config, later.config, amount, env.feed, env'.feed)
            == Ok(later.config.book.totalCollateral - settled.config.book.totalCollateral)
    ensures var paid := Balance(settled.tokens.collateral, User(user)) - Balance(later.tokens.collateral, User(user));
            minOut <= paid == later.config.book.totalCollateral - settled.config.book.totalCollateral
  {
    ExitQuotes(s, env, user, nonce, amount, minOut, escrowed);
    SettlementPays(later, env', keeper, user, nonce, unwindHash, unwound, settled);
  }

  lemma ExitQuotes(s: State, env: Env, user: Key, nonce: u64, amount: u64, minOut: u64, t: State)
    requires RedeemRequestSpec(s, env, user, nonce, amount, minOut) == Ok(t)
    ensures var r := t.redeems[RequestId(user, nonce)];
            && r.syntheticAmount == amount && r.minCollateralOut == minOut
            && NetQuote(s.config, amount, env.feed) == Ok(r.quotedCollateral)
  {
  }

  lemma SettlementPays(
    s: State, env: Env, keeper: Key, user: Key, nonce: u64, unwindHash: Bytes32, unwound: u64, t: State)
    requires RedeemConfirmSpec(s, env, keeper, user, nonce, unwindHash, unwound) == Ok(t)
    ensures var r := s.redeems[RequestId(user, nonce)];
            PayAtLower(Ok(r.quotedCollateral), NetQuote(s.config, r.syntheticAmount, env.feed))
            == Ok(s.config.book.totalCollateral - t.config.book.totalCollateral)
    ensures s.redeems[RequestId(user, nonce)].minCollateralOut
            <= s.config.book.totalCollateral - t.config.book.totalCollateral
            == Balance(t.tokens.collateral, User(user)) - Balance(s.tokens.collateral, User(user))
  {
  }
}
