/** The collateral behind the synthetic supply, over whole runs. */
module Backing {
  import opened Checked
  import opened FixedPoint
  import opened TokenLedger
  import opened Accounts
  import opened Oracle
  import opened MapSums
  import opened Proof
  import opened Protocol
  import opened Frames
  import opened Mint
  import opened Redeem
  import opened Rates
  import Governance
  import Ledger

  /** The exact value of the collateral at a rate is at least the given notional. */
  predicate Covers(collateral: nat, rate: Rate, notional: nat) {
    notional * rate.den <= collateral * rate.num
  }

  // ---------------------------------------------------------------- what a confirmation charges

  function MintTerms(c: Config, r: MintRequest, feed: PriceUpdate): Result<Terms> {
    var effective :- EffectiveNotional(c, r.collateralAmount, r.quotedNotional, feed);
    IssueTerms(c.params, effective)
  }

  function ConfirmedRequest(m: MintCall): RequestId {
    RequestId(m.user, m.nonce)
  }

  function MintFee(s: State, m: MintCall, feed: PriceUpdate): int {
    if ConfirmedRequest(m) !in s.mints then 0 else
    var terms := MintTerms(s.config, s.mints[ConfirmedRequest(m)], feed);
    if terms.Ok? then terms.value.fee else 0
  }

  function RedeemFee(s: State, r: RedeemCall): int {
    var id := RequestId(r.user, r.nonce);
    if id !in s.redeems then 0 else
    var fee := MulBpsCeil(s.redeems[id].syntheticAmount, s.config.params.redeemFeeBps);
    if fee.Ok? then fee.value else 0
  }

  function FeeCharged(before: State, e: Entry): int {
    if e.call.Issue? && e.call.m.ConfirmMint? then MintFee(before, e.call.m, e.env.feed)
    else if e.call.Exit? && e.call.r.ConfirmRedeem? then RedeemFee(before, e.call.r)
    else 0
  }

  predicate IsConfirm(c: Call) {
    (c.Issue? && c.m.ConfirmMint?) || (c.Exit? && c.r.ConfirmRedeem?)
  }

  /** A rate below every rate. */
  const NO_RATE: Rate := Rate(0, 1)

  function RateNow(c: Config, feed: PriceUpdate): (r: Rate)
    ensures r.den > 0
  {
    if feed.price > 0 then FeedRate(c, feed) else NO_RATE
  }

  /** The rate of the last confirmation so far and all fees charged so far. */
  datatype Charges = Charges(rate: Rate, fees: int)

  function Charge(c: Charges, before: State, e: Entry, after: State): Charges {
    if IsConfirm(e.call) then Charges(RateNow(before.config, e.env.feed), c.fees + FeeCharged(before, e)) else c
  }

  ghost function ChargesOver(hash: Digest, s: State, run: seq<Entry>): Charges {
    if run == [] then Charges(NO_RATE, 0) else
    var prior, e := ChargesOver(hash, s, run[..|run| - 1]), run[|run| - 1];
    var before := Run(hash, s, run[..|run| - 1]);
    var r := Step(hash, before, e);
    if r.Ok? then Charge(prior, before, e, r.value) else prior
  }

  /** The exact price never decreases from one confirmation to the next. */
  ghost predicate Rising(hash: Digest, s: State, run: seq<Entry>) {
    run == [] ||
    (Rising(hash, s, run[..|run| - 1]) &&
     AtMost(ChargesOver(hash, s, run[..|run| - 1]).rate, ChargesOver(hash, s, run).rate))
  }

  ghost predicate Backed(s: State, c: Charges) {
    && c.fees >= 0 && c.rate.den > 0
    && Covers(s.config.book.totalCollateral, c.rate, s.config.book.totalSynthetic + c.fees)
  }

  // ---------------------------------------------------------------- arithmetic

  lemma Cancel(x: nat, y: nat, d: nat)
    requires d > 0 && x * d <= y * d
    ensures x <= y
  {
    if x > y {
      ProductBound(y + 1, d, x, d);
    }
  }

  /** Cover at a rate is cover at every higher rate. */
  lemma CoverRises(collateral: nat, notional: nat, low: Rate, high: Rate)
    requires Covers(collateral, low, notional) && AtMost(low, high) && low.den > 0
    ensures Covers(collateral, high, notional)
  {
    var need, have := notional * high.den, collateral * high.num;
    assert need * low.den == notional * low.den * high.den;
    assert notional * low.den * high.den <= collateral * low.num * high.den;
    assert collateral * low.num * high.den == collateral * (low.num * high.den);
    assert collateral * (low.num * high.den) <= collateral * (high.num * low.den);
    assert collateral * (high.num * low.den) == have * low.den;
    Cancel(need, have, low.den);
  }

  lemma CoverAdds(a: nat, b: nat, m: nat, n: nat, rate: Rate)
    requires Covers(a, rate, m) && Covers(b, rate, n)
    ensures Covers(a + b, rate, m + n)
  {
    assert (m + n) * rate.den == m * rate.den + n * rate.den;
    assert (a + b) * rate.num == a * rate.num + b * rate.num;
  }

  /** Paying out at most what a notional is worth keeps the rest covered. */
  lemma CoverSubtracts(a: nat, b: nat, m: nat, n: nat, rate: Rate)
    requires Covers(a, rate, m + n) && b * rate.num <= n * rate.den && rate.num > 0
    ensures b <= a && Covers(a - b, rate, m)
  {
    assert (m + n) * rate.den == m * rate.den + n * rate.den;
    Cancel(b, a, rate.num);
    assert (a - b) * rate.num == a * rate.num - b * rate.num;
  }

  // ---------------------------------------------------------------- steps

  lemma FloorCovered(amount: nat, rate: Rate, notional: nat)
    requires rate.den > 0 && notional <= amount * rate.num / rate.den
    ensures Covers(amount, rate, notional)
  {
    DivBounds(amount * rate.num, rate.den);
    ProductBound(notional, rate.den, amount * rate.num / rate.den, rate.den);
  }

  lemma RatioShrinks(effective: nat, ratio: nat)
    requires ratio >= 10_000
    ensures effective * BPS / ratio <= effective
  {
    ProductBound(effective, 10_000, effective, ratio);
    FloorSmall(effective * BPS, ratio, effective);
  }

  lemma TermsBounded(p: Params, effective: u64, terms: Terms)
    requires p.collateralRatioBps >= 10_000 && IssueTerms(p, effective) == Ok(terms)
    ensures 0 < terms.net && terms.gross == terms.net + terms.fee <= effective
  {
    RatioShrinks(effective, p.collateralRatioBps);
  }

  /** What is issued and charged together is worth no more than the collateral taken in. */
  lemma MintTermsCovered(c: Config, r: MintRequest, feed: PriceUpdate, terms: Terms)
    requires feed.price > 0 && c.params.collateralRatioBps >= 10_000 && MintTerms(c, r, feed) == Ok(terms)
    ensures terms.gross == terms.net + terms.fee && terms.net > 0
    ensures Covers(r.collateralAmount, FeedRate(c, feed), terms.gross)
  {
    var effective := EffectiveNotional(c, r.collateralAmount, r.quotedNotional, feed).value;
    TermsBounded(c.params, effective, terms);
    NotionalIsFloor(r.collateralAmount, feed.price, feed.expo, c.collateralDecimals, c.syntheticDecimals);
    FloorCovered(r.collateralAmount, FeedRate(c, feed), terms.gross);
  }

  lemma MintConfirmBacked(s: State, e: Entry, t: State, before: Charges)
    requires Admin.ValidParams(s.config.params) && e.call.Issue? && e.call.m.ConfirmMint?
    requires MintStep(s, e.env, e.call.m) == Ok(t)
    requires Backed(s, before) && AtMost(before.rate, RateNow(s.config, e.env.feed))
    ensures Backed(t, Charge(before, s, e, t))
  {
    var m, env, c, fees := e.call.m, e.env, s.config, before.fees;
    var r, terms := s.mints[ConfirmedRequest(m)], MintTerms(c, s.mints[ConfirmedRequest(m)], env.feed);
    assert LoadPrice(env, c.params).Ok?;
    MintTermsCovered(c, r, env.feed, terms.value);
    CoverRises(c.book.totalCollateral, c.book.totalSynthetic + fees, before.rate, FeedRate(c, env.feed));
    CoverAdds(c.book.totalCollateral, r.collateralAmount, c.book.totalSynthetic + fees, terms.value.gross,
              FeedRate(c, env.feed));
  }

  /** A redemption pays at most what the burned amount less its fee is worth. */
  lemma PayoutCovered(c: Config, amount: u64, quoted: u64, feed: PriceUpdate, effective: u64)
    requires feed.price > 0 && EffectiveCollateral(c, amount, quoted, feed) == Ok(effective)
    ensures var fee := MulBpsCeil(amount, c.params.redeemFeeBps);
            && fee.Ok? && fee.value <= amount
            && effective * FeedRate(c, feed).num <= (amount - fee.value) * FeedRate(c, feed).den
  {
    var net, rate := NetOfRedeemFee(amount, c.params.redeemFeeBps).value, FeedRate(c, feed);
    CollateralIsFloor(net, feed.price, feed.expo, c.collateralDecimals, c.syntheticDecimals);
    FloorPays(net, rate, effective);
  }

  lemma FloorPays(net: nat, rate: Rate, effective: nat)
    requires rate.num > 0 && effective <= net * rate.den / rate.num
    ensures effective * rate.num <= net * rate.den
  {
    DivBounds(net * rate.den, rate.num);
    ProductBound(effective, rate.num, net * rate.den / rate.num, rate.num);
  }

  lemma RedeemConfirmBacked(s: State, e: Entry, t: State, before: Charges)
    requires e.call.Exit? && e.call.r.ConfirmRedeem? && RedeemStep(s, e.env, e.call.r) == Ok(t)
    requires Backed(s, before) && AtMost(before.rate, RateNow(s.config, e.env.feed))
    ensures Backed(t, Charge(before, s, e, t))
  {
    var r, env, c, fees := e.call.r, e.env, s.config, before.fees;
    var id := RequestId(r.user, r.nonce);
    var amount, now := s.redeems[id].syntheticAmount, FeedRate(c, env.feed);
    assert LoadPrice(env, c.params).Ok?;
    var effective := EffectiveCollateral(c, amount, s.redeems[id].quotedCollateral, env.feed).value;
    PayoutCovered(c, amount, s.redeems[id].quotedCollateral, env.feed, effective);
    CoverRises(c.book.totalCollateral, c.book.totalSynthetic + fees, before.rate, now);
    var fee := MulBpsCeil(amount, c.params.redeemFeeBps).value;
    CoverSubtracts(c.book.totalCollateral, effective, c.book.totalSynthetic - amount + fees + fee, amount - fee, now);
  }

  /** Every other instruction leaves both sides alone. */
  lemma OthersKeepBook(hash: Digest, s: State, e: Entry, t: State)
    requires Step(hash, s, e) == Ok(t) && !IsConfirm(e.call)
    ensures t.config.book.totalCollateral == s.config.book.totalCollateral
    ensures t.config.book.totalSynthetic == s.config.book.totalSynthetic
  {
    StepFramed(hash, s, e, t);
    if e.call.Issue? {
      MintFrame(s, e.env, e.call.m, t);
    } else if e.call.Exit? {
      RedeemFrame(s, e.env, e.call.r, t);
    }
  }

  lemma StepBacked(hash: Digest, s: State, e: Entry, t: State, before: Charges)
    requires Admin.ValidParams(s.config.params) && Step(hash, s, e) == Ok(t)
    requires Backed(s, before) && AtMost(before.rate, Charge(before, s, e, t).rate)
    ensures Backed(t, Charge(before, s, e, t))
  {
    if !IsConfirm(e.call) {
      OthersKeepBook(hash, s, e, t);
    } else if e.call.Issue? {
      MintConfirmBacked(s, e, t, before);
    } else {
      RedeemConfirmBacked(s, e, t, before);
    }
  }

  // ---------------------------------------------------------------- whole runs

  /** As long as the price never falls between confirmations, the collateral is worth at least the whole
      synthetic supply plus every mint and redeem fee charged so far. */
  lemma {:induction false} SupplyBacked(hash: Digest, s: State, run: seq<Entry>)
    requires Initial(s) && Rising(hash, s, run)
    ensures Backed(Run(hash, s, run), ChargesOver(hash, s, run))
    decreases |run|
  {
    if run != [] {
      var prior, e := run[..|run| - 1], run[|run| - 1];
      SupplyBacked(hash, s, prior);
      Governance.RunGoverned(hash, s, prior);
      var before := Run(hash, s, prior);
      if Step(hash, before, e).Ok? {
        StepBacked(hash, before, e, Step(hash, before, e).value, ChargesOver(hash, s, prior));
      }
    }
  }

  // ---------------------------------------------------------------- redemptions can be paid

  function PayoutAt(c: Config, feed: PriceUpdate): RedeemRequest -> int {
    (r: RedeemRequest) =>
      var effective := EffectiveCollateral(c, r.syntheticAmount, r.quotedCollateral, feed);
      if effective.Ok? then effective.value else 0
  }

  lemma OnePayout(c: Config, feed: PriceUpdate, r: RedeemRequest)
    requires feed.price > 0
    ensures 0 <= PayoutAt(c, feed)(r)
    ensures Covers(r.syntheticAmount, Inverse(FeedRate(c, feed)), PayoutAt(c, feed)(r))
  {
    var effective := EffectiveCollateral(c, r.syntheticAmount, r.quotedCollateral, feed);
    if effective.Ok? {
      PayoutCovered(c, r.syntheticAmount, r.quotedCollateral, feed, effective.value);
      var fee := MulBpsCeil(r.syntheticAmount, c.params.redeemFeeBps).value;
      ProductBound(r.syntheticAmount - fee, FeedRate(c, feed).den, r.syntheticAmount, FeedRate(c, feed).den);
    }
  }

  function Inverse(r: Rate): Rate {
    Rate(r.den, r.num)
  }

  lemma {:induction false} PayoutsWorth(m: map<RequestId, RedeemRequest>, c: Config, feed: PriceUpdate)
    requires feed.price > 0
    ensures 0 <= Sum(m, PayoutAt(c, feed)) && 0 <= Sum(m, Ledger.BurnOf)
    ensures Covers(Sum(m, Ledger.BurnOf), Inverse(FeedRate(c, feed)), Sum(m, PayoutAt(c, feed)))
    decreases |m|
  {
    if |m| != 0 {
      var k := Pick(m);
      PayoutsWorth(m - {k}, c, feed);
      OnePayout(c, feed, m[k]);
      CoverAdds(m[k].syntheticAmount, Sum(m - {k}, Ledger.BurnOf), PayoutAt(c, feed)(m[k]),
                Sum(m - {k}, PayoutAt(c, feed)), Inverse(FeedRate(c, feed)));
    }
  }

  lemma PayoutsFit(s: State, feed: PriceUpdate, c: Charges)
    requires Backed(s, c) && Ledger.RedeemPart(s) && feed.price > 0 && AtMost(c.rate, RateNow(s.config, feed))
    ensures Sum(s.redeems, PayoutAt(s.config, feed)) <= s.config.book.totalCollateral
  {
    var now, book := FeedRate(s.config, feed), s.config.book;
    PayoutsWorth(s.redeems, s.config, feed);
    CoverRises(book.totalCollateral, book.totalSynthetic + c.fees, c.rate, now);
    CoverSubtracts(book.totalCollateral, Sum(s.redeems, PayoutAt(s.config, feed)),
                   book.totalSynthetic + c.fees - book.pendingRedeem, book.pendingRedeem, now);
  }

  /** At any price not below the last confirmation's, all open redemptions together can be paid, so their
      order does not matter. */
  lemma AllRedemptionsPayable(hash: Digest, s: State, run: seq<Entry>, feed: PriceUpdate)
    requires Initial(s) && Rising(hash, s, run) && feed.price > 0
    requires AtMost(ChargesOver(hash, s, run).rate, RateNow(Run(hash, s, run).config, feed))
    ensures var t := Run(hash, s, run);
            Sum(t.redeems, PayoutAt(t.config, feed)) <= t.config.book.totalCollateral
  {
    SupplyBacked(hash, s, run);
    Ledger.LedgerBalanced(hash, s, run);
    PayoutsFit(Run(hash, s, run), feed, ChargesOver(hash, s, run));
  }

  /** What the vaults must hold for a settlement not to run short. */
  ghost predicate Stocked(s: State) {
    && s.config.book.totalCollateral <= Balance(s.tokens.collateral, CollateralVault)
    && s.config.book.pendingRedeem <= Balance(s.tokens.synthetic, RedeemEscrow)
    && s.config.book.totalSynthetic <= s.tokens.syntheticSupply
  }

  lemma PayoutFits(s: State, q: RedeemRequest, feed: PriceUpdate, c: Charges, effective: u64)
    requires Backed(s, c) && feed.price > 0 && q.syntheticAmount <= s.config.book.totalSynthetic
    requires AtMost(c.rate, RateNow(s.config, feed))
    requires EffectiveCollateral(s.config, q.syntheticAmount, q.quotedCollateral, feed) == Ok(effective)
    ensures effective <= s.config.book.totalCollateral
  {
    var book, now := s.config.book, FeedRate(s.config, feed);
    PayoutCovered(s.config, q.syntheticAmount, q.quotedCollateral, feed, effective);
    var fee := MulBpsCeil(q.syntheticAmount, s.config.params.redeemFeeBps).value;
    CoverRises(book.totalCollateral, book.totalSynthetic + c.fees, c.rate, now);
    CoverSubtracts(book.totalCollateral, effective, book.totalSynthetic + c.fees - q.syntheticAmount + fee,
                   q.syntheticAmount - fee, now);
  }

  lemma ShortOnlyIf(s: State, env: Env, r: RedeemCall)
    requires r.ConfirmRedeem?
    requires RedeemStep(s, env, r) in {Err(RedeemExceedsCollateral), Err(TokenTransferFailed)}
    ensures var id := RequestId(r.user, r.nonce);
            && id in s.redeems && env.feed.price > 0
            && var q := s.redeems[id];
            var effective := EffectiveCollateral(s.config, q.syntheticAmount, q.quotedCollateral, env.feed);
            && effective.Ok?
            && (|| effective.value > s.config.book.totalCollateral
                || effective.value > Balance(s.tokens.collateral, CollateralVault)
                || q.syntheticAmount > Balance(s.tokens.synthetic, RedeemEscrow)
                || q.syntheticAmount > s.tokens.syntheticSupply)
  {
  }

  lemma SettlementNotShort(s: State, env: Env, r: RedeemCall, c: Charges)
    requires Backed(s, c) && Ledger.RedeemPart(s) && Stocked(s) && r.ConfirmRedeem?
    requires AtMost(c.rate, RateNow(s.config, env.feed))
    ensures RedeemStep(s, env, r) !in {Err(RedeemExceedsCollateral), Err(TokenTransferFailed)}
  {
    if RedeemStep(s, env, r) in {Err(RedeemExceedsCollateral), Err(TokenTransferFailed)} {
      ShortOnlyIf(s, env, r);
      var q := s.redeems[RequestId(r.user, r.nonce)];
      SumAtLeast(s.redeems, RequestId(r.user, r.nonce), Ledger.BurnOf);
      var effective := EffectiveCollateral(s.config, q.syntheticAmount, q.quotedCollateral, env.feed).value;
      PayoutFits(s, q, env.feed, c, effective);
      assert false;
    }
  }

  /** In every such run the shortfall check of `redeem_confirm` never fires and its token movements never fail. */
  lemma RedeemNeverShort(hash: Digest, s: State, run: seq<Entry>, env: Env, r: RedeemCall)
    requires Initial(s) && Rising(hash, s, run) && r.ConfirmRedeem?
    requires AtMost(ChargesOver(hash, s, run).rate, RateNow(Run(hash, s, run).config, env.feed))
    ensures Step(hash, Run(hash, s, run), Entry(Exit(r), env))
            !in {Err(RedeemExceedsCollateral), Err(TokenTransferFailed)}
  {
    SupplyBacked(hash, s, run);
    Ledger.LedgerBalanced(hash, s, run);
    SettlementNotShort(Run(hash, s, run), env, r, ChargesOver(hash, s, run));
  }
}
