/** Redeem instructions: exactly when they go through, and what they leave, in plain arithmetic. */
module RedeemSuccess {
  import opened Checked
  import opened FixedPoint
  import opened TokenLedger
  import opened Accounts
  import opened Oracle
  import opened MapSums
  import opened Protocol
  import opened Redeem
  import opened Rates
  import opened Ledger
  import opened FundingSuccess
  import opened MintSuccess
  import opened Splitting
  import Backing

  /** The amount less its fee, converted at the price, both rounded down. */
  function Quote(c: Config, feed: PriceUpdate, amount: nat): int
    requires feed.price > 0
  {
    QuoteOf(c.params.redeemFeeBps, FeedRate(c, feed), amount)
  }

  /** The price can be used, and the conversion stays inside the machine integers. */
  predicate Quotable(c: Config, feed: PriceUpdate, amount: u64) {
    PriceUsable(c, feed) && QuoteFits(c, feed, amount)
  }

  lemma QuotableExactly(c: Config, feed: PriceUpdate, amount: u64)
    requires Admin.ValidParams(c.params) && feed.price > 0
    ensures NetQuote(c, amount, feed).Ok? <==> Quotable(c, feed, amount)
    ensures NetQuote(c, amount, feed).Ok? ==> NetQuote(c, amount, feed).value == Quote(c, feed, amount)
  {
    NetIsFloor(amount, c.params.redeemFeeBps);
    if PriceUsable(c, feed) {
      QuoteExactly(c, feed, amount);
    } else if NetQuote(c, amount, feed).Ok? {
      SuccessNeedsUsablePrice(c, NetOfRedeemFee(amount, c.params.redeemFeeBps).value, feed);
    }
  }

  // ---------------------------------------------------------------- redeem_request

  predicate CanQuoteRedeem(c: Config, env: Env, amount: u64) {
    Trusted(env, c.params) && Quotable(c, env.feed, amount) && Quote(c, env.feed, amount) > 0
  }

  lemma QuoteRedeemExactly(c: Config, env: Env, amount: u64)
    requires Admin.ValidParams(c.params)
    ensures RedeemQuote(c, env, amount).Ok? <==> CanQuoteRedeem(c, env, amount)
    ensures RedeemQuote(c, env, amount).Ok? ==> RedeemQuote(c, env, amount).value == Quote(c, env.feed, amount)
  {
    LoadPriceExactly(env, c.params);
    if env.feed.price > 0 {
      QuotableExactly(c, env.feed, amount);
      NothingQuotesNothing(c, env.feed, amount);
    }
  }

  /** A positive quote needs a positive net amount. */
  lemma NothingQuotesNothing(c: Config, feed: PriceUpdate, amount: u64)
    requires Admin.ValidParams(c.params) && feed.price > 0
    ensures var net := NetOfRedeemFee(amount, c.params.redeemFeeBps);
            net.Ok? && (net.value == 0 ==> Quote(c, feed, amount) == 0)
  {
    NetIsFloor(amount, c.params.redeemFeeBps);
    var rate := FeedRate(c, feed);
    ZeroQuotient(amount * (BPS - c.params.redeemFeeBps) / BPS, rate.den, rate.num);
  }

  lemma ZeroQuotient(n: int, num: nat, den: nat)
    requires den > 0
    ensures n == 0 ==> n * num / den == 0
  {
  }

  ghost predicate CanRequestRedeem(s: State, env: Env, user: Key, nonce: u64, amount: u64) {
    var c := s.config;
    && RequestId(user, nonce) !in s.redeems && !c.gates.redeemPaused && c.gates.vaultFlags == 15
    && 0 < amount <= Balance(s.tokens.synthetic, User(user)) && c.bonds.keeperCount > 0
    && c.book.pendingRedeem + amount <= c.book.totalSynthetic
    && CanQuoteRedeem(c, env, amount) && env.now + c.params.requestTtlSec <= I64_MAX
  }

  ghost predicate RedeemRequested(s: State, env: Env, user: Key, nonce: u64, amount: u64, minOut: u64, t: State) {
    var id, c := RequestId(user, nonce), s.config;
    && id in t.redeems && t.redeems == s.redeems[id := t.redeems[id]]
    && var r := t.redeems[id];
    && r.syntheticAmount == amount && r.minCollateralOut == minOut
    && env.feed.price > 0 && r.quotedCollateral == Quote(c, env.feed, amount)
    && r.createdAt == env.now && r.deadline == env.now + c.params.requestTtlSec
    && r.quotedPrice == env.feed.price && r.quotedExpo == env.feed.expo && r.quotedSlot == env.slot
    && t.config.book == c.book.(pendingRedeem := t.config.book.pendingRedeem)
    && t.config.book.pendingRedeem == c.book.pendingRedeem + amount
    && t == s.(redeems := t.redeems, tokens := s.tokens.(synthetic := t.tokens.synthetic),
               config := c.(book := t.config.book))
    && Moves(s.tokens.synthetic, User(user), RedeemEscrow, amount, t.tokens.synthetic)
  }

  lemma RequestRedeemExactly(s: State, env: Env, user: Key, nonce: u64, amount: u64, minOut: u64)
    requires Admin.ValidParams(s.config.params)
    ensures RedeemRequestSpec(s, env, user, nonce, amount, minOut).Ok?
            <==> CanRequestRedeem(s, env, user, nonce, amount)
  {
    QuoteRedeemExactly(s.config, env, amount);
  }

  lemma RequestRedeemLeaves(s: State, env: Env, user: Key, nonce: u64, amount: u64, minOut: u64, t: State)
    requires Admin.ValidParams(s.config.params) && RedeemRequestSpec(s, env, user, nonce, amount, minOut) == Ok(t)
    ensures RedeemRequested(s, env, user, nonce, amount, minOut, t)
  {
    QuoteRedeemExactly(s.config, env, amount);
    Transferred(s.tokens.synthetic, User(user), RedeemEscrow, amount, t.tokens.synthetic);
  }

  // ---------------------------------------------------------------- redeem_confirm

  /** The unwind covers the amount within the slippage tolerance; it is not bounded from above. */
  predicate UnwindGood(amount: nat, unwound: nat, slippageBps: nat) {
    amount * (10_000 - slippageBps) < (unwound + 1) * 10_000
  }

  lemma UnwindExactly(amount: u64, unwound: u64, slippageBps: u16)
    requires slippageBps <= 10_000
    ensures UnwindGate(amount, unwound, slippageBps).Ok? <==> UnwindGood(amount, unwound, slippageBps)
  {
    var low := amount * (10_000 - slippageBps);
    ProductBound(amount, 10_000 - slippageBps, amount, BPS);
    FloorSmall(low, BPS, amount);
    QuotientFits(low, BPS);
    FloorBound(low, BPS, unwound);
  }

  /** The lower of the two quotes. */
  function Payout(c: Config, feed: PriceUpdate, r: RedeemRequest): int
    requires feed.price > 0
  {
    Lower(Quote(c, feed, r.syntheticAmount), r.quotedCollateral)
  }

  predicate CanSettleRedeem(c: Config, env: Env, r: RedeemRequest, unwound: u64) {
    && c.params.minSettlementDelaySec <= env.now - r.createdAt <= I64_MAX && env.now <= r.deadline
    && Trusted(env, c.params) && Quotable(c, env.feed, r.syntheticAmount)
    && var paid := Payout(c, env.feed, r);
    && 0 < paid <= c.book.totalCollateral && paid >= r.minCollateralOut
    && UnwindGood(r.syntheticAmount, unwound, c.params.maxHedgeSlippageBps)
  }

  lemma PayoutExactly(c: Config, feed: PriceUpdate, r: RedeemRequest)
    requires Admin.ValidParams(c.params) && feed.price > 0
    ensures var e := EffectiveCollateral(c, r.syntheticAmount, r.quotedCollateral, feed);
            && (e.Ok? <==> Quotable(c, feed, r.syntheticAmount) && Payout(c, feed, r) > 0)
            && (e.Ok? ==> e.value == Payout(c, feed, r))
  {
    QuotableExactly(c, feed, r.syntheticAmount);
  }

  lemma SettleRedeemExactly(c: Config, env: Env, r: RedeemRequest, unwound: u64)
    requires Admin.ValidParams(c.params)
    ensures RedeemSettlement(c, env, r, unwound).Ok? <==> CanSettleRedeem(c, env, r, unwound)
    ensures RedeemSettlement(c, env, r, unwound).Ok? ==>
              RedeemSettlement(c, env, r, unwound).value == Payout(c, env.feed, r)
  {
    LoadPriceExactly(env, c.params);
    UnwindExactly(r.syntheticAmount, unwound, c.params.maxHedgeSlippageBps);
    if env.feed.price > 0 {
      PayoutExactly(c, env.feed, r);
    }
  }

  ghost predicate CanConfirmRedeem(
    s: State, env: Env, keeper: Key, user: Key, nonce: u64, unwindHash: Bytes32, unwound: u64)
  {
    var id := RequestId(user, nonce);
    && id in s.redeems && !s.config.gates.redeemPaused && MayAttest(s, keeper) && unwindHash != ZERO_HASH
    && CanSettleRedeem(s.config, env, s.redeems[id], unwound)
  }

  ghost predicate RedeemConfirmed(s: State, env: Env, user: Key, nonce: u64, unwound: u64, t: State) {
    var id, c := RequestId(user, nonce), s.config;
    && id in s.redeems && env.feed.price > 0
    && var paid, amount := Payout(c, env.feed, s.redeems[id]), s.redeems[id].syntheticAmount;
    && t.config.book.totalCollateral == c.book.totalCollateral - paid
    && t.config.book.pendingCollateral == c.book.pendingCollateral
    && t.config.book.totalSynthetic == c.book.totalSynthetic - amount
    && t.config.book.pendingRedeem == c.book.pendingRedeem - amount
    && t.config.book.hedgedNotional == (if unwound >= c.book.hedgedNotional then 0 else c.book.hedgedNotional - unwound)
    && t.tokens.syntheticSupply == s.tokens.syntheticSupply - amount
    && (forall h :: Balance(t.tokens.synthetic, h)
                    == Balance(s.tokens.synthetic, h) - if h == RedeemEscrow then amount else 0)
    && Moves(s.tokens.collateral, CollateralVault, User(user), paid, t.tokens.collateral)
    && t == s.(redeems := s.redeems - {id}, config := c.(book := t.config.book),
               tokens := s.tokens.(collateral := t.tokens.collateral, synthetic := t.tokens.synthetic,
                                   syntheticSupply := t.tokens.syntheticSupply))
  }

  lemma ConfirmRedeemExactly(
    s: State, env: Env, keeper: Key, user: Key, nonce: u64, unwindHash: Bytes32, unwound: u64)
    requires Admin.ValidParams(s.config.params) && RedeemPart(s) && Backing.Stocked(s)
    ensures RedeemConfirmSpec(s, env, keeper, user, nonce, unwindHash, unwound).Ok?
            <==> CanConfirmRedeem(s, env, keeper, user, nonce, unwindHash, unwound)
  {
    var id := RequestId(user, nonce);
    if id in s.redeems {
      SumAtLeast(s.redeems, id, BurnOf);
      SettleRedeemExactly(s.config, env, s.redeems[id], unwound);
    }
  }

  lemma ConfirmRedeemLeaves(
    s: State, env: Env, keeper: Key, user: Key, nonce: u64, unwindHash: Bytes32, unwound: u64, t: State)
    requires Admin.ValidParams(s.config.params)
    requires RedeemConfirmSpec(s, env, keeper, user, nonce, unwindHash, unwound) == Ok(t)
    ensures RedeemConfirmed(s, env, user, nonce, unwound, t)
  {
    var r := s.redeems[RequestId(user, nonce)];
    SettleRedeemExactly(s.config, env, r, unwound);
    var paid := RedeemSettlement(s.config, env, r, unwound).value;
    Transferred(s.tokens.collateral, CollateralVault, User(user), paid, t.tokens.collateral);
  }

  // ---------------------------------------------------------------- redeem_cancel

  ghost predicate CanCancelRedeem(s: State, env: Env, user: Key, nonce: u64) {
    RequestId(user, nonce) in s.redeems && env.now > s.redeems[RequestId(user, nonce)].deadline
  }

  ghost predicate RedeemCancelled(s: State, user: Key, nonce: u64, t: State) {
    var id := RequestId(user, nonce);
    && id in s.redeems
    && t.config.book == s.config.book.(pendingRedeem := t.config.book.pendingRedeem)
    && t.config.book.pendingRedeem == s.config.book.pendingRedeem - s.redeems[id].syntheticAmount
    && t == s.(redeems := s.redeems - {id}, tokens := s.tokens.(synthetic := t.tokens.synthetic),
               config := s.config.(book := t.config.book))
    && Moves(s.tokens.synthetic, RedeemEscrow, User(user), s.redeems[id].syntheticAmount, t.tokens.synthetic)
  }

  lemma CancelRedeemLeaves(s: State, env: Env, user: Key, nonce: u64, t: State)
    requires RedeemCancelSpec(s, env, user, nonce) == Ok(t)
    ensures RedeemCancelled(s, user, nonce, t)
  {
    Transferred(s.tokens.synthetic, RedeemEscrow, User(user), s.redeems[RequestId(user, nonce)].syntheticAmount,
                t.tokens.synthetic);
  }
}
