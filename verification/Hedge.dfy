/** How far mints can move the hedged notional away from the book between two proofs. */
module Hedge {
  import opened Checked
  import opened FixedPoint
  import opened Accounts
  import opened Oracle
  import opened Proof
  import opened Protocol
  import opened Frames
  import opened Mint
  import opened Redeem
  import opened Rates

  /** The hedge is within `bps` of the exact book value, give or take `units` base units; everything is
      multiplied by 10_000 and the denominator of the rate. */
  predicate Near(collateral: nat, hedged: nat, rate: Rate, bps: nat, units: nat) {
    Abs(BPS * Times(hedged, rate.den) - BPS * Times(collateral, rate.num))
    <= Times(bps, Times(collateral, rate.num)) + BPS * Times(units, rate.den)
  }

  /** The same with plain products. */
  predicate NearProducts(collateral: nat, hedged: nat, rate: Rate, bps: nat, units: nat) {
    Abs(BPS * (hedged * rate.den) - BPS * (collateral * rate.num))
    <= bps * (collateral * rate.num) + BPS * (units * rate.den)
  }

  lemma NearMeans(collateral: nat, hedged: nat, rate: Rate, bps: nat, units: nat)
    ensures Near(collateral, hedged, rate, bps, units) <==> NearProducts(collateral, hedged, rate, bps, units)
  {
    TimesIs(hedged, rate.den);
    TimesIs(collateral, rate.num);
    TimesIs(bps, Times(collateral, rate.num));
    TimesIs(units, rate.den);
  }

  // ---------------------------------------------------------------- arithmetic

  lemma TruncDivAbs(n: int, d: nat)
    requires d > 0
    ensures d * Abs(TruncDiv(n, d)) <= Abs(n) < d * Abs(TruncDiv(n, d)) + d
  {
    DivBounds(Abs(n), d);
    QuotientFits(Abs(n), d);
  }

  /** The truncated delta is inside a band exactly when the deviation is below one more basis point. */
  predicate WithinBand(notional: nat, hedged: nat, band: nat) {
    BPS * Abs(notional - hedged) < (band + 1) * notional
  }

  lemma WithinBandExactly(notional: u64, hedged: u64, band: u16)
    requires notional > 0
    ensures var delta := DeltaBps(notional, hedged);
            delta.Ok? && Abs(delta.value) <= band <==> WithinBand(notional, hedged, band)
  {
    var deviation := Abs(TruncDiv((notional - hedged) * BPS, notional));
    TruncDivAbs((notional - hedged) * BPS, notional);
    AbsScales(notional - hedged, BPS);
    assert notional * deviation + notional == (deviation + 1) * notional;
    if deviation <= band {
      ProductBound(deviation + 1, notional, band + 1, notional);
    } else {
      ProductBound(band + 1, notional, deviation, notional);
    }
  }

  lemma AbsScales(x: int, k: nat)
    ensures Abs(x * k) == Abs(x) * k
  {
  }

  lemma ProofDrift(collateral: nat, hedged: nat, rate: Rate, notional: nat, bps: nat)
    requires rate.den > 0 && notional == collateral * rate.num / rate.den
    requires BPS * Abs(notional - hedged) <= bps * notional
    ensures NearProducts(collateral, hedged, rate, bps, 1)
  {
    var exact, den := collateral * rate.num, rate.den;
    DivBounds(exact, den);
    AbsScales(notional - hedged, den);
    ProductBound(BPS * Abs(notional - hedged), den, bps * notional, den);
    assert bps * notional * den == bps * (den * notional);
    ProductBound(bps, den * notional, bps, exact);
    assert (notional - hedged) * den == den * notional - hedged * den;
  }

  lemma FillAbove(effective: nat, filled: nat, slip: nat, exact: nat, den: nat)
    requires den * effective <= exact
    requires filled <= (effective * (10_000 + slip) + 9_999) / BPS
    ensures BPS * (filled * den) <= BPS * exact + slip * exact + BPS * den
  {
    assert BPS * filled <= effective * (10_000 + slip) + 9_999;
    ProductBound(BPS * filled, den, effective * (10_000 + slip) + 9_999, den);
    assert (effective * (10_000 + slip) + 9_999) * den == den * effective * (10_000 + slip) + 9_999 * den;
    ProductBound(den * effective, 10_000 + slip, exact, 10_000 + slip);
    assert exact * (10_000 + slip) == 10_000 * exact + slip * exact;
    assert BPS * filled * den == BPS * (filled * den);
  }

  lemma FillBelow(effective: nat, filled: nat, slip: nat, exact: nat, den: nat)
    requires exact < den * effective + den && slip <= 10_000
    requires filled >= effective * (10_000 - slip) / BPS
    ensures BPS * (filled * den) >= BPS * exact - slip * exact - 2 * BPS * den
  {
    assert BPS * (filled + 1) >= effective * (10_000 - slip);
    ProductBound(effective * (10_000 - slip), den, BPS * (filled + 1), den);
    assert effective * (10_000 - slip) * den == den * effective * (10_000 - slip);
    ProductBound(exact, 10_000 - slip, den * effective + den, 10_000 - slip);
    assert (den * effective + den) * (10_000 - slip) == den * effective * (10_000 - slip) + den * (10_000 - slip);
    ProductBound(den, 10_000 - slip, den, BPS);
    assert exact * (10_000 - slip) == 10_000 * exact - slip * exact;
    assert BPS * (filled + 1) * den == BPS * (filled * den) + BPS * den;
  }

  lemma FillDrift(collateral: nat, effective: u64, filled: u64, slippage: u16, rate: Rate)
    requires rate.den > 0 && effective == collateral * rate.num / rate.den
    requires FillGate(effective, filled, slippage).Ok?
    ensures NearProducts(collateral, filled, rate, slippage, 2)
  {
    DivBounds(collateral * rate.num, rate.den);
    FillAbove(effective, filled, slippage, collateral * rate.num, rate.den);
    FillBelow(effective, filled, slippage, collateral * rate.num, rate.den);
  }

  lemma Spread(a: int, b: int, k: int)
    ensures (a + b) * k == a * k + b * k
    ensures k * (a + b) == k * a + k * b
  {
  }

  lemma ProductsAdd(c: nat, h: nat, a: nat, f: nat, rate: Rate, bps: nat, slip: nat, m: nat, n: nat)
    requires NearProducts(c, h, rate, bps, m) && NearProducts(a, f, rate, slip, n) && slip <= bps
    ensures NearProducts(c + a, h + f, rate, bps, m + n)
  {
    var exact, more := c * rate.num, a * rate.num;
    Spread(h, f, rate.den);
    Spread(c, a, rate.num);
    Spread(exact, more, bps);
    Spread(m, n, rate.den);
    ProductBound(slip, more, bps, more);
  }

  /** Deviations add up. */
  lemma NearAdds(c: nat, h: nat, a: nat, f: nat, rate: Rate, bps: nat, slip: nat, m: nat, n: nat)
    requires Near(c, h, rate, bps, m) && Near(a, f, rate, slip, n) && slip <= bps
    ensures Near(c + a, h + f, rate, bps, m + n)
  {
    NearMeans(c, h, rate, bps, m);
    NearMeans(a, f, rate, slip, n);
    ProductsAdd(c, h, a, f, rate, bps, slip, m, n);
    NearMeans(c + a, h + f, rate, bps, m + n);
  }

  lemma NearWidens(c: nat, h: nat, rate: Rate, narrow: nat, wide: nat, n: nat)
    requires Near(c, h, rate, narrow, n) && narrow <= wide
    ensures Near(c, h, rate, wide, n)
  {
    NearMeans(c, h, rate, narrow, n);
    NearMeans(c, h, rate, wide, n);
    ProductBound(narrow, c * rate.num, wide, c * rate.num);
  }

  // ---------------------------------------------------------------- steps

  /** The request was quoted at no less than its value at the rate, so confirming at the rate pays that value. */
  ghost predicate QuotedHigh(r: MintRequest, rate: Rate) {
    Times(r.collateralAmount, rate.num) < Times(r.quotedNotional + 1, rate.den)
  }

  lemma QuotedHighMeans(r: MintRequest, rate: Rate)
    requires rate.den > 0
    ensures QuotedHigh(r, rate) <==> r.collateralAmount * rate.num / rate.den <= r.quotedNotional
  {
    var exact := r.collateralAmount * rate.num;
    TimesIs(r.collateralAmount, rate.num);
    TimesIs(r.quotedNotional + 1, rate.den);
    DivBounds(exact, rate.den);
    if exact < (r.quotedNotional + 1) * rate.den {
      FloorSmall(exact, rate.den, r.quotedNotional);
    }
    if exact / rate.den <= r.quotedNotional {
      ProductBound(exact / rate.den + 1, rate.den, r.quotedNotional + 1, rate.den);
    }
  }

  ghost predicate QuotedAtLeast(s: State, rate: Rate) {
    forall id :: id in s.mints ==> QuotedHigh(s.mints[id], rate)
  }

  predicate SamePrice(a: PriceUpdate, b: PriceUpdate) {
    a.price == b.price && a.expo == b.expo
  }

  function MintCount(before: State, e: Entry, after: State): int {
    if e.call.Issue? && e.call.m.ConfirmMint? then 1 else 0
  }

  /** Anything but another proof or a redemption, with every mint priced at the feed and filled within `slip`. */
  predicate Calm(before: State, e: Entry, feed: PriceUpdate, slip: nat) {
    && !e.call.Commit? && !(e.call.Exit? && e.call.r.ConfirmRedeem?)
    && (e.call.Issue? && !e.call.m.CancelMint? ==> SamePrice(e.env.feed, feed))
    && before.config.params.maxHedgeSlippageBps <= slip
  }

  /** The hedge is that close to the book at the exact rate of the feed, n mints after the proof. */
  ghost predicate HedgedAt(s: State, feed: PriceUpdate, bps: nat, n: int) {
    && feed.price > 0 && n >= 0
    && QuotedAtLeast(s, FeedRate(s.config, feed))
    && Near(s.config.book.totalCollateral, s.config.book.hedgedNotional, FeedRate(s.config, feed), bps, 2 * n + 1)
  }

  lemma RequestHedged(s: State, env: Env, m: MintCall, t: State, feed: PriceUpdate, bps: nat, n: int)
    requires m.RequestMint? && MintStep(s, env, m) == Ok(t) && SamePrice(env.feed, feed) && HedgedAt(s, feed, bps, n)
    ensures HedgedAt(t, feed, bps, n)
  {
    MintFrame(s, env, m, t);
    assert LoadPrice(env, s.config.params) == Ok(env.feed);
    NotionalIsFloor(m.amount, feed.price, feed.expo, s.config.collateralDecimals, s.config.syntheticDecimals);
    QuotedHighMeans(t.mints[RequestId(m.user, m.nonce)], FeedRate(s.config, feed));
  }

  /** What one confirmation adds to the book and to the hedge. */
  ghost predicate Fills(s: State, t: State, id: RequestId, filled: nat, feed: PriceUpdate)
    requires feed.price > 0
  {
    && id in s.mints && t.mints == s.mints - {id}
    && t.config.book.totalCollateral == s.config.book.totalCollateral + s.mints[id].collateralAmount
    && t.config.book.hedgedNotional == s.config.book.hedgedNotional + filled
    && Near(s.mints[id].collateralAmount, filled, FeedRate(s.config, feed), s.config.params.maxHedgeSlippageBps, 2)
  }

  lemma ConfirmFills(s: State, env: Env, m: MintCall, t: State, feed: PriceUpdate)
    requires feed.price > 0 && QuotedAtLeast(s, FeedRate(s.config, feed))
    requires m.ConfirmMint? && MintStep(s, env, m) == Ok(t) && SamePrice(env.feed, feed)
    ensures Fills(s, t, RequestId(m.user, m.nonce), m.filled, feed)
  {
    var r, rate := s.mints[RequestId(m.user, m.nonce)], FeedRate(s.config, feed);
    assert LoadPrice(env, s.config.params) == Ok(env.feed);
    NotionalIsFloor(r.collateralAmount, feed.price, feed.expo, s.config.collateralDecimals, s.config.syntheticDecimals);
    QuotedHighMeans(r, rate);
    var effective := EffectiveNotional(s.config, r.collateralAmount, r.quotedNotional, env.feed).value;
    FillDrift(r.collateralAmount, effective, m.filled, s.config.params.maxHedgeSlippageBps, rate);
    NearMeans(r.collateralAmount, m.filled, rate, s.config.params.maxHedgeSlippageBps, 2);
  }

  lemma ConfirmHedged(s: State, env: Env, m: MintCall, t: State, feed: PriceUpdate, bps: nat, n: int)
    requires m.ConfirmMint? && MintStep(s, env, m) == Ok(t) && SamePrice(env.feed, feed) && HedgedAt(s, feed, bps, n)
    requires s.config.params.maxHedgeSlippageBps <= bps
    ensures HedgedAt(t, feed, bps, n + 1)
  {
    MintFrame(s, env, m, t);
    ConfirmFills(s, env, m, t, feed);
    NearAdds(s.config.book.totalCollateral, s.config.book.hedgedNotional,
             s.mints[RequestId(m.user, m.nonce)].collateralAmount, m.filled, FeedRate(s.config, feed), bps,
             s.config.params.maxHedgeSlippageBps, 2 * n + 1, 2);
  }

  lemma CommitHedged(hash: Digest, s: State, env: Env, keeper: Key, claim: Claim, t: State, bps: nat)
    requires env.feed.price > 0 && CommitProofSpec(hash, s, env, keeper, claim) == Ok(t)
    requires QuotedAtLeast(s, FeedRate(s.config, env.feed)) && s.config.params.deltaExitBps + 1 <= bps
    ensures HedgedAt(t, env.feed, bps, 0)
  {
    CommitFrame(hash, s, env, keeper, claim, t);
    CommitNear(hash, s, env, keeper, claim, t);
    Rehedged(s, t, env.feed, FeedRate(s.config, env.feed), s.config.params.deltaExitBps + 1, bps);
  }

  lemma Rehedged(s: State, t: State, feed: PriceUpdate, rate: Rate, narrow: nat, bps: nat)
    requires feed.price > 0 && rate == FeedRate(t.config, feed) && QuotedAtLeast(s, rate) && t.mints == s.mints
    requires Near(t.config.book.totalCollateral, t.config.book.hedgedNotional, rate, narrow, 1) && narrow <= bps
    ensures HedgedAt(t, feed, bps, 0)
  {
    NearWidens(t.config.book.totalCollateral, t.config.book.hedgedNotional, rate, narrow, bps, 1);
  }

  lemma CommitNear(hash: Digest, s: State, env: Env, keeper: Key, claim: Claim, t: State)
    requires env.feed.price > 0 && CommitProofSpec(hash, s, env, keeper, claim) == Ok(t)
    ensures Near(s.config.book.totalCollateral, claim.hedgedNotional, FeedRate(s.config, env.feed),
                 s.config.params.deltaExitBps + 1, 1)
  {
    var c, rate := s.config, FeedRate(s.config, env.feed);
    assert LoadPrice(env, c.params) == Ok(env.feed);
    var notional := ProvenNotional(c, env.feed).value;
    NotionalIsFloor(c.book.totalCollateral, env.feed.price, env.feed.expo, c.collateralDecimals, c.syntheticDecimals);
    assert ProvenDelta(notional, claim.hedgedNotional, claim.deltaAfter, c.params.deltaExitBps).Ok?;
    WithinBandExactly(notional, claim.hedgedNotional, c.params.deltaExitBps);
    ProofDrift(c.book.totalCollateral, claim.hedgedNotional, rate, notional, c.params.deltaExitBps + 1);
    NearMeans(c.book.totalCollateral, claim.hedgedNotional, rate, c.params.deltaExitBps + 1, 1);
  }

  lemma OthersHedged(hash: Digest, s: State, e: Entry, t: State, feed: PriceUpdate, bps: nat, n: int)
    requires Step(hash, s, e) == Ok(t) && HedgedAt(s, feed, bps, n)
    requires !e.call.Commit? && !(e.call.Exit? && e.call.r.ConfirmRedeem?) && !(e.call.Issue? && !e.call.m.CancelMint?)
    ensures HedgedAt(t, feed, bps, n)
  {
    StepFramed(hash, s, e, t);
    if e.call.Issue? {
      MintFrame(s, e.env, e.call.m, t);
    } else if e.call.Exit? {
      RedeemFrame(s, e.env, e.call.r, t);
    }
  }

  lemma IssueHedged(s: State, env: Env, m: MintCall, t: State, feed: PriceUpdate, bps: nat, n: int, after: int)
    requires MintStep(s, env, m) == Ok(t) && SamePrice(env.feed, feed) && HedgedAt(s, feed, bps, n)
    requires !m.CancelMint? && s.config.params.maxHedgeSlippageBps <= bps
    requires after == if m.ConfirmMint? then n + 1 else n
    ensures HedgedAt(t, feed, bps, after)
  {
    if m.RequestMint? {
      RequestHedged(s, env, m, t, feed, bps, n);
    } else {
      ConfirmHedged(s, env, m, t, feed, bps, n);
    }
  }

  lemma StepHedged(hash: Digest, s: State, e: Entry, t: State, feed: PriceUpdate, bps: nat, n: int, after: int)
    requires Step(hash, s, e) == Ok(t) && Calm(s, e, feed, bps) && HedgedAt(s, feed, bps, n)
    requires after == n + MintCount(s, e, t)
    ensures HedgedAt(t, feed, bps, after)
  {
    if e.call.Issue? && !e.call.m.CancelMint? {
      IssueHedged(s, e.env, e.call.m, t, feed, bps, n, after);
    } else {
      OthersHedged(hash, s, e, t, feed, bps, n);
    }
  }

  lemma OneCalmStep(hash: Digest, s: State, e: Entry, n: int, feed: PriceUpdate, bps: nat, slip: nat)
    requires Hedging(feed, bps)(s, n) && Calmly(feed, slip)(s, e) && Step(hash, s, e).Ok? && slip <= bps
    ensures Hedging(feed, bps)(Step(hash, s, e).value, n + MintCount(s, e, Step(hash, s, e).value))
  {
    var t := Step(hash, s, e).value;
    var after := n + MintCount(s, e, t);
    StepHedged(hash, s, e, t, feed, bps, n, after);
  }

  lemma CalmStepsHedged(hash: Digest, feed: PriceUpdate, bps: nat, slip: nat)
    requires slip <= bps
    ensures KeptByStep(hash, MintCount, Calmly(feed, slip), Hedging(feed, bps))
  {
    forall s, e, n | Hedging(feed, bps)(s, n) && Step(hash, s, e).Ok? && Calmly(feed, slip)(s, e)
      ensures Hedging(feed, bps)(Step(hash, s, e).value, n + MintCount(s, e, Step(hash, s, e).value))
    {
      OneCalmStep(hash, s, e, n, feed, bps, slip);
    }
  }

  lemma RunHedged(hash: Digest, s: State, run: seq<Entry>, feed: PriceUpdate, bps: nat, slip: nat)
    requires HedgedAt(s, feed, bps, 0) && Along(hash, s, run, Calmly(feed, slip)) && slip <= bps
    ensures HedgedAt(Run(hash, s, run), feed, bps, Tally(hash, s, run, MintCount))
  {
    CalmStepsHedged(hash, feed, bps, slip);
    KeptAlong(hash, s, run, MintCount, Calmly(feed, slip), Hedging(feed, bps));
  }

  function Calmly(feed: PriceUpdate, slip: nat): (State, Entry) -> bool {
    (s: State, e: Entry) => Calm(s, e, feed, slip)
  }

  ghost function Hedging(feed: PriceUpdate, bps: nat): (State, int) -> bool {
    (s: State, n: int) => HedgedAt(s, feed, bps, n)
  }

  /** From a book accepted by a proof with exit band e, any n mints at a constant price and slippage bound s
      leave the hedge within max(e + 1, s) basis points of the exact book value plus 2n + 1 base units. */
  lemma HedgeDriftBounded(
    hash: Digest, s: State, env: Env, keeper: Key, claim: Claim, t: State, run: seq<Entry>, slip: nat)
    requires CommitProofSpec(hash, s, env, keeper, claim) == Ok(t) && env.feed.price > 0
    requires QuotedAtLeast(s, FeedRate(s.config, env.feed)) && Along(hash, t, run, Calmly(env.feed, slip))
    ensures HedgedAt(Run(hash, t, run), env.feed, Larger(s.config.params.deltaExitBps + 1, slip),
                     Tally(hash, t, run, MintCount))
  {
    var bps := Larger(s.config.params.deltaExitBps + 1, slip);
    CommitHedged(hash, s, env, keeper, claim, t, bps);
    RunHedged(hash, t, run, env.feed, bps, slip);
  }

  function Larger(a: nat, b: nat): nat {
    if a <= b then b else a
  }

  // ---------------------------------------------------------------- redemptions

  /** A redemption that goes through goes through with every larger attested unwind as well, to the same effect but
      for a lower hedge: nothing bounds the hedge from below once redemptions are confirmed. */
  lemma LargerUnwindAccepted(
    s: State, env: Env, keeper: Key, user: Key, nonce: u64, unwindHash: Bytes32, unwound: u64, more: u64, t: State)
    requires RedeemConfirmSpec(s, env, keeper, user, nonce, unwindHash, unwound) == Ok(t) && unwound <= more
    ensures RedeemConfirmSpec(s, env, keeper, user, nonce, unwindHash, more)
            == Ok(t.(config := t.config.(book := t.config.book.(
                     hedgedNotional := SaturatingSub(s.config.book.hedgedNotional, more)))))
  {
  }
}
