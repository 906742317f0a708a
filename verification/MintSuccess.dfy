/** Mint instructions: exactly when they go through, and what they leave, in plain arithmetic. */
module MintSuccess {
  import opened Checked
  import opened FixedPoint
  import opened TokenLedger
  import opened Accounts
  import opened Oracle
  import opened MapSums
  import opened Protocol
  import opened Mint
  import opened Rates
  import opened Ledger
  import opened FundingSuccess
  import opened Splitting
  import Provenance
  import Hedge
  import Exits

  /** Venue ids 1 to 4 are bits of the flag word. */
  predicate VenueOpen(flags: bv8, id: u8) {
    1 <= id <= 4 && (flags >> id) & 1 == 1
  }

  lemma VenueOpenExactly(flags: bv8, id: u8)
    ensures VenueEnabled(flags, id) <==> VenueOpen(flags, id)
  {
    if id == 1 {
      FirstBit(flags);
    } else if id == 2 {
      SecondBit(flags);
    } else if id == 3 {
      ThirdBit(flags);
    } else if id == 4 {
      FourthBit(flags);
    }
  }

  lemma FirstBit(flags: bv8)
    ensures flags & 2 != 0 <==> (flags >> 1) & 1 == 1
  {
  }

  lemma SecondBit(flags: bv8)
    ensures flags & 4 != 0 <==> (flags >> 2) & 1 == 1
  {
  }

  lemma ThirdBit(flags: bv8)
    ensures flags & 8 != 0 <==> (flags >> 3) & 1 == 1
  {
  }

  lemma FourthBit(flags: bv8)
    ensures flags & 16 != 0 <==> (flags >> 4) & 1 == 1
  {
  }

  /** The keeper is registered, active and holds the minimum bond. */
  ghost predicate MayAttest(s: State, keeper: Key) {
    && keeper in s.keepers && s.keepers[keeper].active
    && s.keepers[keeper].bonded >= s.config.params.minKeeperBond
  }

  /** The exact value of an amount of collateral, rounded down. */
  function Value(c: Config, feed: PriceUpdate, amount: nat): int
    requires feed.price > 0
  {
    amount * FeedRate(c, feed).num / FeedRate(c, feed).den
  }

  /** The price can be used at all, and the value of the amount fits 64 bits. */
  predicate Valued(c: Config, feed: PriceUpdate, amount: nat) {
    PriceUsable(c, feed) && Value(c, feed, amount) <= U64_MAX
  }

  lemma ValuedExactly(c: Config, feed: PriceUpdate, amount: u64)
    requires feed.price > 0
    ensures BookNotional(c, amount, feed).Ok? <==> Valued(c, feed, amount)
    ensures BookNotional(c, amount, feed).Ok? ==> BookNotional(c, amount, feed).value == Value(c, feed, amount)
  {
    NotionalIsFloor(amount, feed.price, feed.expo, c.collateralDecimals, c.syntheticDecimals);
  }

  // ---------------------------------------------------------------- mint_request

  /** The book is worth nothing or its hedge is inside the hard band. */
  predicate BookHedged(c: Config, feed: PriceUpdate)
    requires feed.price > 0
  {
    var worth := Value(c, feed, c.book.totalCollateral);
    || c.book.totalCollateral == 0
    || (Valued(c, feed, c.book.totalCollateral)
        && (worth <= 0 || Hedge.WithinBand(worth, c.book.hedgedNotional, c.params.deltaHardBps)))
  }

  lemma BookHedgedExactly(c: Config, feed: PriceUpdate)
    requires feed.price > 0
    ensures HardBandGate(c, feed).Ok? <==> BookHedged(c, feed)
  {
    Provenance.HardBandExactly(c, feed);
    ValuedExactly(c, feed, c.book.totalCollateral);
  }

  /** The report is there, not from the future and fresh, and its carry is above the floor. */
  predicate ReportGood(c: Config, now: int) {
    && c.venue.stateAt != 0 && 0 <= now - c.venue.stateAt <= c.params.maxVenueStateAgeSec
    && c.venue.netCarryBps >= c.params.minNetCarryBps
  }

  lemma GatesExactly(c: Config, now: i64, feed: PriceUpdate)
    requires feed.price > 0
    ensures IssuanceGates(c, now, feed).Ok? <==> ReportGood(c, now) && BookHedged(c, feed)
  {
    BookHedgedExactly(c, feed);
  }

  /** There is room under both ceilings for a supply. */
  predicate Room(c: Config, supply: int) {
    supply <= c.params.maxSyntheticSupply && supply * 10_000 <= c.venue.capacity * c.params.maxSupplyVsCapacityBps
  }

  lemma RoomExactly(c: Config, supply: nat)
    requires Admin.ValidParams(c.params)
    ensures SupplyCeiling(c).Ok? && (supply <= SupplyCeiling(c).value <==> Room(c, supply))
  {
    ProductBound(c.venue.capacity, c.params.maxSupplyVsCapacityBps, c.venue.capacity, BPS);
    FloorSmall(c.venue.capacity * c.params.maxSupplyVsCapacityBps, BPS, c.venue.capacity);
    QuotientFits(c.venue.capacity * c.params.maxSupplyVsCapacityBps, BPS);
    Provenance.CeilingExactly(c, supply);
  }

  /** The market side of a request. */
  predicate CanQuote(c: Config, env: Env, amount: u64) {
    && Trusted(env, c.params) && ReportGood(c, env.now) && BookHedged(c, env.feed)
    && Room(c, c.book.totalSynthetic + 1)
    && Valued(c, env.feed, amount) && Value(c, env.feed, amount) > 0
  }

  lemma QuoteMintExactly(c: Config, env: Env, amount: u64)
    requires Admin.ValidParams(c.params)
    ensures MintQuote(c, env, amount).Ok? <==> CanQuote(c, env, amount)
    ensures MintQuote(c, env, amount).Ok? ==> MintQuote(c, env, amount).value == Value(c, env.feed, amount)
  {
    LoadPriceExactly(env, c.params);
    RoomExactly(c, c.book.totalSynthetic + 1);
    if env.feed.price > 0 {
      GatesExactly(c, env.now, env.feed);
      ValuedExactly(c, env.feed, amount);
    }
  }

  ghost predicate CanRequestMint(s: State, env: Env, user: Key, nonce: u64, amount: u64) {
    var c := s.config;
    && RequestId(user, nonce) !in s.mints && !c.gates.mintPaused && c.gates.vaultFlags == 15
    && amount > 0 && c.bonds.keeperCount > 0 && CanQuote(c, env, amount)
    && amount <= Balance(s.tokens.collateral, User(user))
    && env.now + c.params.requestTtlSec <= I64_MAX && c.book.pendingCollateral + amount <= U64_MAX
  }

  ghost predicate MintRequested(s: State, env: Env, user: Key, nonce: u64, amount: u64, minOut: u64, t: State) {
    var id, c := RequestId(user, nonce), s.config;
    && id in t.mints && t.mints == s.mints[id := t.mints[id]]
    && var r := t.mints[id];
    && r.collateralAmount == amount && r.minSyntheticOut == minOut
    && env.feed.price > 0 && r.quotedNotional == Value(c, env.feed, amount)
    && r.createdAt == env.now && r.deadline == env.now + c.params.requestTtlSec
    && r.quotedPrice == env.feed.price && r.quotedExpo == env.feed.expo && r.quotedSlot == env.slot
    && t.config.book == c.book.(pendingCollateral := t.config.book.pendingCollateral)
    && t.config.book.pendingCollateral == c.book.pendingCollateral + amount
    && t == s.(mints := t.mints, tokens := s.tokens.(collateral := t.tokens.collateral),
               config := c.(book := t.config.book))
    && Moves(s.tokens.collateral, User(user), CollateralVault, amount, t.tokens.collateral)
  }

  lemma RequestMintExactly(s: State, env: Env, user: Key, nonce: u64, amount: u64, minOut: u64)
    requires Admin.ValidParams(s.config.params)
    ensures MintRequestSpec(s, env, user, nonce, amount, minOut).Ok? <==> CanRequestMint(s, env, user, nonce, amount)
  {
    QuoteMintExactly(s.config, env, amount);
  }

  lemma RequestMintLeaves(s: State, env: Env, user: Key, nonce: u64, amount: u64, minOut: u64, t: State)
    requires Admin.ValidParams(s.config.params) && MintRequestSpec(s, env, user, nonce, amount, minOut) == Ok(t)
    ensures MintRequested(s, env, user, nonce, amount, minOut, t)
  {
    QuoteMintExactly(s.config, env, amount);
    Transferred(s.tokens.collateral, User(user), CollateralVault, amount, t.tokens.collateral);
  }

  // ---------------------------------------------------------------- mint_confirm

  /** The fill covers the notional within the slippage tolerance from both sides, and the upper bound fits 64 bits. */
  predicate FillGood(effective: nat, filled: nat, slippageBps: nat) {
    && effective * (10_000 - slippageBps) < (filled + 1) * 10_000
    && filled * 10_000 < effective * (10_000 + slippageBps) + 10_000
    && effective * (10_000 + slippageBps) <= U64_MAX * 10_000
  }

  lemma FloorBound(n: nat, d: nat, x: nat)
    requires d > 0
    ensures n / d <= x <==> n < (x + 1) * d
  {
    DivBounds(n, d);
    if n < (x + 1) * d {
      FloorSmall(n, d, x);
    }
    if n / d <= x {
      ProductBound(n / d + 1, d, x + 1, d);
    }
  }

  lemma CeilBound(n: nat, d: nat, x: nat)
    requires d > 0
    ensures x <= (n + (d - 1)) / d <==> x * d < n + d
  {
    DivBounds(n + (d - 1), d);
    if x * d <= n + (d - 1) {
      FloorLargest(n + (d - 1), d, x);
    }
    if x <= (n + (d - 1)) / d {
      ProductBound(x, d, (n + (d - 1)) / d, d);
    }
  }

  lemma FillExactly(effective: u64, filled: u64, slippageBps: u16)
    requires slippageBps <= 10_000
    ensures FillGate(effective, filled, slippageBps).Ok? <==> FillGood(effective, filled, slippageBps)
  {
    var low, high := effective * (10_000 - slippageBps), effective * (10_000 + slippageBps);
    ProductBound(effective, 10_000 - slippageBps, effective, BPS);
    FloorSmall(low, BPS, effective);
    QuotientFits(low, BPS);
    FloorBound(low, BPS, filled);
    CeilBound(high, BPS, filled);
    CeilAtMost(high, BPS, U64_MAX);
    QuotientFits(high + (BPS - 1), BPS);
  }

  /** The lower of the two valuations. */
  function Effective(c: Config, feed: PriceUpdate, r: MintRequest): int
    requires feed.price > 0
  {
    Lower(Value(c, feed, r.collateralAmount), r.quotedNotional)
  }

  predicate CanSettleMint(c: Config, env: Env, r: MintRequest, filled: u64)
    requires c.params.collateralRatioBps > 0
  {
    && env.now <= r.deadline && Trusted(env, c.params) && Valued(c, env.feed, r.collateralAmount)
    && var effective := Effective(c, env.feed, r);
    && effective > 0 && FillGood(effective, filled, c.params.maxHedgeSlippageBps)
    && NetOf(c.params, effective) > 0 && NetOf(c.params, effective) >= r.minSyntheticOut
  }

  lemma EffectiveExactly(c: Config, r: MintRequest, feed: PriceUpdate)
    requires feed.price > 0
    ensures var e := EffectiveNotional(c, r.collateralAmount, r.quotedNotional, feed);
            && (e.Ok? <==> Valued(c, feed, r.collateralAmount) && Effective(c, feed, r) > 0)
            && (e.Ok? ==> e.value == Effective(c, feed, r))
  {
    ValuedExactly(c, feed, r.collateralAmount);
  }

  lemma SettleMintExactly(c: Config, env: Env, r: MintRequest, filled: u64)
    requires Admin.ValidParams(c.params)
    ensures MintSettlement(c, env, r, filled).Ok? <==> CanSettleMint(c, env, r, filled)
    ensures MintSettlement(c, env, r, filled).Ok? ==>
              MintSettlement(c, env, r, filled).value.net == NetOf(c.params, Effective(c, env.feed, r))
  {
    LoadPriceExactly(env, c.params);
    if env.feed.price > 0 {
      EffectiveExactly(c, r, env.feed);
      var e := EffectiveNotional(c, r.collateralAmount, r.quotedNotional, env.feed);
      if e.Ok? {
        FillExactly(e.value, filled, c.params.maxHedgeSlippageBps);
        IssueTermsExactly(c.params, e.value);
      }
    }
  }

  ghost predicate CanConfirmMint(
    s: State, env: Env, keeper: Key, user: Key, nonce: u64, hedgeHash: Bytes32, venueId: u8, filled: u64)
    requires s.config.params.collateralRatioBps > 0
  {
    var id, c := RequestId(user, nonce), s.config;
    && id in s.mints && !c.gates.mintPaused && MayAttest(s, keeper) && hedgeHash != ZERO_HASH
    && VenueOpen(c.params.venueFlags, venueId)
    && CanSettleMint(c, env, s.mints[id], filled)
    && var supply := c.book.totalSynthetic + NetOf(c.params, Effective(c, env.feed, s.mints[id]));
    && Room(c, supply)
    && s.tokens.syntheticSupply + NetOf(c.params, Effective(c, env.feed, s.mints[id])) <= U64_MAX
    && c.book.totalCollateral + s.mints[id].collateralAmount <= U64_MAX
    && c.book.hedgedNotional + filled <= U64_MAX
  }

  ghost predicate MintConfirmed(s: State, env: Env, user: Key, nonce: u64, filled: u64, t: State)
    requires s.config.params.collateralRatioBps > 0
  {
    var id, c := RequestId(user, nonce), s.config;
    && id in s.mints && env.feed.price > 0
    && var net, amount := NetOf(c.params, Effective(c, env.feed, s.mints[id])), s.mints[id].collateralAmount;
    && t.config.book.totalCollateral == c.book.totalCollateral + amount
    && t.config.book.pendingCollateral == c.book.pendingCollateral - amount
    && t.config.book.totalSynthetic == c.book.totalSynthetic + net
    && t.config.book.pendingRedeem == c.book.pendingRedeem
    && t.config.book.hedgedNotional == c.book.hedgedNotional + filled
    && t.tokens.syntheticSupply == s.tokens.syntheticSupply + net
    && (forall h :: Balance(t.tokens.synthetic, h)
                    == Balance(s.tokens.synthetic, h) + if h == User(user) then net else 0)
    && t == s.(mints := s.mints - {id}, config := c.(book := t.config.book),
               tokens := s.tokens.(synthetic := t.tokens.synthetic, syntheticSupply := t.tokens.syntheticSupply))
  }

  /** With the terms settled, the rest is gates, ceilings and counters. */
  lemma ConfirmWithTerms(
    s: State, env: Env, keeper: Key, user: Key, nonce: u64, hedgeHash: Bytes32, venueId: u8, filled: u64, issue: Terms,
    g: Gifts)
    requires Admin.ValidParams(s.config.params) && CollateralPart(s, g) && RequestId(user, nonce) in s.mints
    requires MintSettlement(s.config, env, s.mints[RequestId(user, nonce)], filled) == Ok(issue)
    ensures var c, r := s.config, s.mints[RequestId(user, nonce)];
            MintConfirmSpec(s, env, keeper, user, nonce, hedgeHash, venueId, filled).Ok? <==>
              && !c.gates.mintPaused && MayAttest(s, keeper) && hedgeHash != ZERO_HASH
              && VenueOpen(c.params.venueFlags, venueId) && Room(c, c.book.totalSynthetic + issue.net)
              && s.tokens.syntheticSupply + issue.net <= U64_MAX
              && c.book.totalCollateral + r.collateralAmount <= U64_MAX && c.book.hedgedNotional + filled <= U64_MAX
  {
    VenueOpenExactly(s.config.params.venueFlags, venueId);
    SumAtLeast(s.mints, RequestId(user, nonce), EscrowOf);
    RoomExactly(s.config, s.config.book.totalSynthetic + issue.net);
  }

  lemma ConfirmMintExactly(
    s: State, env: Env, keeper: Key, user: Key, nonce: u64, hedgeHash: Bytes32, venueId: u8, filled: u64, g: Gifts)
    requires Admin.ValidParams(s.config.params) && CollateralPart(s, g)
    ensures MintConfirmSpec(s, env, keeper, user, nonce, hedgeHash, venueId, filled).Ok?
            <==> CanConfirmMint(s, env, keeper, user, nonce, hedgeHash, venueId, filled)
  {
    var id, c := RequestId(user, nonce), s.config;
    if id in s.mints {
      SettleMintExactly(c, env, s.mints[id], filled);
      var issue := MintSettlement(c, env, s.mints[id], filled);
      if issue.Ok? {
        ConfirmWithTerms(s, env, keeper, user, nonce, hedgeHash, venueId, filled, issue.value, g);
      }
    }
  }

  lemma ConfirmMintLeaves(
    s: State, env: Env, keeper: Key, user: Key, nonce: u64, hedgeHash: Bytes32, venueId: u8, filled: u64, t: State)
    requires Admin.ValidParams(s.config.params)
    requires MintConfirmSpec(s, env, keeper, user, nonce, hedgeHash, venueId, filled) == Ok(t)
    ensures MintConfirmed(s, env, user, nonce, filled, t)
  {
    SettleMintExactly(s.config, env, s.mints[RequestId(user, nonce)], filled);
  }

  /** Nothing raises the supply while minting is paused. */
  lemma PausedMintsNothing(hash: Proof.Digest, s: State, e: Entry, t: State)
    requires Step(hash, s, e) == Ok(t) && s.config.gates.mintPaused
    ensures t.config.book.totalSynthetic <= s.config.book.totalSynthetic
  {
    if t.config.book.totalSynthetic > s.config.book.totalSynthetic {
      Provenance.SupplyRaisesUnderCeiling(hash, s, e, t);
      RaisesWhileOpen(s, e.env, e.call.m);
      assert false;
    }
  }

  lemma RaisesWhileOpen(s: State, env: Env, m: MintCall)
    requires m.ConfirmMint? && MintStep(s, env, m).Ok?
    ensures !s.config.gates.mintPaused
  {
  }

  // ---------------------------------------------------------------- mint_cancel

  ghost predicate CanCancelMint(s: State, env: Env, user: Key, nonce: u64) {
    RequestId(user, nonce) in s.mints && env.now > s.mints[RequestId(user, nonce)].deadline
  }

  ghost predicate MintCancelled(s: State, user: Key, nonce: u64, t: State) {
    var id := RequestId(user, nonce);
    && id in s.mints
    && t.config.book == s.config.book.(pendingCollateral := t.config.book.pendingCollateral)
    && t.config.book.pendingCollateral == s.config.book.pendingCollateral - s.mints[id].collateralAmount
    && t == s.(mints := s.mints - {id}, tokens := s.tokens.(collateral := t.tokens.collateral),
               config := s.config.(book := t.config.book))
    && Moves(s.tokens.collateral, CollateralVault, User(user), s.mints[id].collateralAmount, t.tokens.collateral)
  }

  lemma CancelMintLeaves(s: State, env: Env, user: Key, nonce: u64, t: State)
    requires MintCancelSpec(s, env, user, nonce) == Ok(t)
    ensures MintCancelled(s, user, nonce, t)
  {
    Transferred(s.tokens.collateral, CollateralVault, User(user), s.mints[RequestId(user, nonce)].collateralAmount,
                t.tokens.collateral);
  }
}
