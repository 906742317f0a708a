/** Two-phase mint: escrow collateral and quote, then issue against an attested hedge. */
module Mint {
  import opened Checked
  import opened FixedPoint
  import opened TokenLedger
  import opened Accounts
  import opened Oracle

  // ---------------------------------------------------------------- pure checks

  /** The most supply that both the cap and the capacity share allow. */
  function SupplyCeiling(c: Config): Result<u64> {
    var venueCeiling :- MulBpsFloor(c.venue.capacity, c.params.maxSupplyVsCapacityBps);
    Ok(Min(c.params.maxSyntheticSupply, venueCeiling))
  }

  function BookNotional(c: Config, amount: u64, price: PriceUpdate): Result<u64> {
    CollateralToNotional(amount, price.price, price.expo, c.collateralDecimals, c.syntheticDecimals)
  }

  /** The book must be inside the hard band; one worth nothing passes. */
  function HardBandGate(c: Config, price: PriceUpdate): Result<()> {
    if c.book.totalCollateral == 0 then Ok(()) else
    var notional :- BookNotional(c, c.book.totalCollateral, price);
    if notional == 0 then Ok(()) else
    var delta :- DeltaBps(notional, c.book.hedgedNotional);
    :- Require(Abs(delta) <= c.params.deltaHardBps, DeltaOutsideHardBand);
    Ok(())
  }

  function VenueGate(c: Config, now: i64): Result<()> {
    if c.venue.stateAt == 0 then Err(VenueStateMissing) else
    var age :- SubI64(now, c.venue.stateAt);
    :- Require(age >= 0, VenueStateFromFuture);
    :- Require(age <= c.params.maxVenueStateAgeSec, VenueStateStale);
    Ok(())
  }

  /** The market conditions for new requests, whatever their size. Only `mint_request` runs them. */
  function IssuanceGates(c: Config, now: i64, price: PriceUpdate): Result<()> {
    var _ :- VenueGate(c, now);
    :- Require(c.venue.netCarryBps >= c.params.minNetCarryBps, CarryBelowFloor);
    HardBandGate(c, price)
  }

  /** The lower of the request-time and the confirm-time quote. */
  function EffectiveNotional(c: Config, amount: u64, quoted: u64, price: PriceUpdate): Result<u64> {
    var notionalNow :- BookNotional(c, amount, price);
    var effective := Min(notionalNow, quoted);
    :- Require(effective > 0, ZeroAmount);
    Ok(effective)
  }

  /** The attested fill must cover the notional within the slippage band, from both sides. */
  function FillGate(effective: u64, filled: u64, slippageBps: u16): Result<()> {
    if slippageBps > 10_000 then Err(InvalidBps) else
    var requiredFill :- MulBpsFloor(effective, 10_000 - slippageBps);
    :- Require(filled >= requiredFill, HedgeFillTooSmall);
    var maxFill :- MulBpsCeil(effective, 10_000 + slippageBps);
    :- Require(filled <= maxFill, HedgeFillTooLarge);
    Ok(())
  }

  datatype Terms = Terms(gross: u64, fee: u64, net: u64)

  /** Collateral ratio first, then the fee, which is synthetic that is never minted. */
  function IssueTerms(p: Params, effective: u64): Result<Terms> {
    var gross :- DivBpsFloor(effective, p.collateralRatioBps);
    :- Require(gross > 0, ZeroAmount);
    var fee :- MulBpsCeil(gross, p.mintFeeBps);
    var net :- SubU64(gross, fee);
    :- Require(net > 0, ZeroAmount);
    Ok(Terms(gross, fee, net))
  }

  /** Everything a request needs of the market, and its quote. */
  function MintQuote(c: Config, env: Env, amount: u64): Result<u64> {
    var price :- LoadPrice(env, c.params);
    var _ :- IssuanceGates(c, env.now, price);
    var ceiling :- SupplyCeiling(c);
    :- Require(c.book.totalSynthetic < ceiling, VenueCapacityExceeded);
    var quoted :- BookNotional(c, amount, price);
    :- Require(quoted > 0, ZeroAmount);
    Ok(quoted)
  }

  /** What an open request issues now against the attested fill. */
  function MintSettlement(c: Config, env: Env, request: MintRequest, filled: u64): Result<Terms> {
    if env.now > request.deadline then Err(RequestExpired) else
    var price :- LoadPrice(env, c.params);
    var effective :- EffectiveNotional(c, request.collateralAmount, request.quotedNotional, price);
    var _ :- FillGate(effective, filled, c.params.maxHedgeSlippageBps);
    var issue :- IssueTerms(c.params, effective);
    :- Require(issue.net >= request.minSyntheticOut, SlippageExceeded);
    Ok(issue)
  }

  /** A keeper may attest only while active and fully bonded. */
  function KeeperGate(keepers: map<Key, Keeper>, keeper: Key, minBond: u64): Check {
    if keeper !in keepers then Fail(AccountMissing)
    else if !keepers[keeper].active then Fail(KeeperInactive)
    else Require(keepers[keeper].bonded >= minBond, InsufficientBond)
  }

  // ---------------------------------------------------------------- specification

  function MintRequestSpec(s: State, env: Env, user: Key, nonce: u64, amount: u64, minOut: u64): Result<State> {
    var c, id := s.config, RequestId(user, nonce);
    :- Require(id !in s.mints, AccountInUse);
    :- Require(!c.gates.mintPaused, MintPaused);
    :- Require(c.gates.vaultFlags == VAULT_FLAGS_ALL, VaultsNotReady);
    :- Require(amount > 0, ZeroAmount);
    :- Require(c.bonds.keeperCount > 0, KeeperInactive);
    var quoted :- MintQuote(c, env, amount);
    var collateral :- Transfer(s.tokens.collateral, User(user), CollateralVault, amount);
    var deadline :- AddI64(env.now, c.params.requestTtlSec);
    var request := MintRequest(amount, quoted, minOut, env.feed.price, env.now, deadline, env.slot, env.feed.expo);
    var pending :- AddU64(c.book.pendingCollateral, amount);
    Ok(s.(tokens := s.tokens.(collateral := collateral), mints := s.mints[id := request],
       config := c.(book := c.book.(pendingCollateral := pending))))
  }

  function MintConfirmSpec(
    s: State, env: Env, keeper: Key, user: Key, nonce: u64, hedgeHash: Bytes32, venueId: u8, filled: u64)
    : Result<State>
  {
    var c, id := s.config, RequestId(user, nonce);
    :- Require(id in s.mints, AccountMissing);
    :- Require(!c.gates.mintPaused, MintPaused);
    :- KeeperGate(s.keepers, keeper, c.params.minKeeperBond);
    :- Require(hedgeHash != ZERO_HASH, EmptyProofHash);
    :- Require(VenueEnabled(c.params.venueFlags, venueId), VenueNotEnabled);
    var request := s.mints[id];
    var issue :- MintSettlement(c, env, request, filled);
    var supply :- AddU64(c.book.totalSynthetic, issue.net);
    :- Require(supply <= c.params.maxSyntheticSupply, SupplyCapExceeded);
    var ceiling :- SupplyCeiling(c);
    :- Require(supply <= ceiling, VenueCapacityExceeded);
    :- Require(s.tokens.syntheticSupply + issue.net <= U64_MAX, TokenTransferFailed);
    var pending :- SubU64(c.book.pendingCollateral, request.collateralAmount);
    var total :- AddU64(c.book.totalCollateral, request.collateralAmount);
    var hedged :- AddU64(c.book.hedgedNotional, filled);
    Ok(s.(tokens := s.tokens.(synthetic := Credit(s.tokens.synthetic, User(user), issue.net),
       syntheticSupply := s.tokens.syntheticSupply + issue.net),
       mints := s.mints - {id},
       config := c.(book := c.book.(pendingCollateral := pending, totalCollateral := total,
       totalSynthetic := supply, hedgedNotional := hedged))))
  }

  function MintCancelSpec(s: State, env: Env, user: Key, nonce: u64): Result<State> {
    var c, id := s.config, RequestId(user, nonce);
    :- Require(id in s.mints, AccountMissing);
    var request := s.mints[id];
    :- Require(env.now > request.deadline, RequestNotExpired);
    var collateral :- Transfer(s.tokens.collateral, CollateralVault, User(user), request.collateralAmount);
    var pending :- SubU64(c.book.pendingCollateral, request.collateralAmount);
    Ok(s.(tokens := s.tokens.(collateral := collateral), mints := s.mints - {id},
       config := c.(book := c.book.(pendingCollateral := pending))))
  }

  datatype MintCall =
    | RequestMint(user: Key, nonce: u64, amount: u64, minOut: u64)
    | ConfirmMint(keeper: Key, user: Key, nonce: u64, hedgeHash: Bytes32, venueId: u8, filled: u64)
    | CancelMint(user: Key, nonce: u64)

  function MintStep(s: State, env: Env, c: MintCall): Result<State> {
    match c
    case RequestMint(user, nonce, amount, minOut) => MintRequestSpec(s, env, user, nonce, amount, minOut)
    case ConfirmMint(keeper, user, nonce, hedgeHash, venueId, filled) =>
      MintConfirmSpec(s, env, keeper, user, nonce, hedgeHash, venueId, filled)
    case CancelMint(user, nonce) => MintCancelSpec(s, env, user, nonce)
  }

  // ---------------------------------------------------------------- handlers

  method HandleMintRequest(p: Program, env: Env, user: Key, nonce: u64, amount: u64, minOut: u64)
    returns (r: Result<()>)
    modifies p
    ensures Realizes(r, p.View(), MintRequestSpec(old(p.View()), env, user, nonce, amount, minOut))
  {
    var id := RequestId(user, nonce);
    :- Require(id !in p.mints, AccountInUse);
    :- Require(!p.gates.mintPaused, MintPaused);
    :- Require(p.gates.vaultFlags == VAULT_FLAGS_ALL, VaultsNotReady);
    :- Require(amount > 0, ZeroAmount);
    :- Require(p.bonds.keeperCount > 0, KeeperInactive);
    var quoted :- MintQuote(p.Configuration(), env, amount);
    var collateral :- Transfer(p.tokens.collateral, User(user), CollateralVault, amount);
    p.tokens := p.tokens.(collateral := collateral);
    var deadline :- AddI64(env.now, p.params.requestTtlSec);
    p.mints := p.mints[
      id := MintRequest(amount, quoted, minOut, env.feed.price, env.now, deadline, env.slot, env.feed.expo)];
    var pending :- AddU64(p.book.pendingCollateral, amount);
    p.book := p.book.(pendingCollateral := pending);
    return Ok(());
  }

  method HandleMintConfirm(
    p: Program, env: Env, keeper: Key, user: Key, nonce: u64, hedgeHash: Bytes32, venueId: u8, filled: u64)
    returns (r: Result<()>)
    modifies p
    ensures Realizes(r, p.View(), MintConfirmSpec(old(p.View()), env, keeper, user, nonce, hedgeHash, venueId, filled))
  {
    var id := RequestId(user, nonce);
    :- Require(id in p.mints, AccountMissing);
    :- Require(!p.gates.mintPaused, MintPaused);
    :- KeeperGate(p.keepers, keeper, p.params.minKeeperBond);
    :- Require(hedgeHash != ZERO_HASH, EmptyProofHash);
    :- Require(VenueEnabled(p.params.venueFlags, venueId), VenueNotEnabled);
    var request := p.mints[id];
    var issue :- MintSettlement(p.Configuration(), env, request, filled);
    var supply :- AddU64(p.book.totalSynthetic, issue.net);
    :- Require(supply <= p.params.maxSyntheticSupply, SupplyCapExceeded);
    var ceiling :- SupplyCeiling(p.Configuration());
    :- Require(supply <= ceiling, VenueCapacityExceeded);
    :- Require(p.tokens.syntheticSupply + issue.net <= U64_MAX, TokenTransferFailed);
    p.tokens := p.tokens.(synthetic := Credit(p.tokens.synthetic, User(user), issue.net));
    p.tokens := p.tokens.(syntheticSupply := p.tokens.syntheticSupply + issue.net);
    var pending :- SubU64(p.book.pendingCollateral, request.collateralAmount);
    p.book := p.book.(pendingCollateral := pending);
    var total :- AddU64(p.book.totalCollateral, request.collateralAmount);
    p.book := p.book.(totalCollateral := total);
    p.book := p.book.(totalSynthetic := supply);
    var hedged :- AddU64(p.book.hedgedNotional, filled);
    p.book := p.book.(hedgedNotional := hedged);
    p.mints := p.mints - {id};
    return Ok(());
  }

  method HandleMintCancel(p: Program, env: Env, user: Key, nonce: u64) returns (r: Result<()>)
    modifies p
    ensures Realizes(r, p.View(), MintCancelSpec(old(p.View()), env, user, nonce))
  {
    var id := RequestId(user, nonce);
    :- Require(id in p.mints, AccountMissing);
    var amount := p.mints[id].collateralAmount;
    :- Require(env.now > p.mints[id].deadline, RequestNotExpired);
    var collateral :- Transfer(p.tokens.collateral, CollateralVault, User(user), amount);
    p.tokens := p.tokens.(collateral := collateral);
    var pending :- SubU64(p.book.pendingCollateral, amount);
    p.book := p.book.(pendingCollateral := pending);
    p.mints := p.mints - {id};
    return Ok(());
  }
}
