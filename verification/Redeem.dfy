/** Two-phase redeem: escrow synthetic and quote, then burn and release collateral. */
module Redeem {
  import opened Checked
  import opened FixedPoint
  import opened TokenLedger
  import opened Accounts
  import opened Oracle
  import opened Mint

  // ---------------------------------------------------------------- pure checks

  /** What a redemption is worth before the collateral is quoted: the fee is taken first, rounded up. */
  function NetOfRedeemFee(amount: u64, feeBps: u16): Result<u64> {
    var fee :- MulBpsCeil(amount, feeBps);
    SubU64(amount, fee)
  }

  function QuoteCollateral(c: Config, netSynthetic: u64, price: PriceUpdate): Result<u64> {
    NotionalToCollateral(netSynthetic, price.price, price.expo, c.collateralDecimals, c.syntheticDecimals)
  }

  /** The lower of the request-time and the confirm-time valuation. */
  function EffectiveCollateral(c: Config, amount: u64, quoted: u64, price: PriceUpdate): Result<u64> {
    var net :- NetOfRedeemFee(amount, c.params.redeemFeeBps);
    var collateralNow :- QuoteCollateral(c, net, price);
    var effective := Min(collateralNow, quoted);
    :- Require(effective > 0, ZeroAmount);
    Ok(effective)
  }

  /** The attested unwind is bounded from below only. */
  function UnwindGate(amount: u64, unwound: u64, slippageBps: u16): Result<()> {
    if slippageBps > 10_000 then Err(InvalidBps) else
    var requiredUnwind :- MulBpsFloor(amount, 10_000 - slippageBps);
    :- Require(unwound >= requiredUnwind, HedgeFillTooSmall);
    Ok(())
  }

  /** The quote of a new request. */
  function RedeemQuote(c: Config, env: Env, amount: u64): Result<u64> {
    var price :- LoadPrice(env, c.params);
    var net :- NetOfRedeemFee(amount, c.params.redeemFeeBps);
    :- Require(net > 0, ZeroAmount);
    var quoted :- QuoteCollateral(c, net, price);
    :- Require(quoted > 0, ZeroAmount);
    Ok(quoted)
  }

  /** What an open request pays now against the attested unwind. */
  function RedeemSettlement(c: Config, env: Env, request: RedeemRequest, unwound: u64): Result<u64> {
    var elapsed :- SubI64(env.now, request.createdAt);
    :- Require(elapsed >= c.params.minSettlementDelaySec, SettlementDelayActive);
    :- Require(env.now <= request.deadline, RequestExpired);
    var price :- LoadPrice(env, c.params);
    var effective :- EffectiveCollateral(c, request.syntheticAmount, request.quotedCollateral, price);
    :- Require(effective >= request.minCollateralOut, SlippageExceeded);
    :- Require(effective <= c.book.totalCollateral, RedeemExceedsCollateral);
    var _ :- UnwindGate(request.syntheticAmount, unwound, c.params.maxHedgeSlippageBps);
    Ok(effective)
  }

  function SaturatingSub(a: u64, b: u64): u64 {
    if b <= a then a - b else 0
  }

  // ---------------------------------------------------------------- specification

  function RedeemRequestSpec(s: State, env: Env, user: Key, nonce: u64, amount: u64, minOut: u64): Result<State> {
    var c, id := s.config, RequestId(user, nonce);
    :- Require(id !in s.redeems, AccountInUse);
    :- Require(!c.gates.redeemPaused, RedeemPaused);
    :- Require(c.gates.vaultFlags == VAULT_FLAGS_ALL, VaultsNotReady);
    :- Require(amount > 0, ZeroAmount);
    :- Require(c.bonds.keeperCount > 0, KeeperInactive);
    var inFlight :- AddU64(c.book.pendingRedeem, amount);
    :- Require(inFlight <= c.book.totalSynthetic, RedeemExceedsSupply);
    var quoted :- RedeemQuote(c, env, amount);
    var synthetic :- Transfer(s.tokens.synthetic, User(user), RedeemEscrow, amount);
    var deadline :- AddI64(env.now, c.params.requestTtlSec);
    var request := RedeemRequest(amount, quoted, minOut, env.feed.price, env.now, deadline, env.slot, env.feed.expo);
    Ok(s.(tokens := s.tokens.(synthetic := synthetic), redeems := s.redeems[id := request],
       config := c.(book := c.book.(pendingRedeem := inFlight))))
  }

  function RedeemConfirmSpec(
    s: State, env: Env, keeper: Key, user: Key, nonce: u64, unwindHash: Bytes32, unwound: u64)
    : Result<State>
  {
    var c, id := s.config, RequestId(user, nonce);
    :- Require(id in s.redeems, AccountMissing);
    :- Require(!c.gates.redeemPaused, RedeemPaused);
    :- KeeperGate(s.keepers, keeper, c.params.minKeeperBond);
    :- Require(unwindHash != ZERO_HASH, EmptyProofHash);
    var request := s.redeems[id];
    var amount := request.syntheticAmount;
    var effective :- RedeemSettlement(c, env, request, unwound);
    var burned :- Debit(s.tokens.synthetic, RedeemEscrow, amount);
    :- Require(amount <= s.tokens.syntheticSupply, TokenTransferFailed);
    var collateral :- Transfer(s.tokens.collateral, CollateralVault, User(user), effective);
    var pending :- SubU64(c.book.pendingRedeem, amount);
    var supply :- SubU64(c.book.totalSynthetic, amount);
    Ok(s.(tokens := s.tokens.(synthetic := burned, syntheticSupply := s.tokens.syntheticSupply - amount,
       collateral := collateral),
       redeems := s.redeems - {id},
       config := c.(book := c.book.(pendingRedeem := pending, totalSynthetic := supply,
       totalCollateral := c.book.totalCollateral - effective,
       hedgedNotional := SaturatingSub(c.book.hedgedNotional, unwound)))))
  }

  function RedeemCancelSpec(s: State, env: Env, user: Key, nonce: u64): Result<State> {
    var c, id := s.config, RequestId(user, nonce);
    :- Require(id in s.redeems, AccountMissing);
    var request := s.redeems[id];
    :- Require(env.now > request.deadline, RequestNotExpired);
    var synthetic :- Transfer(s.tokens.synthetic, RedeemEscrow, User(user), request.syntheticAmount);
    var pending :- SubU64(c.book.pendingRedeem, request.syntheticAmount);
    Ok(s.(tokens := s.tokens.(synthetic := synthetic), redeems := s.redeems - {id},
       config := c.(book := c.book.(pendingRedeem := pending))))
  }

  datatype RedeemCall =
    | RequestRedeem(user: Key, nonce: u64, amount: u64, minOut: u64)
    | ConfirmRedeem(keeper: Key, user: Key, nonce: u64, unwindHash: Bytes32, unwound: u64)
    | CancelRedeem(user: Key, nonce: u64)

  function RedeemStep(s: State, env: Env, c: RedeemCall): Result<State> {
    match c
    case RequestRedeem(user, nonce, amount, minOut) => RedeemRequestSpec(s, env, user, nonce, amount, minOut)
    case ConfirmRedeem(keeper, user, nonce, unwindHash, unwound) =>
      RedeemConfirmSpec(s, env, keeper, user, nonce, unwindHash, unwound)
    case CancelRedeem(user, nonce) => RedeemCancelSpec(s, env, user, nonce)
  }

  // ---------------------------------------------------------------- handlers

  method HandleRedeemRequest(p: Program, env: Env, user: Key, nonce: u64, amount: u64, minOut: u64)
    returns (r: Result<()>)
    modifies p
    ensures Realizes(r, p.View(), RedeemRequestSpec(old(p.View()), env, user, nonce, amount, minOut))
  {
    var id := RequestId(user, nonce);
    :- Require(id !in p.redeems, AccountInUse);
    :- Require(!p.gates.redeemPaused, RedeemPaused);
    :- Require(p.gates.vaultFlags == VAULT_FLAGS_ALL, VaultsNotReady);
    :- Require(amount > 0, ZeroAmount);
    :- Require(p.bonds.keeperCount > 0, KeeperInactive);
    var inFlight :- AddU64(p.book.pendingRedeem, amount);
    :- Require(inFlight <= p.book.totalSynthetic, RedeemExceedsSupply);
    var quoted :- RedeemQuote(p.Configuration(), env, amount);
    var synthetic :- Transfer(p.tokens.synthetic, User(user), RedeemEscrow, amount);
    p.tokens := p.tokens.(synthetic := synthetic);
    var deadline :- AddI64(env.now, p.params.requestTtlSec);
    p.redeems := p.redeems[
      id := RedeemRequest(amount, quoted, minOut, env.feed.price, env.now, deadline, env.slot, env.feed.expo)];
    p.book := p.book.(pendingRedeem := inFlight);
    return Ok(());
  }

  method HandleRedeemConfirm(
    p: Program, env: Env, keeper: Key, user: Key, nonce: u64, unwindHash: Bytes32, unwound: u64)
    returns (r: Result<()>)
    modifies p
    ensures Realizes(r, p.View(), RedeemConfirmSpec(old(p.View()), env, keeper, user, nonce, unwindHash, unwound))
  {
    var id := RequestId(user, nonce);
    :- Require(id in p.redeems, AccountMissing);
    :- Require(!p.gates.redeemPaused, RedeemPaused);
    :- KeeperGate(p.keepers, keeper, p.params.minKeeperBond);
    :- Require(unwindHash != ZERO_HASH, EmptyProofHash);
    var request := p.redeems[id];
    var amount := request.syntheticAmount;
    var effective :- RedeemSettlement(p.Configuration(), env, request, unwound);
    var burned :- Debit(p.tokens.synthetic, RedeemEscrow, amount);
    :- Require(amount <= p.tokens.syntheticSupply, TokenTransferFailed);
    p.tokens := p.tokens.(synthetic := burned, syntheticSupply := p.tokens.syntheticSupply - amount);
    var collateral :- Transfer(p.tokens.collateral, CollateralVault, User(user), effective);
    p.tokens := p.tokens.(collateral := collateral);
    var pending :- SubU64(p.book.pendingRedeem, amount);
    p.book := p.book.(pendingRedeem := pending);
    var supply :- SubU64(p.book.totalSynthetic, amount);
    p.book := p.book.(totalSynthetic := supply);
    p.book := p.book.(totalCollateral := p.book.totalCollateral - effective);
    p.book := p.book.(hedgedNotional := SaturatingSub(p.book.hedgedNotional, unwound));
    p.redeems := p.redeems - {id};
    return Ok(());
  }

  method HandleRedeemCancel(p: Program, env: Env, user: Key, nonce: u64) returns (r: Result<()>)
    modifies p
    ensures Realizes(r, p.View(), RedeemCancelSpec(old(p.View()), env, user, nonce))
  {
    var id := RequestId(user, nonce);
    :- Require(id in p.redeems, AccountMissing);
    var amount := p.redeems[id].syntheticAmount;
    :- Require(env.now > p.redeems[id].deadline, RequestNotExpired);
    var synthetic :- Transfer(p.tokens.synthetic, RedeemEscrow, User(user), amount);
    p.tokens := p.tokens.(synthetic := synthetic);
    var pending :- SubU64(p.book.pendingRedeem, amount);
    p.book := p.book.(pendingRedeem := pending);
    p.redeems := p.redeems - {id};
    return Ok(());
  }
}
