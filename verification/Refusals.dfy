/** With which error a call is refused: the first gate it fails, in the program's order. */
module Refusals {
  import opened Checked
  import opened TokenLedger
  import opened Accounts
  import opened Oracle
  import opened Proof
  import opened Protocol
  import opened Funding
  import opened Buffer
  import opened Mint
  import opened Redeem
  import opened Keepers
  import opened Admin
  import opened FundingSuccess
  import opened MintSuccess
  import Rates
  import ControlSuccess
  import Success

  function OpenMint(s: State, id: RequestId): MintRequest {
    if id in s.mints then s.mints[id] else MintRequest(0, 0, 0, 0, 0, 0, 0, 0)
  }

  function OpenRedeem(s: State, id: RequestId): RedeemRequest {
    if id in s.redeems then s.redeems[id] else RedeemRequest(0, 0, 0, 0, 0, 0, 0, 0)
  }

  function KeeperAt(s: State, keeper: Key): Keeper {
    if keeper in s.keepers then s.keepers[keeper] else Keeper(0, 0, 0, 0, 0, 0, 0, false)
  }

  function AttestRefusal(s: State, keeper: Key): Option<Error> {
    if keeper !in s.keepers then Some(AccountMissing)
    else if !KeeperAt(s, keeper).active then Some(KeeperInactive)
    else if KeeperAt(s, keeper).bonded < s.config.params.minKeeperBond then Some(InsufficientBond)
    else None
  }

  function PriceRefusal(env: Env, p: Params): Option<Error> {
    var age, width := env.now - env.feed.publishTime, env.feed.conf * 10_000;
    if env.feed.price <= 0 then Some(OracleInvalidPrice)
    else if age > I64_MAX || age < -I64_MAX - 1 then Some(MathOverflow)
    else if age < 0 then Some(OraclePriceFromFuture)
    else if age > p.maxPriceAgeSec then Some(OraclePriceStale)
    else if width > U64_MAX * env.feed.price then Some(MathOverflow)
    else if width > p.maxConfBps * env.feed.price then Some(OracleConfidenceTooWide)
    else None
  }

  lemma PriceRefused(env: Env, p: Params)
    ensures PriceRefusal(env, p).Some? ==> LoadPrice(env, p) == Err(PriceRefusal(env, p).value)
    ensures PriceRefusal(env, p).None? ==> LoadPrice(env, p) == Ok(env.feed)
  {
    if env.feed.price > 0 {
      Rates.CeilAtMost(env.feed.conf * 10_000, env.feed.price, p.maxConfBps);
      Rates.CeilAtMost(env.feed.conf * 10_000, env.feed.price, U64_MAX);
      Rates.QuotientFits(env.feed.conf * 10_000 + (env.feed.price - 1), env.feed.price);
    }
  }

  // ---------------------------------------------------------------- the gates of each instruction

  function FundingRefusal(s: State, env: Env, c: FundingCall): Option<Error> {
    match c
    case SettleFunding(signer, _) =>
      if signer != s.config.authority then Some(Unauthorized)
      else None
    case Stake(_, amount) =>
      if s.config.gates.mintPaused then Some(MintPaused)
      else if s.config.gates.vaultFlags != 15 then Some(VaultsNotReady)
      else if amount == 0 then Some(ZeroAmount)
      else None
    case RequestUnstake(owner, amount) =>
      if owner !in s.positions then Some(AccountMissing)
      else if amount == 0 then Some(ZeroAmount)
      else if amount > PositionOf(s.positions, owner).amount then Some(InsufficientStake)
      else if env.now + s.config.params.unstakeCooldownSec > I64_MAX then Some(MathOverflow)
      else None
    case Unstake(owner) =>
      if owner !in s.positions then Some(AccountMissing)
      else if PositionOf(s.positions, owner).pendingUnstake == 0 then Some(NoPendingUnstake)
      else if env.now < PositionOf(s.positions, owner).cooldownEnd then Some(UnstakeCooldownActive)
      else None
    case ClaimFunding(owner) =>
      if owner !in s.positions then Some(AccountMissing)
      else None
  }

  function BufferRefusal(s: State, env: Env, c: BufferCall): Option<Error> {
    match c
    case BufferDeposit(_, amount) =>
      if amount == 0 then Some(ZeroAmount)
      else None
    case BufferWithdraw(signer, amount) =>
      var inRegime := env.now - s.config.venue.negativeSince;
      if signer != s.config.authority then Some(Unauthorized)
      else if amount == 0 then Some(ZeroAmount)
      else if amount > s.config.pool.buffer then Some(InsufficientBuffer)
      else if s.config.pool.totalStaked == 0 then Some(NoStakers)
      else if s.config.venue.negativeSince == 0 then Some(BufferLocked)
      else if inRegime > I64_MAX || inRegime < -I64_MAX - 1 then Some(MathOverflow)
      else if inRegime < s.config.params.bufferUnlockDelaySec then Some(BufferLocked)
      else if amount * 10_000 > s.config.pool.buffer * s.config.params.bufferMaxDrawBps then Some(BufferDrawCapExceeded)
      else None
  }

  function MintRefusal(s: State, env: Env, c: MintCall): Option<Error> {
    var id, gates, venue, p := RequestId(c.user, c.nonce), s.config.gates, s.config.venue, s.config.params;
    match c
    case RequestMint(_, _, amount, _) =>
      var age := env.now - venue.stateAt;
      if id in s.mints then Some(AccountInUse)
      else if gates.mintPaused then Some(MintPaused)
      else if gates.vaultFlags != 15 then Some(VaultsNotReady)
      else if amount == 0 then Some(ZeroAmount)
      else if s.config.bonds.keeperCount == 0 then Some(KeeperInactive)
      else if PriceRefusal(env, p).Some? then PriceRefusal(env, p)
      else if venue.stateAt == 0 then Some(VenueStateMissing)
      else if age > I64_MAX || age < -I64_MAX - 1 then Some(MathOverflow)
      else if age < 0 then Some(VenueStateFromFuture)
      else if age > p.maxVenueStateAgeSec then Some(VenueStateStale)
      else if venue.netCarryBps < p.minNetCarryBps then Some(CarryBelowFloor)
      else None
    case ConfirmMint(keeper, _, _, hedgeHash, venueId, _) =>
      if id !in s.mints then Some(AccountMissing)
      else if gates.mintPaused then Some(MintPaused)
      else if AttestRefusal(s, keeper).Some? then AttestRefusal(s, keeper)
      else if hedgeHash == ZERO_HASH then Some(EmptyProofHash)
      else if !VenueOpen(p.venueFlags, venueId) then Some(VenueNotEnabled)
      else if env.now > OpenMint(s, id).deadline then Some(RequestExpired)
      else PriceRefusal(env, p)
    case CancelMint(_, _) =>
      if id !in s.mints then Some(AccountMissing)
      else if env.now <= OpenMint(s, id).deadline then Some(RequestNotExpired)
      else None
  }

  function RedeemRefusal(s: State, env: Env, c: RedeemCall): Option<Error> {
    var id, gates, book, p := RequestId(c.user, c.nonce), s.config.gates, s.config.book, s.config.params;
    match c
    case RequestRedeem(_, _, amount, _) =>
      if id in s.redeems then Some(AccountInUse)
      else if gates.redeemPaused then Some(RedeemPaused)
      else if gates.vaultFlags != 15 then Some(VaultsNotReady)
      else if amount == 0 then Some(ZeroAmount)
      else if s.config.bonds.keeperCount == 0 then Some(KeeperInactive)
      else if book.pendingRedeem + amount > U64_MAX then Some(MathOverflow)
      else if book.pendingRedeem + amount > book.totalSynthetic then Some(RedeemExceedsSupply)
      else PriceRefusal(env, p)
    case ConfirmRedeem(keeper, _, _, unwindHash, _) =>
      var elapsed := env.now - OpenRedeem(s, id).createdAt;
      if id !in s.redeems then Some(AccountMissing)
      else if gates.redeemPaused then Some(RedeemPaused)
      else if AttestRefusal(s, keeper).Some? then AttestRefusal(s, keeper)
      else if unwindHash == ZERO_HASH then Some(EmptyProofHash)
      else if elapsed > I64_MAX || elapsed < -I64_MAX - 1 then Some(MathOverflow)
      else if elapsed < p.minSettlementDelaySec then Some(SettlementDelayActive)
      else if env.now > OpenRedeem(s, id).deadline then Some(RequestExpired)
      else PriceRefusal(env, p)
    case CancelRedeem(_, _) =>
      if id !in s.redeems then Some(AccountMissing)
      else if env.now <= OpenRedeem(s, id).deadline then Some(RequestNotExpired)
      else None
  }

  function CommitRefusal(s: State, env: Env, keeper: Key, claim: Claim): Option<Error> {
    if claim.sequence in s.proofs then Some(AccountInUse)
    else if AttestRefusal(s, keeper).Some? then AttestRefusal(s, keeper)
    else if claim.venuesHash == ZERO_HASH then Some(EmptyProofHash)
    else if !VenueOpen(s.config.params.venueFlags, claim.venueId) then Some(VenueNotEnabled)
    else if claim.sequence != s.config.chain.rebalanceCount then Some(ProofSequenceMismatch)
    else if claim.collateralNotional == 0 then Some(ZeroAmount)
    else if Abs(claim.deltaBefore) > 1_000_000 || Abs(claim.deltaAfter) > 1_000_000 then Some(DeltaOutOfRange)
    else if env.slot <= s.config.chain.lastProofSlot then Some(ProofSlotNotMonotonic)
    else PriceRefusal(env, s.config.params)
  }

  function KeeperRefusal(s: State, env: Env, c: KeeperCall): Option<Error> {
    var k, p := KeeperAt(s, c.keeper), s.config.params;
    match c
    case Register(keeper, amount) =>
      if keeper in s.keepers then Some(AccountInUse)
      else if amount < p.minKeeperBond then Some(InsufficientBond)
      else None
    case AddBond(keeper, amount) =>
      if keeper !in s.keepers then Some(AccountMissing)
      else if amount == 0 then Some(ZeroAmount)
      else None
    case Unbond(keeper, amount) =>
      if keeper !in s.keepers then Some(AccountMissing)
      else if amount == 0 then Some(ZeroAmount)
      else if amount > k.bonded then Some(SlashExceedsBond)
      else if k.lastProofAt > 0 && env.now - k.lastProofAt < -I64_MAX - 1 then Some(MathOverflow)
      else if k.lastProofAt > 0 && env.now - k.lastProofAt < p.unbondCooldownSec then Some(UnbondCooldownActive)
      else if amount != k.bonded && k.bonded < amount + p.minKeeperBond then Some(BondBelowMinimum)
      else None
    case Slash(signer, keeper, amount, reason, evidence) =>
      if signer != s.config.authority then Some(Unauthorized)
      else if keeper !in s.keepers then Some(AccountMissing)
      else if amount == 0 then Some(ZeroAmount)
      else if amount > k.bonded then Some(SlashExceedsBond)
      else if evidence == ZERO_HASH then Some(EmptyProofHash)
      else if reason == 0 || reason > 5 then Some(UnknownSlashReason)
      else None
  }

  function ReportRefusal(s: State, signer: Key): Option<Error> {
    if signer == s.config.authority then None
    else if signer !in s.keepers then Some(NotAuthorizedReporter)
    else AttestRefusal(s, signer)
  }

  /** The parameter checks in their order. */
  function ParamsRefusal(p: Params): Option<Error> {
    if !(0 < p.maxPriceAgeSec <= 3_600) then Some(InvalidPriceAge)
    else if !(10_000 <= p.collateralRatioBps <= 50_000) then Some(InvalidCollateralRatio)
    else if !(0 < p.deltaExitBps <= p.deltaBandBps <= p.deltaHardBps <= 2_000) then Some(InvalidDeltaThreshold)
    else if !(p.mintFeeBps <= 500 && p.redeemFeeBps <= 500 && 0 < p.maxConfBps < 10_000
              && p.maxHedgeSlippageBps < 10_000 && p.bufferShareBps <= 10_000
              && 0 < p.bufferMaxDrawBps <= 10_000 && 0 < p.maxSupplyVsCapacityBps <= 10_000) then Some(InvalidBps)
    else if p.maxVenueStateAgeSec == 0 then Some(ZeroAmount)
    else if !(p.venueFlags != 0 && p.venueFlags & 0xE1 == 0) then Some(VenueNotEnabled)
    else if !(p.minKeeperBond > 0 && p.maxSyntheticSupply > 0 && p.requestTtlSec > 0) then Some(ZeroAmount)
    else None
  }

  function AdminRefusal(s: State, env: Env, c: AdminCall): Option<Error> {
    var gates := s.config.gates;
    match c
    case SetParams(signer, update) =>
      if signer != s.config.authority then Some(Unauthorized)
      else ParamsRefusal(Merge(s.config.params, update))
    case SetPaused(signer, mint, redeem) =>
      if signer != s.config.authority && signer != s.config.guardian then Some(Unauthorized)
      else if signer != s.config.authority && ((gates.mintPaused && !mint) || (gates.redeemPaused && !redeem)) then
        Some(GuardianCannotUnpause)
      else if (!mint || !redeem) && gates.vaultFlags != 15 then Some(VaultsNotReady)
      else None
    case InitVaults(signer, group) =>
      if signer != s.config.authority then Some(Unauthorized)
      else if gates.vaultFlags & ControlSuccess.GroupBit(group) != 0 then Some(VaultAlreadyInitialized)
      else None
    case ReportVenueState(signer, venueId, netCarryBps, _) =>
      if ReportRefusal(s, signer).Some? then ReportRefusal(s, signer)
      else if !VenueOpen(s.config.params.venueFlags, venueId) then Some(VenueNotEnabled)
      else if Abs(netCarryBps) > 1_000_000 then Some(CarryOutOfRange)
      else if env.now < s.config.venue.stateAt then Some(VenueStateNotMonotonic)
      else None
  }

  function Refusal(s: State, e: Entry): Option<Error> {
    match e.call
    case Fund(f) => FundingRefusal(s, e.env, f)
    case Reserve(b) => BufferRefusal(s, e.env, b)
    case Issue(m) => MintRefusal(s, e.env, m)
    case Exit(r) => RedeemRefusal(s, e.env, r)
    case Commit(keeper, claim) => CommitRefusal(s, e.env, keeper, claim)
    case Bonding(k) => KeeperRefusal(s, e.env, k)
    case Govern(a) => AdminRefusal(s, e.env, a)
    case Send(from, _, kind, amount) =>
      if amount > Balance(Success.Wallet(s.tokens, kind), User(from)) then Some(TokenTransferFailed)
      else None
  }

  // ---------------------------------------------------------------- group by group

  lemma FundingRefused(s: State, env: Env, c: FundingCall)
    requires FundingRefusal(s, env, c).Some?
    ensures FundingStep(s, env, c) == Err(FundingRefusal(s, env, c).value)
  {
  }

  lemma BufferRefused(s: State, env: Env, c: BufferCall)
    requires Admin.ValidParams(s.config.params) && BufferRefusal(s, env, c).Some?
    ensures BufferStep(s, env, c) == Err(BufferRefusal(s, env, c).value)
  {
    if c.BufferWithdraw? {
      CapExactly(s.config.pool.buffer, s.config.params.bufferMaxDrawBps, c.amount);
    }
  }

  lemma MintRefused(s: State, env: Env, c: MintCall)
    requires MintRefusal(s, env, c).Some?
    ensures MintStep(s, env, c) == Err(MintRefusal(s, env, c).value)
  {
    PriceRefused(env, s.config.params);
    if c.ConfirmMint? {
      VenueOpenExactly(s.config.params.venueFlags, c.venueId);
    }
  }

  lemma RedeemRefused(s: State, env: Env, c: RedeemCall)
    requires RedeemRefusal(s, env, c).Some?
    ensures RedeemStep(s, env, c) == Err(RedeemRefusal(s, env, c).value)
  {
    PriceRefused(env, s.config.params);
  }

  lemma CommitRefused(hash: Digest, s: State, env: Env, keeper: Key, claim: Claim)
    requires CommitRefusal(s, env, keeper, claim).Some?
    ensures CommitProofSpec(hash, s, env, keeper, claim) == Err(CommitRefusal(s, env, keeper, claim).value)
  {
    PriceRefused(env, s.config.params);
    VenueOpenExactly(s.config.params.venueFlags, claim.venueId);
  }

  lemma KeeperRefused(s: State, env: Env, c: KeeperCall)
    requires KeeperRefusal(s, env, c).Some?
    ensures KeeperStep(s, env, c) == Err(KeeperRefusal(s, env, c).value)
  {
  }

  lemma ParamsRefused(p: Params)
    ensures ValidateParams(p) == match ParamsRefusal(p) case None => Ok(()) case Some(e) => Err(e)
  {
    assert !VENUE_FLAGS_MASK == 0xE1;
  }

  lemma AdminRefused(s: State, env: Env, c: AdminCall)
    requires AdminRefusal(s, env, c).Some?
    ensures AdminStep(s, env, c) == Err(AdminRefusal(s, env, c).value)
  {
    match c
    case SetParams(_, update) => ParamsRefused(Merge(s.config.params, update));
    case SetPaused(_, _, _) =>
    case InitVaults(_, group) => assert VaultFlag(group) == ControlSuccess.GroupBit(group);
    case ReportVenueState(_, venueId, _, _) => VenueOpenExactly(s.config.params.venueFlags, venueId);
  }

  /** A call that fails one of these gates is refused with the error of the first one it fails. */
  lemma RefusedInOrder(hash: Digest, s: State, e: Entry)
    requires Admin.ValidParams(s.config.params) && Refusal(s, e).Some?
    ensures Step(hash, s, e) == Err(Refusal(s, e).value)
  {
    match e.call
    case Fund(f) => FundingRefused(s, e.env, f);
    case Reserve(b) => BufferRefused(s, e.env, b);
    case Issue(m) => MintRefused(s, e.env, m);
    case Exit(r) => RedeemRefused(s, e.env, r);
    case Commit(keeper, claim) => CommitRefused(hash, s, e.env, keeper, claim);
    case Bonding(k) => KeeperRefused(s, e.env, k);
    case Govern(a) => AdminRefused(s, e.env, a);
    case Send(_, _, _, _) =>
  }
}
