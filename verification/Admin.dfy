/** Parameter bounds, parameter updates, the pause switches and the venue report. */
module Admin {
  import opened Checked
  import opened Accounts
  import opened Oracle
  import opened Mint

  const CARRY_BPS_LIMIT: int := 1_000_000

  /** A partial update; an absent field keeps its value. */
  datatype UpdateParams = UpdateParams(
    maxPriceAgeSec: Option<u32>, requestTtlSec: Option<u32>, minSettlementDelaySec: Option<u32>,
    unbondCooldownSec: Option<u32>, bufferUnlockDelaySec: Option<u32>, unstakeCooldownSec: Option<u32>,
    maxVenueStateAgeSec: Option<u32>, minKeeperBond: Option<u64>, maxSyntheticSupply: Option<u64>,
    maxReportableCapacity: Option<u64>, minNetCarryBps: Option<i32>, maxConfBps: Option<u16>,
    collateralRatioBps: Option<u16>, mintFeeBps: Option<u16>, redeemFeeBps: Option<u16>,
    deltaBandBps: Option<u16>, deltaExitBps: Option<u16>, deltaHardBps: Option<u16>,
    maxHedgeSlippageBps: Option<u16>, bufferShareBps: Option<u16>, bufferMaxDrawBps: Option<u16>,
    maxSupplyVsCapacityBps: Option<u16>, venueFlags: Option<bv8>)

  // ---------------------------------------------------------------- pure checks

  /** The admissible parameter sets; every accepted update ends in one. */
  function ValidateParams(p: Params): Result<()> {
    if p.maxPriceAgeSec == 0 || p.maxPriceAgeSec > MAX_PRICE_AGE_SEC_LIMIT then Err(InvalidPriceAge) else
    :- Require(MIN_COLLATERAL_RATIO_BPS <= p.collateralRatioBps <= MAX_COLLATERAL_RATIO_BPS, InvalidCollateralRatio);
    :- Require(0 < p.deltaBandBps <= MAX_DELTA_BAND_BPS, InvalidDeltaThreshold);
    :- Require(0 < p.deltaExitBps <= p.deltaBandBps, InvalidDeltaThreshold);
    :- Require(p.deltaBandBps <= p.deltaHardBps <= MAX_DELTA_BAND_BPS, InvalidDeltaThreshold);
    :- Require(p.mintFeeBps <= MAX_FEE_BPS && p.redeemFeeBps <= MAX_FEE_BPS, InvalidBps);
    :- Require(0 < p.maxConfBps < 10_000, InvalidBps);
    :- Require(p.maxHedgeSlippageBps < 10_000, InvalidBps);
    :- Require(p.bufferShareBps <= 10_000, InvalidBps);
    :- Require(0 < p.bufferMaxDrawBps <= 10_000, InvalidBps);
    :- Require(0 < p.maxSupplyVsCapacityBps <= 10_000, InvalidBps);
    :- Require(p.maxVenueStateAgeSec > 0, ZeroAmount);
    :- Require(p.venueFlags != 0 && p.venueFlags & !VENUE_FLAGS_MASK == 0, VenueNotEnabled);
    :- Require(p.minKeeperBond > 0 && p.maxSyntheticSupply > 0 && p.requestTtlSec > 0, ZeroAmount);
    Ok(())
  }

  predicate ValidParams(p: Params) {
    ValidateParams(p).Ok?
  }

  function Merge(p: Params, u: UpdateParams): Params {
    Params(
      u.maxPriceAgeSec.GetOr(p.maxPriceAgeSec), u.requestTtlSec.GetOr(p.requestTtlSec),
      u.minSettlementDelaySec.GetOr(p.minSettlementDelaySec), u.unbondCooldownSec.GetOr(p.unbondCooldownSec),
      u.bufferUnlockDelaySec.GetOr(p.bufferUnlockDelaySec), u.unstakeCooldownSec.GetOr(p.unstakeCooldownSec),
      u.maxVenueStateAgeSec.GetOr(p.maxVenueStateAgeSec), u.minKeeperBond.GetOr(p.minKeeperBond),
      u.maxSyntheticSupply.GetOr(p.maxSyntheticSupply), u.maxReportableCapacity.GetOr(p.maxReportableCapacity),
      u.minNetCarryBps.GetOr(p.minNetCarryBps), u.maxConfBps.GetOr(p.maxConfBps),
      u.collateralRatioBps.GetOr(p.collateralRatioBps), u.mintFeeBps.GetOr(p.mintFeeBps),
      u.redeemFeeBps.GetOr(p.redeemFeeBps), u.deltaBandBps.GetOr(p.deltaBandBps),
      u.deltaExitBps.GetOr(p.deltaExitBps), u.deltaHardBps.GetOr(p.deltaHardBps),
      u.maxHedgeSlippageBps.GetOr(p.maxHedgeSlippageBps), u.bufferShareBps.GetOr(p.bufferShareBps),
      u.bufferMaxDrawBps.GetOr(p.bufferMaxDrawBps), u.maxSupplyVsCapacityBps.GetOr(p.maxSupplyVsCapacityBps),
      u.venueFlags.GetOr(p.venueFlags))
  }

  // ---------------------------------------------------------------- specification

  function SetParamsSpec(s: State, signer: Key, u: UpdateParams): Result<State> {
    if signer != s.config.authority then Err(Unauthorized) else
    var params := Merge(s.config.params, u);
    var _ :- ValidateParams(params);
    Ok(s.(config := s.config.(params := params)))
  }

  function SetPausedSpec(s: State, signer: Key, mintPaused: bool, redeemPaused: bool): Result<State> {
    var c := s.config;
    :- Require(signer == c.authority || signer == c.guardian, Unauthorized);
    :- Require(signer == c.authority ||
               ((mintPaused || !c.gates.mintPaused) && (redeemPaused || !c.gates.redeemPaused)),
               GuardianCannotUnpause);
    :- Require((mintPaused && redeemPaused) || c.gates.vaultFlags == VAULT_FLAGS_ALL, VaultsNotReady);
    Ok(s.(config := c.(gates := c.gates.(mintPaused := mintPaused, redeemPaused := redeemPaused))))
  }

  /** A group is recorded once. */
  function MarkVaults(flags: bv8, group: VaultGroup): Result<bv8> {
    if flags & VaultFlag(group) != 0 then Err(VaultAlreadyInitialized) else Ok(flags | VaultFlag(group))
  }

  function InitVaultsSpec(s: State, signer: Key, group: VaultGroup): Result<State> {
    var c := s.config;
    :- Require(signer == c.authority, Unauthorized);
    var flags :- MarkVaults(c.gates.vaultFlags, group);
    Ok(s.(config := c.(gates := c.gates.(vaultFlags := flags))))
  }

  /** The authority, or an active bonded keeper. */
  function ReporterGate(s: State, signer: Key): Check {
    if signer == s.config.authority then Pass
    else if signer !in s.keepers then Fail(NotAuthorizedReporter)
    else KeeperGate(s.keepers, signer, s.config.params.minKeeperBond)
  }

  /** The clock starts at the first negative report and is cleared by the first other one. */
  function RegimeClock(since: i64, netCarryBps: i32, now: i64): i64 {
    if netCarryBps >= 0 then 0 else if since == 0 then now else since
  }

  function ReportVenueStateSpec(s: State, env: Env, signer: Key, venueId: u8, netCarryBps: i32, capacity: u64)
    : Result<State>
  {
    var c := s.config;
    :- ReporterGate(s, signer);
    :- Require(VenueEnabled(c.params.venueFlags, venueId), VenueNotEnabled);
    :- Require(Abs(netCarryBps) <= CARRY_BPS_LIMIT, CarryOutOfRange);
    :- Require(env.now >= c.venue.stateAt, VenueStateNotMonotonic);
    var venue := Venue(env.now, Min(capacity, c.params.maxReportableCapacity), netCarryBps,
                       RegimeClock(c.venue.negativeSince, netCarryBps, env.now), venueId);
    Ok(s.(config := c.(venue := venue)))
  }

  datatype AdminCall =
    | SetParams(signer: Key, update: UpdateParams)
    | SetPaused(signer: Key, mintPaused: bool, redeemPaused: bool)
    | InitVaults(signer: Key, group: VaultGroup)
    | ReportVenueState(signer: Key, venueId: u8, netCarryBps: i32, capacity: u64)

  function AdminStep(s: State, env: Env, c: AdminCall): Result<State> {
    match c
    case SetParams(signer, update) => SetParamsSpec(s, signer, update)
    case SetPaused(signer, mintPaused, redeemPaused) => SetPausedSpec(s, signer, mintPaused, redeemPaused)
    case InitVaults(signer, group) => InitVaultsSpec(s, signer, group)
    case ReportVenueState(signer, venueId, netCarryBps, capacity) =>
      ReportVenueStateSpec(s, env, signer, venueId, netCarryBps, capacity)
  }

  // ---------------------------------------------------------------- handlers

  method HandleSetParams(p: Program, signer: Key, u: UpdateParams) returns (r: Result<()>)
    modifies p
    ensures Realizes(r, p.View(), SetParamsSpec(old(p.View()), signer, u))
  {
    if signer != p.authority {
      return Err(Unauthorized);
    }
    ApplyUpdate(p, u);
    var _ :- ValidateParams(p.params);
    return Ok(());
  }

  method ApplyUpdate(p: Program, u: UpdateParams)
    modifies p`params
    ensures p.params == Merge(old(p.params), u)
  {
    p.params := p.params.(maxPriceAgeSec := u.maxPriceAgeSec.GetOr(p.params.maxPriceAgeSec));
    p.params := p.params.(requestTtlSec := u.requestTtlSec.GetOr(p.params.requestTtlSec));
    p.params := p.params.(minSettlementDelaySec := u.minSettlementDelaySec.GetOr(p.params.minSettlementDelaySec));
    p.params := p.params.(unbondCooldownSec := u.unbondCooldownSec.GetOr(p.params.unbondCooldownSec));
    p.params := p.params.(bufferUnlockDelaySec := u.bufferUnlockDelaySec.GetOr(p.params.bufferUnlockDelaySec));
    p.params := p.params.(unstakeCooldownSec := u.unstakeCooldownSec.GetOr(p.params.unstakeCooldownSec));
    p.params := p.params.(maxVenueStateAgeSec := u.maxVenueStateAgeSec.GetOr(p.params.maxVenueStateAgeSec));
    p.params := p.params.(minKeeperBond := u.minKeeperBond.GetOr(p.params.minKeeperBond));
    p.params := p.params.(maxSyntheticSupply := u.maxSyntheticSupply.GetOr(p.params.maxSyntheticSupply));
    p.params := p.params.(maxReportableCapacity := u.maxReportableCapacity.GetOr(p.params.maxReportableCapacity));
    p.params := p.params.(minNetCarryBps := u.minNetCarryBps.GetOr(p.params.minNetCarryBps));
    p.params := p.params.(maxConfBps := u.maxConfBps.GetOr(p.params.maxConfBps));
    p.params := p.params.(collateralRatioBps := u.collateralRatioBps.GetOr(p.params.collateralRatioBps));
    p.params := p.params.(mintFeeBps := u.mintFeeBps.GetOr(p.params.mintFeeBps));
    p.params := p.params.(redeemFeeBps := u.redeemFeeBps.GetOr(p.params.redeemFeeBps));
    p.params := p.params.(deltaBandBps := u.deltaBandBps.GetOr(p.params.deltaBandBps));
    p.params := p.params.(deltaExitBps := u.deltaExitBps.GetOr(p.params.deltaExitBps));
    p.params := p.params.(deltaHardBps := u.deltaHardBps.GetOr(p.params.deltaHardBps));
    p.params := p.params.(maxHedgeSlippageBps := u.maxHedgeSlippageBps.GetOr(p.params.maxHedgeSlippageBps));
    p.params := p.params.(bufferShareBps := u.bufferShareBps.GetOr(p.params.bufferShareBps));
    p.params := p.params.(bufferMaxDrawBps := u.bufferMaxDrawBps.GetOr(p.params.bufferMaxDrawBps));
    p.params := p.params.(maxSupplyVsCapacityBps := u.maxSupplyVsCapacityBps.GetOr(p.params.maxSupplyVsCapacityBps));
    p.params := p.params.(venueFlags := u.venueFlags.GetOr(p.params.venueFlags));
  }

  method HandleSetPaused(p: Program, signer: Key, mintPaused: bool, redeemPaused: bool) returns (r: Result<()>)
    modifies p
    ensures Realizes(r, p.View(), SetPausedSpec(old(p.View()), signer, mintPaused, redeemPaused))
  {
    var isAuthority := signer == p.authority;
    :- Require(isAuthority || signer == p.guardian, Unauthorized);
    if !isAuthority {
      :- Require((mintPaused || !p.gates.mintPaused) && (redeemPaused || !p.gates.redeemPaused), GuardianCannotUnpause);
    }
    if !mintPaused || !redeemPaused {
      :- Require(p.gates.vaultFlags == VAULT_FLAGS_ALL, VaultsNotReady);
    }
    p.gates := p.gates.(mintPaused := mintPaused);
    p.gates := p.gates.(redeemPaused := redeemPaused);
    return Ok(());
  }

  method HandleInitVaults(p: Program, signer: Key, group: VaultGroup) returns (r: Result<()>)
    modifies p
    ensures Realizes(r, p.View(), InitVaultsSpec(old(p.View()), signer, group))
  {
    if signer != p.authority {
      return Err(Unauthorized);
    }
    var flags :- MarkVaults(p.gates.vaultFlags, group);
    p.gates := p.gates.(vaultFlags := flags);
    return Ok(());
  }

  method HandleReportVenueState(p: Program, env: Env, signer: Key, venueId: u8, netCarryBps: i32, capacity: u64)
    returns (r: Result<()>)
    modifies p
    ensures Realizes(r, p.View(), ReportVenueStateSpec(old(p.View()), env, signer, venueId, netCarryBps, capacity))
  {
    var reporter := ReporterGate(p.View(), signer);
    :- reporter;
    :- Require(VenueEnabled(p.params.venueFlags, venueId), VenueNotEnabled);
    :- Require(Abs(netCarryBps) <= CARRY_BPS_LIMIT, CarryOutOfRange);
    :- Require(env.now >= p.venue.stateAt, VenueStateNotMonotonic);
    p.venue := p.venue.(lastVenueId := venueId, netCarryBps := netCarryBps);
    p.venue := p.venue.(capacity := Min(capacity, p.params.maxReportableCapacity));
    p.venue := p.venue.(stateAt := env.now);
    if netCarryBps < 0 {
      if p.venue.negativeSince == 0 {
        p.venue := p.venue.(negativeSince := env.now);
      }
    } else {
      p.venue := p.venue.(negativeSince := 0);
    }
    return Ok(());
  }
}
