/** Accounts as values, and the mutable account objects the handlers work on. */
module Accounts {
  import opened Checked
  import opened TokenLedger

  const MAX_DELTA_BAND_BPS: u16 := 2_000
  const MAX_PRICE_AGE_SEC_LIMIT: u32 := 3_600
  const MAX_FEE_BPS: u16 := 500
  const MIN_COLLATERAL_RATIO_BPS: u16 := 10_000
  const MAX_COLLATERAL_RATIO_BPS: u16 := 50_000
  const MAX_MINT_DECIMALS: u8 := 9
  const SLASH_REASON_MIN: u8 := 1
  const SLASH_REASON_MAX: u8 := 5
  const VAULT_FLAGS_ALL: bv8 := 0x0F
  const VENUE_FLAGS_MASK: bv8 := 0x1E

  datatype VaultGroup = CollateralGroup | BondGroup | FundingGroup | StakeGroup

  function VaultFlag(g: VaultGroup): bv8 {
    match g
    case CollateralGroup => 1
    case BondGroup => 2
    case FundingGroup => 4
    case StakeGroup => 8
  }

  /** Bit n of a flag word enables venue id n; 0 and every id above 4 map to no bit. */
  function VenueBit(venueId: u8): bv8 {
    if venueId == 1 then 2 else if venueId == 2 then 4 else if venueId == 3 then 8 else if venueId == 4 then 16 else 0
  }

  predicate VenueEnabled(flags: bv8, venueId: u8) {
    VenueBit(venueId) != 0 && flags & VenueBit(venueId) != 0
  }

  /** Everything `set_params` may change. */
  datatype Params = Params(
    maxPriceAgeSec: u32, requestTtlSec: u32, minSettlementDelaySec: u32,
    unbondCooldownSec: u32, bufferUnlockDelaySec: u32, unstakeCooldownSec: u32,
    maxVenueStateAgeSec: u32, minKeeperBond: u64, maxSyntheticSupply: u64,
    maxReportableCapacity: u64, minNetCarryBps: i32, maxConfBps: u16,
    collateralRatioBps: u16, mintFeeBps: u16, redeemFeeBps: u16,
    deltaBandBps: u16, deltaExitBps: u16, deltaHardBps: u16,
    maxHedgeSlippageBps: u16, bufferShareBps: u16, bufferMaxDrawBps: u16,
    maxSupplyVsCapacityBps: u16, venueFlags: bv8)

  /** Collateral, supply and the attested hedge. */
  datatype Book = Book(
    totalCollateral: u64, pendingCollateral: u64, totalSynthetic: u64, pendingRedeem: u64, hedgedNotional: u64)

  /** Staking index and the two funding balances. */
  datatype Pool = Pool(acc: u128, totalStaked: u64, stakerFunding: u64, buffer: u64, lastSettleAt: i64)

  /** Keeper bond totals. */
  datatype Bonds = Bonds(bondedTotal: u64, slashedTotal: u64, keeperCount: u32)

  /** Head of the rebalance proof chain. */
  datatype Chain = Chain(rebalanceCount: u64, lastProofSlot: u64, lastProofHash: Bytes32)

  /** Last venue report and the negative-funding clock. */
  datatype Venue = Venue(stateAt: i64, capacity: u64, netCarryBps: i32, negativeSince: i64, lastVenueId: u8)

  /** Pause switches and created vault groups. */
  datatype Gates = Gates(mintPaused: bool, redeemPaused: bool, vaultFlags: bv8)

  datatype Config = Config(
    key: Key, authority: Key, guardian: Key, collateralDecimals: u8, syntheticDecimals: u8,
    params: Params, book: Book, pool: Pool, bonds: Bonds, chain: Chain, venue: Venue, gates: Gates)

  datatype Position = Position(
    amount: u64, rewardDebt: u128, unclaimed: u64, claimedTotal: u64,
    pendingUnstake: u64, cooldownEnd: i64, lastUpdate: i64)

  const FRESH_POSITION: Position := Position(0, 0, 0, 0, 0, 0, 0)

  datatype Keeper = Keeper(
    bonded: u64, slashed: u64, proofsCommitted: u64, registeredAt: i64,
    lastProofAt: i64, lastProofSlot: u64, lastBondAt: i64, active: bool)

  datatype MintRequest = MintRequest(
    collateralAmount: u64, quotedNotional: u64, minSyntheticOut: u64, quotedPrice: i64,
    createdAt: i64, deadline: i64, quotedSlot: u64, quotedExpo: i32)

  datatype RedeemRequest = RedeemRequest(
    syntheticAmount: u64, quotedCollateral: u64, minCollateralOut: u64, quotedPrice: i64,
    createdAt: i64, deadline: i64, quotedSlot: u64, quotedExpo: i32)

  datatype RebalanceProof = RebalanceProof(
    keeper: Key, venuesHash: Bytes32, prevHash: Bytes32, thisHash: Bytes32,
    sequence: u64, hedgedNotional: u64, collateralNotional: u64, oraclePublishTime: i64,
    oraclePostedSlot: u64, slot: u64, timestamp: i64, oraclePrice: i64, oracleConf: u64,
    deltaBefore: i32, deltaAfter: i32, oracleExpo: i32, venueId: u8)

  /** A request account is addressed by its owner and nonce. */
  datatype RequestId = RequestId(user: Key, nonce: u64)

  datatype State = State(
    config: Config,
    tokens: Tokens,
    positions: map<Key, Position>,
    keepers: map<Key, Keeper>,
    mints: map<RequestId, MintRequest>,
    redeems: map<RequestId, RedeemRequest>,
    proofs: map<u64, RebalanceProof>)

  /** A handler run reports what its specification reports and, when it succeeds, leaves the
      specified state behind. */
  predicate Realizes(r: Result<()>, after: State, spec: Result<State>) {
    && r == Verdict(spec)
    && (spec.Ok? ==> after == spec.value)
  }

  /** The config account, the token accounts and every other account, as the running program
      holds them. A handler assigns these fields step by step. */
  class Program {
    const key: Key
    const authority: Key
    const guardian: Key
    const collateralDecimals: u8
    const syntheticDecimals: u8
    var params: Params
    var book: Book
    var pool: Pool
    var bonds: Bonds
    var chain: Chain
    var venue: Venue
    var gates: Gates
    var tokens: Tokens
    var positions: map<Key, Position>
    var keepers: map<Key, Keeper>
    var mints: map<RequestId, MintRequest>
    var redeems: map<RequestId, RedeemRequest>
    var proofs: map<u64, RebalanceProof>

    function Configuration(): Config
      reads this
    {
      Config(key, authority, guardian, collateralDecimals, syntheticDecimals,
             params, book, pool, bonds, chain, venue, gates)
    }

    function View(): State
      reads this
    {
      State(Configuration(), tokens, positions, keepers, mints, redeems, proofs)
    }

    constructor (s: State)
      ensures View() == s
    {
      var c := s.config;
      key, authority, guardian := c.key, c.authority, c.guardian;
      collateralDecimals, syntheticDecimals, params := c.collateralDecimals, c.syntheticDecimals, c.params;
      book, pool, bonds, chain, venue, gates := c.book, c.pool, c.bonds, c.chain, c.venue, c.gates;
      tokens, positions, keepers := s.tokens, s.positions, s.keepers;
      mints, redeems, proofs := s.mints, s.redeems, s.proofs;
    }
  }
}
