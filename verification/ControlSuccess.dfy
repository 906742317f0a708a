/** Keeper, proof and governing instructions: exactly when they go through, and what they leave, in plain arithmetic. */
module ControlSuccess {
  import opened Checked
  import opened FixedPoint
  import opened TokenLedger
  import opened Accounts
  import opened Oracle
  import opened MapSums
  import opened Protocol
  import opened Keepers
  import opened Proof
  import opened Admin
  import opened Rates
  import opened Ledger
  import opened FundingSuccess
  import opened MintSuccess
  import opened ProofHistory
  import Encoding
  import Governance
  import Hedge

  const U32_MAX: int := 0xFFFF_FFFF

  // ---------------------------------------------------------------- keepers

  /** The count after a keeper's bond becomes `bonded`. */
  function CountAfter(s: State, wasActive: bool, bonded: nat): int {
    var active := bonded >= s.config.params.minKeeperBond;
    s.config.bonds.keeperCount + (if active && !wasActive then 1 else if !active && wasActive then -1 else 0)
  }

  /** An active keeper is counted, so the decrement is exact. */
  lemma CountExactly(s: State, keeper: Key, bonded: nat, g: Gifts)
    requires BondPart(s, g) && keeper in s.keepers
    ensures var r := SetActiveSpec(s.config.bonds.keeperCount, s.keepers[keeper].active,
                                   bonded >= s.config.params.minKeeperBond);
            var count := CountAfter(s, s.keepers[keeper].active, bonded);
            (r.Ok? <==> count <= U32_MAX) && (r.Ok? ==> r.value == count)
  {
    SumAtLeast(s.keepers, keeper, ActiveOf);
  }

  /** What is bonded and slashed is in the vaults, and no keeper has more than all. */
  lemma BondInVault(s: State, keeper: Key, g: Gifts)
    requires BondPart(s, g)
    ensures ValueAt(s.keepers, keeper, BondedOf) <= s.config.bonds.bondedTotal <= Balance(s.tokens.bond, BondVault)
    ensures ValueAt(s.keepers, keeper, SlashedOf) <= s.config.bonds.slashedTotal
  {
    SumAtLeast(s.keepers, keeper, BondedOf);
    SumAtLeast(s.keepers, keeper, SlashedOf);
  }

  ghost predicate CanRegister(s: State, keeper: Key, amount: u64) {
    && keeper !in s.keepers && s.config.params.minKeeperBond <= amount <= Balance(s.tokens.bond, User(keeper))
    && s.config.bonds.bondedTotal + amount <= U64_MAX && s.config.bonds.keeperCount < U32_MAX
  }

  /** A bond change: the keeper's record, the totals, the count, and tokens moving from one holder to another. */
  ghost predicate Rebonded(
    s: State, keeper: Key, k: Keeper, bonded: int, slashed: int, count: int, from: Holder, to: Holder, amount: nat,
    t: State)
  {
    && t.config.bonds.bondedTotal == bonded && t.config.bonds.slashedTotal == slashed
    && t.config.bonds.keeperCount == count
    && t == s.(keepers := s.keepers[keeper := k], tokens := s.tokens.(bond := t.tokens.bond),
               config := s.config.(bonds := t.config.bonds))
    && Moves(s.tokens.bond, from, to, amount, t.tokens.bond)
  }

  ghost predicate Registered(s: State, env: Env, keeper: Key, amount: u64, t: State) {
    var bonds := s.config.bonds;
    Rebonded(s, keeper, Keeper(amount, 0, 0, env.now, 0, 0, env.now, true), bonds.bondedTotal + amount,
             bonds.slashedTotal, bonds.keeperCount + 1, User(keeper), BondVault, amount, t)
  }

  lemma RegisterExactly(s: State, env: Env, keeper: Key, amount: u64)
    ensures KeeperRegisterSpec(s, env, keeper, amount).Ok? <==> CanRegister(s, keeper, amount)
  {
  }

  lemma RegisterLeaves(s: State, env: Env, keeper: Key, amount: u64, t: State)
    requires KeeperRegisterSpec(s, env, keeper, amount) == Ok(t)
    ensures Registered(s, env, keeper, amount, t)
  {
    Transferred(s.tokens.bond, User(keeper), BondVault, amount, t.tokens.bond);
  }

  ghost predicate CanAddBond(s: State, keeper: Key, amount: u64) {
    && keeper in s.keepers && 0 < amount <= Balance(s.tokens.bond, User(keeper))
    && s.config.bonds.bondedTotal + amount <= U64_MAX
    && CountAfter(s, s.keepers[keeper].active, s.keepers[keeper].bonded + amount) <= U32_MAX
  }

  ghost predicate BondAdded(s: State, env: Env, keeper: Key, amount: u64, t: State) {
    && keeper in s.keepers && keeper in t.keepers
    && var k, bonds := s.keepers[keeper], s.config.bonds;
    && t.keepers[keeper].bonded == k.bonded + amount
    && t.keepers[keeper] == k.(bonded := t.keepers[keeper].bonded, lastBondAt := env.now,
                               active := k.bonded + amount >= s.config.params.minKeeperBond)
    && Rebonded(s, keeper, t.keepers[keeper], bonds.bondedTotal + amount, bonds.slashedTotal,
                CountAfter(s, k.active, k.bonded + amount), User(keeper), BondVault, amount, t)
  }

  lemma AddBondExactly(s: State, env: Env, keeper: Key, amount: u64, g: Gifts)
    requires BondPart(s, g)
    ensures KeeperBondSpec(s, env, keeper, amount).Ok? <==> CanAddBond(s, keeper, amount)
  {
    BondInVault(s, keeper, g);
    if keeper in s.keepers {
      CountExactly(s, keeper, s.keepers[keeper].bonded + amount, g);
    }
  }

  lemma AddBondLeaves(s: State, env: Env, keeper: Key, amount: u64, t: State, g: Gifts)
    requires BondPart(s, g) && KeeperBondSpec(s, env, keeper, amount) == Ok(t)
    ensures BondAdded(s, env, keeper, amount, t)
  {
    CountExactly(s, keeper, s.keepers[keeper].bonded + amount, g);
    Transferred(s.tokens.bond, User(keeper), BondVault, amount, t.tokens.bond);
  }

  ghost predicate CanUnbond(s: State, env: Env, keeper: Key, amount: u64) {
    && keeper in s.keepers
    && var k, p := s.keepers[keeper], s.config.params;
    && 0 < amount <= k.bonded
    && (k.lastProofAt > 0 ==> p.unbondCooldownSec <= env.now - k.lastProofAt)
    && (amount == k.bonded || p.minKeeperBond <= k.bonded - amount)
    && CountAfter(s, k.active, k.bonded - amount) <= U32_MAX
  }

  ghost predicate Unbonded(s: State, keeper: Key, amount: u64, t: State) {
    && keeper in s.keepers && keeper in t.keepers && amount <= s.keepers[keeper].bonded
    && var k, bonds := s.keepers[keeper], s.config.bonds;
    && t.keepers[keeper] == k.(bonded := k.bonded - amount,
                               active := k.bonded - amount >= s.config.params.minKeeperBond)
    && Rebonded(s, keeper, t.keepers[keeper], bonds.bondedTotal - amount, bonds.slashedTotal,
                CountAfter(s, k.active, k.bonded - amount), BondVault, User(keeper), amount, t)
  }

  lemma UnbondExactly(s: State, env: Env, keeper: Key, amount: u64, g: Gifts)
    requires BondPart(s, g)
    ensures KeeperUnbondSpec(s, env, keeper, amount).Ok? <==> CanUnbond(s, env, keeper, amount)
  {
    BondInVault(s, keeper, g);
    if keeper in s.keepers && amount <= s.keepers[keeper].bonded {
      CountExactly(s, keeper, s.keepers[keeper].bonded - amount, g);
    }
  }

  lemma UnbondLeaves(s: State, env: Env, keeper: Key, amount: u64, t: State, g: Gifts)
    requires BondPart(s, g) && KeeperUnbondSpec(s, env, keeper, amount) == Ok(t)
    ensures Unbonded(s, keeper, amount, t)
  {
    CountExactly(s, keeper, s.keepers[keeper].bonded - amount, g);
    Transferred(s.tokens.bond, BondVault, User(keeper), amount, t.tokens.bond);
  }

  ghost predicate CanSlash(s: State, signer: Key, keeper: Key, amount: u64, reason: u8, evidence: Bytes32) {
    && signer == s.config.authority && keeper in s.keepers && 0 < amount <= s.keepers[keeper].bonded
    && evidence != ZERO_HASH && 1 <= reason <= 5
    && s.config.bonds.slashedTotal + amount <= U64_MAX
    && CountAfter(s, s.keepers[keeper].active, s.keepers[keeper].bonded - amount) <= U32_MAX
  }

  ghost predicate Slashed(s: State, keeper: Key, amount: u64, t: State) {
    && keeper in s.keepers && keeper in t.keepers && amount <= s.keepers[keeper].bonded
    && var k, bonds := s.keepers[keeper], s.config.bonds;
    && t.keepers[keeper].slashed == k.slashed + amount
    && t.keepers[keeper] == k.(bonded := k.bonded - amount, slashed := t.keepers[keeper].slashed,
                               active := k.bonded - amount >= s.config.params.minKeeperBond)
    && Rebonded(s, keeper, t.keepers[keeper], bonds.bondedTotal - amount, bonds.slashedTotal + amount,
                CountAfter(s, k.active, k.bonded - amount), BondVault, SlashVault, amount, t)
  }

  lemma SlashExactly(
    s: State, signer: Key, keeper: Key, amount: u64, reason: u8, evidence: Bytes32, g: Gifts)
    requires BondPart(s, g)
    ensures KeeperSlashSpec(s, signer, keeper, amount, reason, evidence).Ok?
            <==> CanSlash(s, signer, keeper, amount, reason, evidence)
  {
    BondInVault(s, keeper, g);
    if keeper in s.keepers && amount <= s.keepers[keeper].bonded {
      CountExactly(s, keeper, s.keepers[keeper].bonded - amount, g);
    }
  }

  lemma SlashLeaves(
    s: State, signer: Key, keeper: Key, amount: u64, reason: u8, evidence: Bytes32, t: State, g: Gifts)
    requires BondPart(s, g) && KeeperSlashSpec(s, signer, keeper, amount, reason, evidence) == Ok(t)
    ensures Slashed(s, keeper, amount, t)
  {
    CountExactly(s, keeper, s.keepers[keeper].bonded - amount, g);
    Transferred(s.tokens.bond, BondVault, SlashVault, amount, t.tokens.bond);
  }

  // ---------------------------------------------------------------- rebalance proofs

  /** d is the deviation of the hedge in basis points of the book, rounded toward zero, positive when under-hedged. */
  predicate IsDelta(notional: nat, hedged: nat, d: int) {
    && notional * Abs(d) <= 10_000 * Abs(notional - hedged) < notional * (Abs(d) + 1)
    && (d > 0 ==> notional > hedged) && (d < 0 ==> notional < hedged)
  }

  lemma DeltaExactly(notional: u64, hedged: u64, d: int)
    requires notional > 0 && -0x8000_0000 <= d < 0x8000_0000
    ensures DeltaBps(notional, hedged) == Ok(d) <==> IsDelta(notional, hedged, d)
  {
    var gap := (notional - hedged) * BPS;
    Hedge.TruncDivAbs(gap, notional);
    Hedge.AbsScales(notional - hedged, BPS);
    var q := Abs(TruncDiv(gap, notional));
    assert notional * (q + 1) == notional * q + notional;
    SignOfDelta(notional, hedged);
    if IsDelta(notional, hedged, d) {
      OneQuotient(Abs(gap), notional, Abs(d), q);
    }
  }

  lemma SignOfDelta(notional: u64, hedged: u64)
    requires notional > 0
    ensures var q := TruncDiv((notional - hedged) * BPS, notional);
            (notional >= hedged ==> q >= 0) && (notional <= hedged ==> q <= 0)
  {
    QuotientFits(Abs((notional - hedged) * BPS), notional);
  }

  lemma OneQuotient(n: nat, d: nat, a: nat, b: nat)
    requires d > 0 && d * a <= n < d * (a + 1) && d * b <= n < d * (b + 1)
    ensures a == b
  {
    if a < b {
      ProductBound(d, a + 1, d, b);
    } else if b < a {
      ProductBound(d, b + 1, d, a);
    }
  }

  /** The program's own figures: the book's value, the claim within the tolerance, the deviation inside the exit
      band and near the claimed one. */
  ghost predicate ProofGood(c: Config, feed: PriceUpdate, claim: Claim)
    requires feed.price > 0
  {
    && Valued(c, feed, c.book.totalCollateral)
    && var notional := Value(c, feed, c.book.totalCollateral);
    && notional > 0
    && Abs(claim.collateralNotional - notional) * 10_000 < notional * c.params.maxHedgeSlippageBps + 10_000
    && exists d :: IsDelta(notional, claim.hedgedNotional, d) && Abs(d) <= c.params.deltaExitBps
                   && Abs(claim.deltaAfter - d) <= c.params.deltaExitBps
  }

  lemma ClaimGateExactly(notional: u64, claim: u64, slippageBps: u16)
    requires slippageBps <= 10_000
    ensures CollateralClaimGate(notional, claim, slippageBps).Ok?
            <==> Abs(claim - notional) * 10_000 < notional * slippageBps + 10_000
  {
    var exact := notional * slippageBps;
    ProductBound(notional, slippageBps, notional, BPS);
    CeilAtMost(exact, BPS, notional);
    QuotientFits(exact + (BPS - 1), BPS);
    CeilBound(exact, BPS, Abs(claim - notional));
  }

  lemma DeltaGateExactly(notional: u64, hedged: u64, claim: i32, exitBps: u16)
    requires notional > 0
    ensures ProvenDelta(notional, hedged, claim, exitBps).Ok? <==>
              exists d :: IsDelta(notional, hedged, d) && Abs(d) <= exitBps && Abs(claim - d) <= exitBps
    ensures ProvenDelta(notional, hedged, claim, exitBps).Ok? ==>
              IsDelta(notional, hedged, ProvenDelta(notional, hedged, claim, exitBps).value)
  {
    var delta := DeltaBps(notional, hedged);
    if delta.Ok? {
      DeltaExactly(notional, hedged, delta.value);
    }
    forall d | IsDelta(notional, hedged, d) && Abs(d) <= exitBps
      ensures delta == Ok(d)
    {
      DeltaExactly(notional, hedged, d);
    }
  }

  ghost predicate CanCommit(s: State, env: Env, keeper: Key, claim: Claim) {
    var c := s.config;
    && MayAttest(s, keeper) && claim.venuesHash != ZERO_HASH && VenueOpen(c.params.venueFlags, claim.venueId)
    && claim.sequence == c.chain.rebalanceCount < U64_MAX
    && claim.collateralNotional > 0 && Abs(claim.deltaBefore) <= 1_000_000 && Abs(claim.deltaAfter) <= 1_000_000
    && env.slot > c.chain.lastProofSlot && Trusted(env, c.params) && ProofGood(c, env.feed, claim)
  }

  ghost predicate Committed(hash: Digest, s: State, env: Env, keeper: Key, claim: Claim, t: State) {
    var c, i := s.config, claim.sequence;
    && env.feed.price > 0 && i in t.proofs && t.proofs == s.proofs[i := t.proofs[i]]
    && var r := t.proofs[i];
    && r.keeper == keeper && r.venuesHash == claim.venuesHash && r.prevHash == c.chain.lastProofHash && r.sequence == i
    && r.thisHash == hash(Encoding.Preimage(LinkOf(c.key, r)))
    && r.hedgedNotional == claim.hedgedNotional && r.collateralNotional == Value(c, env.feed, c.book.totalCollateral)
    && r.oraclePublishTime == env.feed.publishTime && r.oraclePostedSlot == env.feed.postedSlot
    && r.slot == env.slot && r.timestamp == env.now
    && r.oraclePrice == env.feed.price && r.oracleConf == env.feed.conf && r.oracleExpo == env.feed.expo
    && r.deltaBefore == claim.deltaBefore && IsDelta(r.collateralNotional, r.hedgedNotional, r.deltaAfter)
    && r.venueId == claim.venueId
    && keeper in s.keepers && keeper in t.keepers
    && t.keepers[keeper].proofsCommitted == s.keepers[keeper].proofsCommitted + 1
    && t.keepers[keeper] == s.keepers[keeper].(proofsCommitted := t.keepers[keeper].proofsCommitted,
                                               lastProofAt := env.now, lastProofSlot := env.slot)
    && t.config.chain.rebalanceCount == c.chain.rebalanceCount + 1
    && t.config.chain.lastProofSlot == env.slot && t.config.chain.lastProofHash == r.thisHash
    && t == s.(proofs := t.proofs, keepers := s.keepers[keeper := t.keepers[keeper]],
               config := c.(chain := t.config.chain, book := c.book.(hedgedNotional := claim.hedgedNotional)))
  }

  /** The next number is free, and no keeper has committed more than all. */
  lemma NextIsFree(hash: Digest, s: State, keeper: Key)
    requires Chained(hash, s) && Counted(s)
    ensures s.config.chain.rebalanceCount !in s.proofs
    ensures ValueAt(s.keepers, keeper, CommittedOf) <= s.config.chain.rebalanceCount
  {
    SumAtLeast(s.keepers, keeper, CommittedOf);
  }

  /** The part of a commit that looks at the market. */
  lemma ProofGoodExactly(c: Config, feed: PriceUpdate, claim: Claim)
    requires Admin.ValidParams(c.params) && feed.price > 0
    ensures var notional := ProvenNotional(c, feed);
            notional.Ok?
            && CollateralClaimGate(notional.value, claim.collateralNotional, c.params.maxHedgeSlippageBps).Ok?
            && ProvenDelta(notional.value, claim.hedgedNotional, claim.deltaAfter, c.params.deltaExitBps).Ok?
            <==> ProofGood(c, feed, claim)
    ensures ProvenNotional(c, feed).Ok? ==> ProvenNotional(c, feed).value == Value(c, feed, c.book.totalCollateral) > 0
  {
    ValuedExactly(c, feed, c.book.totalCollateral);
    var notional := ProvenNotional(c, feed);
    if notional.Ok? {
      ClaimGateExactly(notional.value, claim.collateralNotional, c.params.maxHedgeSlippageBps);
      DeltaGateExactly(notional.value, claim.hedgedNotional, claim.deltaAfter, c.params.deltaExitBps);
    }
  }

  lemma CommitExactly(hash: Digest, s: State, env: Env, keeper: Key, claim: Claim)
    requires Admin.ValidParams(s.config.params) && Chained(hash, s) && Counted(s)
    ensures CommitProofSpec(hash, s, env, keeper, claim).Ok? <==> CanCommit(s, env, keeper, claim)
  {
    NextIsFree(hash, s, keeper);
    VenueOpenExactly(s.config.params.venueFlags, claim.venueId);
    LoadPriceExactly(env, s.config.params);
    if env.feed.price > 0 {
      ProofGoodExactly(s.config, env.feed, claim);
    }
  }

  lemma CommitLeaves(hash: Digest, s: State, env: Env, keeper: Key, claim: Claim, t: State)
    requires Admin.ValidParams(s.config.params) && CommitProofSpec(hash, s, env, keeper, claim) == Ok(t)
    ensures Committed(hash, s, env, keeper, claim, t)
  {
    LoadPriceExactly(env, s.config.params);
    ProofGoodExactly(s.config, env.feed, claim);
    var r := t.proofs[claim.sequence];
    DeltaGateExactly(r.collateralNotional, claim.hedgedNotional, claim.deltaAfter, s.config.params.deltaExitBps);
    CommitAppends(hash, s, env, keeper, claim, t);
  }

  // ---------------------------------------------------------------- governing instructions

  /** The documented bounds on a parameter set. */
  predicate Bounded(p: Params) {
    && 0 < p.deltaExitBps <= p.deltaBandBps <= p.deltaHardBps <= 2_000
    && 10_000 <= p.collateralRatioBps <= 50_000 && p.mintFeeBps <= 500 && p.redeemFeeBps <= 500
    && p.maxHedgeSlippageBps < 10_000 && p.bufferShareBps <= 10_000
    && 0 < p.bufferMaxDrawBps <= 10_000 && 0 < p.maxSupplyVsCapacityBps <= 10_000
    && 0 < p.maxConfBps < 10_000 && 0 < p.maxPriceAgeSec <= 3_600 && p.maxVenueStateAgeSec > 0
    && p.venueFlags != 0 && p.venueFlags & 0xE1 == 0
    && p.minKeeperBond > 0 && p.maxSyntheticSupply > 0 && p.requestTtlSec > 0
  }

  ghost predicate CanSetParams(s: State, signer: Key, u: UpdateParams) {
    && signer == s.config.authority
    && exists q :: Governance.UpdatedFieldwise(s.config.params, u, q) && Bounded(q)
  }

  ghost predicate ParamsSet(s: State, u: UpdateParams, t: State) {
    && Governance.UpdatedFieldwise(s.config.params, u, t.config.params)
    && t == s.(config := s.config.(params := t.config.params))
  }

  lemma SetParamsExactly(s: State, signer: Key, u: UpdateParams)
    ensures SetParamsSpec(s, signer, u).Ok? <==> CanSetParams(s, signer, u)
  {
    var q := Merge(s.config.params, u);
    Governance.ParamsBounded(q);
    Governance.MergeFaithful(s.config.params, u, q);
    forall x | Governance.UpdatedFieldwise(s.config.params, u, x)
      ensures x == q
    {
      Governance.MergeFaithful(s.config.params, u, x);
    }
  }

  lemma SetParamsLeaves(s: State, signer: Key, u: UpdateParams, t: State)
    requires SetParamsSpec(s, signer, u) == Ok(t)
    ensures ParamsSet(s, u, t)
  {
    Governance.MergeFaithful(s.config.params, u, t.config.params);
  }

  /** The authority sets what it likes, the guardian pauses only, and nothing opens before the vaults are there. */
  ghost predicate CanSetPaused(s: State, signer: Key, mint: bool, redeem: bool) {
    var gates := s.config.gates;
    && (signer == s.config.authority
        || (signer == s.config.guardian && (gates.mintPaused ==> mint) && (gates.redeemPaused ==> redeem)))
    && (!mint || !redeem ==> gates.vaultFlags == 15)
  }

  ghost predicate PausedSet(s: State, mint: bool, redeem: bool, t: State) {
    t == s.(config := s.config.(gates := Gates(mint, redeem, s.config.gates.vaultFlags)))
  }

  lemma SetPausedExactly(s: State, signer: Key, mint: bool, redeem: bool)
    ensures SetPausedSpec(s, signer, mint, redeem).Ok? <==> CanSetPaused(s, signer, mint, redeem)
    ensures SetPausedSpec(s, signer, mint, redeem).Ok? ==>
              PausedSet(s, mint, redeem, SetPausedSpec(s, signer, mint, redeem).value)
  {
  }

  /** The bit of a vault group. */
  function GroupBit(g: VaultGroup): bv8 {
    match g
    case CollateralGroup => 1
    case BondGroup => 2
    case FundingGroup => 4
    case StakeGroup => 8
  }

  ghost predicate CanInitVaults(s: State, signer: Key, g: VaultGroup) {
    signer == s.config.authority && s.config.gates.vaultFlags & GroupBit(g) == 0
  }

  ghost predicate VaultsCreated(s: State, g: VaultGroup, t: State) {
    t == s.(config := s.config.(gates := s.config.gates.(vaultFlags := s.config.gates.vaultFlags | GroupBit(g))))
  }

  lemma InitVaultsExactly(s: State, signer: Key, g: VaultGroup)
    ensures InitVaultsSpec(s, signer, g).Ok? <==> CanInitVaults(s, signer, g)
    ensures InitVaultsSpec(s, signer, g).Ok? ==> VaultsCreated(s, g, InitVaultsSpec(s, signer, g).value)
  {
    assert VaultFlag(g) == GroupBit(g);
  }

  ghost predicate CanReport(s: State, env: Env, signer: Key, venueId: u8, netCarryBps: i32) {
    && (signer == s.config.authority || MayAttest(s, signer))
    && VenueOpen(s.config.params.venueFlags, venueId) && Abs(netCarryBps) <= 1_000_000
    && env.now >= s.config.venue.stateAt
  }

  ghost predicate ReportStored(s: State, env: Env, venueId: u8, netCarryBps: i32, capacity: u64, t: State) {
    var before, now, ceiling := s.config.venue, t.config.venue, s.config.params.maxReportableCapacity;
    && now.stateAt == env.now && now.netCarryBps == netCarryBps && now.lastVenueId == venueId
    && now.capacity == (if capacity <= ceiling then capacity else ceiling)
    && now.negativeSince == (if netCarryBps >= 0 then 0 else if before.negativeSince == 0 then env.now
                              else before.negativeSince)
    && t == s.(config := s.config.(venue := now))
  }

  lemma ReportExactly(s: State, env: Env, signer: Key, venueId: u8, netCarryBps: i32, capacity: u64)
    ensures ReportVenueStateSpec(s, env, signer, venueId, netCarryBps, capacity).Ok?
            <==> CanReport(s, env, signer, venueId, netCarryBps)
    ensures var r := ReportVenueStateSpec(s, env, signer, venueId, netCarryBps, capacity);
            r.Ok? ==> ReportStored(s, env, venueId, netCarryBps, capacity, r.value)
  {
    VenueOpenExactly(s.config.params.venueFlags, venueId);
  }
}
