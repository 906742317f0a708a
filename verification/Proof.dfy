/** The rebalance proof: recomputed delta, gapless sequence, hash chain. */
module Proof {
  import opened Checked
  import opened FixedPoint
  import opened Accounts
  import opened Oracle
  import opened Mint
  import opened Encoding

  const DELTA_BPS_LIMIT: int := 1_000_000

  /** SHA-256 is left abstract: any function from byte strings to digests. */
  type Digest = seq<u8> -> Bytes32

  // ---------------------------------------------------------------- pure checks

  /** The book at the program's own valuation; one worth nothing is refused. */
  function ProvenNotional(c: Config, price: PriceUpdate): Result<u64> {
    var notional :- BookNotional(c, c.book.totalCollateral, price);
    :- Require(notional > 0, ZeroAmount);
    Ok(notional)
  }

  /** The keeper's valuation must agree with the program's to within the slippage tolerance. */
  function CollateralClaimGate(notional: u64, claim: u64, slippageBps: u16): Result<()> {
    var tolerance :- MulBpsCeil(notional, slippageBps);
    :- Require(Abs(claim - notional) <= tolerance, ProofCollateralMismatch);
    Ok(())
  }

  /** The program's own delta, inside the exit band and close to the keeper's claim. */
  function ProvenDelta(notional: u64, hedged: u64, claim: i32, exitBps: u16): Result<i32> {
    var delta :- DeltaBps(notional, hedged);
    :- Require(Abs(delta) <= exitBps, DeltaThresholdExceeded);
    :- Require(Abs(claim - delta) <= exitBps, ProofDeltaMismatch);
    Ok(delta)
  }

  /** The hashed fields of a stored proof. */
  function LinkOf(config: Key, r: RebalanceProof): Link {
    Link(r.prevHash, config, r.sequence, r.slot, r.oraclePrice, r.oracleConf, r.oracleExpo,
         r.oraclePublishTime, r.collateralNotional, r.hedgedNotional, r.deltaBefore, r.deltaAfter,
         r.venueId, r.venuesHash, r.keeper)
  }

  /** What a keeper submits. */
  datatype Claim = Claim(
    sequence: u64, venuesHash: Bytes32, venueId: u8, deltaBefore: i32, deltaAfter: i32,
    hedgedNotional: u64, collateralNotional: u64)

  // ---------------------------------------------------------------- specification

  function CommitProofSpec(hash: Digest, s: State, env: Env, keeper: Key, claim: Claim): Result<State> {
    var c := s.config;
    :- Require(claim.sequence !in s.proofs, AccountInUse);
    :- KeeperGate(s.keepers, keeper, c.params.minKeeperBond);
    :- Require(claim.venuesHash != ZERO_HASH, EmptyProofHash);
    :- Require(VenueEnabled(c.params.venueFlags, claim.venueId), VenueNotEnabled);
    :- Require(claim.sequence == c.chain.rebalanceCount, ProofSequenceMismatch);
    :- Require(claim.collateralNotional > 0, ZeroAmount);
    :- Require(Abs(claim.deltaBefore) <= DELTA_BPS_LIMIT && Abs(claim.deltaAfter) <= DELTA_BPS_LIMIT, DeltaOutOfRange);
    :- Require(env.slot > c.chain.lastProofSlot, ProofSlotNotMonotonic);
    var price :- LoadPrice(env, c.params);
    var notional :- ProvenNotional(c, price);
    var _ :- CollateralClaimGate(notional, claim.collateralNotional, c.params.maxHedgeSlippageBps);
    var delta :- ProvenDelta(notional, claim.hedgedNotional, claim.deltaAfter, c.params.deltaExitBps);
    var draft := RebalanceProof(
                   keeper, claim.venuesHash, c.chain.lastProofHash, ZERO_HASH, claim.sequence,
                   claim.hedgedNotional, notional, price.publishTime, price.postedSlot, env.slot, env.now,
                   price.price, price.conf, claim.deltaBefore, delta, price.expo, claim.venueId);
    var record := draft.(thisHash := hash(Preimage(LinkOf(c.key, draft))));
    var committed :- AddU64(s.keepers[keeper].proofsCommitted, 1);
    var count :- AddU64(c.chain.rebalanceCount, 1);
    Ok(s.(proofs := s.proofs[claim.sequence := record],
       keepers := s.keepers[keeper := s.keepers[keeper].(proofsCommitted := committed,
       lastProofAt := env.now, lastProofSlot := env.slot)],
       config := c.(chain := Chain(count, env.slot, record.thisHash),
       book := c.book.(hedgedNotional := claim.hedgedNotional))))
  }

  // ---------------------------------------------------------------- handler

  method HandleCommitProof(hash: Digest, p: Program, env: Env, keeper: Key, claim: Claim) returns (r: Result<()>)
    modifies p
    ensures Realizes(r, p.View(), CommitProofSpec(hash, old(p.View()), env, keeper, claim))
  {
    if claim.sequence in p.proofs {
      return Err(AccountInUse);
    }
    :- KeeperGate(p.keepers, keeper, p.params.minKeeperBond);
    :- Require(claim.venuesHash != ZERO_HASH, EmptyProofHash);
    :- Require(VenueEnabled(p.params.venueFlags, claim.venueId), VenueNotEnabled);
    :- Require(claim.sequence == p.chain.rebalanceCount, ProofSequenceMismatch);
    :- Require(claim.collateralNotional > 0, ZeroAmount);
    :- Require(Abs(claim.deltaBefore) <= DELTA_BPS_LIMIT && Abs(claim.deltaAfter) <= DELTA_BPS_LIMIT, DeltaOutOfRange);
    :- Require(env.slot > p.chain.lastProofSlot, ProofSlotNotMonotonic);
    var price :- LoadPrice(env, p.params);
    var notional :- ProvenNotional(p.Configuration(), price);
    var _ :- CollateralClaimGate(notional, claim.collateralNotional, p.params.maxHedgeSlippageBps);
    var delta :- ProvenDelta(notional, claim.hedgedNotional, claim.deltaAfter, p.params.deltaExitBps);
    var record := RebalanceProof(
      keeper, claim.venuesHash, p.chain.lastProofHash, ZERO_HASH, claim.sequence,
      claim.hedgedNotional, notional, price.publishTime, price.postedSlot, env.slot, env.now,
      price.price, price.conf, claim.deltaBefore, delta, price.expo, claim.venueId);
    record := record.(thisHash := hash(Preimage(LinkOf(p.key, record))));
    p.proofs := p.proofs[claim.sequence := record];
    var committed :- AddU64(p.keepers[keeper].proofsCommitted, 1);
    p.keepers := p.keepers[keeper := p.keepers[keeper].(
      proofsCommitted := committed, lastProofAt := env.now, lastProofSlot := env.slot)];
    var count :- AddU64(p.chain.rebalanceCount, 1);
    p.chain := p.chain.(rebalanceCount := count);
    p.chain := p.chain.(lastProofSlot := env.slot, lastProofHash := record.thisHash);
    p.book := p.book.(hedgedNotional := claim.hedgedNotional);
    return Ok(());
  }
}
