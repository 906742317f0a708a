/** The chain of rebalance proofs: gapless, ordered, recomputed and tamper evident. */
module ProofHistory {
  import opened Checked
  import opened FixedPoint
  import opened Accounts
  import opened Oracle
  import opened MapSums
  import opened Encoding
  import opened Proof
  import opened Protocol
  import opened Frames
  import opened Keepers
  import opened Mint
  import opened Provenance
  import Admin
  import Hedge
  import Rates

  function CommittedOf(k: Keeper): int {
    k.proofsCommitted
  }

  function LinkAt(s: State, i: u64): Link
    requires i in s.proofs
  {
    LinkOf(s.config.key, s.proofs[i])
  }

  /** Proof i carries its own number and hash, and its predecessor's hash and an earlier slot. */
  ghost predicate Linked(hash: Digest, s: State, i: u64) {
    && i in s.proofs
    && s.proofs[i].sequence == i
    && s.proofs[i].thisHash == hash(Preimage(LinkAt(s, i)))
    && if i == 0 then s.proofs[i].prevHash == ZERO_HASH else
    && i - 1 in s.proofs
    && s.proofs[i].prevHash == s.proofs[i - 1].thisHash
    && s.proofs[i - 1].slot < s.proofs[i].slot
  }

  ghost predicate Chained(hash: Digest, s: State) {
    var chain := s.config.chain;
    && (forall i: u64 :: i in s.proofs ==> i < chain.rebalanceCount)
    && (forall i: u64 :: i < chain.rebalanceCount ==> Linked(hash, s, i))
    && (if chain.rebalanceCount == 0 then chain.lastProofHash == ZERO_HASH && chain.lastProofSlot == 0 else
        var last := chain.rebalanceCount - 1;
        && last in s.proofs
        && chain.lastProofHash == s.proofs[last].thisHash
        && chain.lastProofSlot == s.proofs[last].slot)
  }

  ghost predicate Counted(s: State) {
    Sum(s.keepers, CommittedOf) == s.config.chain.rebalanceCount
  }

  // ---------------------------------------------------------------- one commit

  /** The record a successful commit appends. */
  ghost predicate Appended(hash: Digest, s: State, t: State, r: RebalanceProof) {
    var i := s.config.chain.rebalanceCount;
    && i !in s.proofs && t.proofs == s.proofs[i := r] && t.config.key == s.config.key
    && r.sequence == i && r.prevHash == s.config.chain.lastProofHash
    && r.thisHash == hash(Preimage(LinkOf(s.config.key, r)))
    && r.slot > s.config.chain.lastProofSlot
    && i < U64_MAX && t.config.chain == Chain(i + 1, r.slot, r.thisHash)
  }

  lemma CommitAppends(hash: Digest, s: State, env: Env, keeper: Key, claim: Claim, t: State)
    requires CommitProofSpec(hash, s, env, keeper, claim) == Ok(t)
    ensures claim.sequence == s.config.chain.rebalanceCount
    ensures claim.sequence in t.proofs && Appended(hash, s, t, t.proofs[claim.sequence])
  {
    var i := claim.sequence;
    var r := t.proofs[i];
    var draft := r.(thisHash := ZERO_HASH);
    assert LinkOf(s.config.key, r) == LinkOf(s.config.key, draft);
  }

  lemma AppendedChained(hash: Digest, s: State, t: State, r: RebalanceProof)
    requires Chained(hash, s) && Appended(hash, s, t, r)
    ensures Chained(hash, t)
  {
    forall i: u64 | i < t.config.chain.rebalanceCount
      ensures Linked(hash, t, i)
    {
      if i < s.config.chain.rebalanceCount {
        assert Linked(hash, s, i);
      }
    }
  }

  lemma CommitAddsOne(hash: Digest, s: State, env: Env, keeper: Key, claim: Claim, t: State)
    requires CommitProofSpec(hash, s, env, keeper, claim) == Ok(t)
    ensures keeper in s.keepers && keeper in t.keepers && t.keepers == s.keepers[keeper := t.keepers[keeper]]
    ensures t.keepers[keeper].proofsCommitted == s.keepers[keeper].proofsCommitted + 1
    ensures t.config.chain.rebalanceCount == s.config.chain.rebalanceCount + 1
  {
  }

  lemma CommitCounted(hash: Digest, s: State, env: Env, keeper: Key, claim: Claim, t: State)
    requires Counted(s) && CommitProofSpec(hash, s, env, keeper, claim) == Ok(t)
    ensures Counted(t)
  {
    CommitAddsOne(hash, s, env, keeper, claim, t);
    SumUpdate(s.keepers, keeper, t.keepers[keeper], CommittedOf);
  }

  lemma BondingKeepsCounters(s: State, env: Env, c: KeeperCall, t: State)
    requires KeeperStep(s, env, c) == Ok(t)
    ensures c.keeper in t.keepers && t.keepers == s.keepers[c.keeper := t.keepers[c.keeper]]
    ensures t.keepers[c.keeper].proofsCommitted == ValueAt(s.keepers, c.keeper, CommittedOf)
    ensures t.config.chain == s.config.chain
  {
    match c
    case Register(_, _) =>
    case AddBond(_, _) =>
    case Unbond(_, _) =>
    case Slash(_, _, _, _, _) =>
  }

  lemma BondingCounted(s: State, env: Env, c: KeeperCall, t: State)
    requires Counted(s) && KeeperStep(s, env, c) == Ok(t)
    ensures Counted(t)
  {
    BondingKeepsCounters(s, env, c, t);
    SumUpdate(s.keepers, c.keeper, t.keepers[c.keeper], CommittedOf);
  }

  lemma StillChained(hash: Digest, s: State, t: State)
    requires Chained(hash, s)
    requires t.proofs == s.proofs && t.config.chain == s.config.chain && t.config.key == s.config.key
    ensures Chained(hash, t)
  {
    forall i: u64 | i < t.config.chain.rebalanceCount
      ensures Linked(hash, t, i)
    {
      assert Linked(hash, s, i);
    }
  }

  lemma StepChained(hash: Digest, s: State, e: Entry, t: State)
    requires Chained(hash, s) && Counted(s) && Step(hash, s, e) == Ok(t)
    ensures Chained(hash, t) && Counted(t)
  {
    if e.call.Commit? {
      CommitAppends(hash, s, e.env, e.call.keeper, e.call.claim, t);
      AppendedChained(hash, s, t, t.proofs[e.call.claim.sequence]);
      CommitCounted(hash, s, e.env, e.call.keeper, e.call.claim, t);
    } else {
      StepFramed(hash, s, e, t);
      StillChained(hash, s, t);
      if e.call.Bonding? {
        BondingCounted(s, e.env, e.call.k, t);
      }
    }
  }

  /** In every reachable state the proofs are numbered 0 to `rebalance_count` - 1 without a gap, each linked
      to its predecessor, and the keepers' counters add up to that number. */
  lemma {:induction false} ProofsChained(hash: Digest, s: State, run: seq<Entry>)
    requires Initial(s)
    ensures Chained(hash, Run(hash, s, run)) && Counted(Run(hash, s, run))
    decreases |run|
  {
    if run != [] {
      var prior, e := run[..|run| - 1], run[|run| - 1];
      ProofsChained(hash, s, prior);
      var before := Run(hash, s, prior);
      if Step(hash, before, e).Ok? {
        StepChained(hash, before, e, Step(hash, before, e).value);
      }
    }
  }

  /** Slots increase along the whole chain, not just from one proof to the next. */
  lemma {:induction false} SlotsIncrease(hash: Digest, s: State, i: u64, j: u64)
    requires Chained(hash, s) && i < j < s.config.chain.rebalanceCount
    ensures i in s.proofs && j in s.proofs && s.proofs[i].slot < s.proofs[j].slot
    decreases j - i
  {
    assert Linked(hash, s, j) && Linked(hash, s, i);
    if i + 1 < j {
      SlotsIncrease(hash, s, i, j - 1);
    }
  }

  // ---------------------------------------------------------------- where a record comes from

  /** The delta is the program's own, over the program's own valuation, inside the exit band of the moment. */
  ghost predicate Recomputed(before: State, env: Env, claim: Claim, r: RebalanceProof) {
    && BookNotional(before.config, before.config.book.totalCollateral, env.feed) == Ok(r.collateralNotional)
    && r.hedgedNotional == claim.hedgedNotional
    && DeltaBps(r.collateralNotional, r.hedgedNotional) == Ok(r.deltaAfter)
    && Hedge.WithinBand(r.collateralNotional, r.hedgedNotional, before.config.params.deltaExitBps)
    && Abs(claim.deltaAfter - r.deltaAfter) <= before.config.params.deltaExitBps
    && BPS * Abs(claim.collateralNotional - r.collateralNotional)
       <= before.config.params.maxHedgeSlippageBps * r.collateralNotional + 9_999
  }

  /** The other fields are copied from the price, the clock and the claim. */
  ghost predicate Copied(env: Env, claim: Claim, r: RebalanceProof) {
    && r.oraclePrice == env.feed.price && r.oracleConf == env.feed.conf && r.oracleExpo == env.feed.expo
    && r.oraclePublishTime == env.feed.publishTime && r.oraclePostedSlot == env.feed.postedSlot
    && r.slot == env.slot && r.timestamp == env.now && r.deltaBefore == claim.deltaBefore
    && r.venueId == claim.venueId && r.venuesHash == claim.venuesHash && r.sequence == claim.sequence
  }

  lemma CommitRecomputes(hash: Digest, s: State, env: Env, keeper: Key, claim: Claim, t: State)
    requires CommitProofSpec(hash, s, env, keeper, claim) == Ok(t)
    ensures claim.sequence in t.proofs && Recomputed(s, env, claim, t.proofs[claim.sequence])
  {
    assert LoadPrice(env, s.config.params) == Ok(env.feed);
    var r := t.proofs[claim.sequence];
    ClaimTolerated(r.collateralNotional, claim.collateralNotional, s.config.params.maxHedgeSlippageBps);
    Hedge.WithinBandExactly(r.collateralNotional, r.hedgedNotional, s.config.params.deltaExitBps);
  }

  lemma ClaimTolerated(notional: u64, claim: u64, slippageBps: u16)
    requires CollateralClaimGate(notional, claim, slippageBps).Ok?
    ensures BPS * Abs(claim - notional) <= slippageBps * notional + 9_999
  {
    Rates.DivBounds(notional * slippageBps + (BPS - 1), BPS);
  }

  lemma CommitCopies(hash: Digest, s: State, env: Env, keeper: Key, claim: Claim, t: State)
    requires CommitProofSpec(hash, s, env, keeper, claim) == Ok(t)
    ensures claim.sequence in t.proofs && Copied(env, claim, t.proofs[claim.sequence])
    ensures t.proofs[claim.sequence].keeper == keeper
    ensures t.config.book == s.config.book.(hedgedNotional := claim.hedgedNotional)
  {
  }

  ghost predicate RecordedAt(hash: Digest, s: State, run: seq<Entry>, j: nat, i: u64, r: RebalanceProof) {
    && Happened(hash, s, run, j)
    && run[j].call.Commit? && run[j].call.claim.sequence == i && r.keeper == run[j].call.keeper
    && Recomputed(Before(hash, s, run, j), run[j].env, run[j].call.claim, r) && Copied(run[j].env, run[j].call.claim, r)
  }

  ghost predicate Recorded(hash: Digest, s: State, run: seq<Entry>, i: u64, r: RebalanceProof) {
    exists j :: RecordedAt(hash, s, run, j, i, r)
  }

  lemma RecordedStill(hash: Digest, s: State, run: seq<Entry>, i: u64, r: RebalanceProof)
    requires run != [] && Recorded(hash, s, run[..|run| - 1], i, r)
    ensures Recorded(hash, s, run, i, r)
  {
    var j :| RecordedAt(hash, s, run[..|run| - 1], j, i, r);
    Extend(hash, s, run, j);
    assert RecordedAt(hash, s, run, j, i, r);
  }

  lemma StepRecords(hash: Digest, s: State, e: Entry, t: State, i: u64)
    requires Step(hash, s, e) == Ok(t) && i in t.proofs
    ensures (i in s.proofs && s.proofs[i] == t.proofs[i])
            || (&& e.call.Commit? && e.call.claim.sequence == i && t.proofs[i].keeper == e.call.keeper
                && Recomputed(s, e.env, e.call.claim, t.proofs[i]) && Copied(e.env, e.call.claim, t.proofs[i]))
  {
    StepFramed(hash, s, e, t);
    if e.call.Commit? {
      CommitAppends(hash, s, e.env, e.call.keeper, e.call.claim, t);
      CommitRecomputes(hash, s, e.env, e.call.keeper, e.call.claim, t);
      CommitCopies(hash, s, e.env, e.call.keeper, e.call.claim, t);
    }
  }

  /** Every stored proof was committed in the run with a delta recomputed against the book of that moment,
      inside the exit band of that moment. */
  lemma {:induction false} ProofsRecomputed(hash: Digest, s: State, run: seq<Entry>, i: u64)
    requires Initial(s) && i in Run(hash, s, run).proofs
    ensures Recorded(hash, s, run, i, Run(hash, s, run).proofs[i])
    decreases |run|
  {
    if run != [] {
      var prior, e, j := run[..|run| - 1], run[|run| - 1], |run| - 1;
      var before, after := Run(hash, s, prior), Run(hash, s, run);
      if Step(hash, before, e).Ok? {
        StepRecords(hash, before, e, after, i);
      }
      if i in before.proofs && before.proofs[i] == after.proofs[i] {
        ProofsRecomputed(hash, s, prior, i);
        RecordedStill(hash, s, run, i, after.proofs[i]);
      } else {
        assert RecordedAt(hash, s, run, j, i, after.proofs[i]);
      }
    }
  }

  /** Right after a proof the book is inside the hard band at the same price, because the bands are nested. */
  lemma CommitReopensIssuance(hash: Digest, s: State, env: Env, keeper: Key, claim: Claim, t: State)
    requires Admin.ValidParams(s.config.params)
    requires CommitProofSpec(hash, s, env, keeper, claim) == Ok(t)
    ensures HardBandGate(t.config, env.feed).Ok? && InsideHardBand(t.config, env.feed)
  {
    CommitFrame(hash, s, env, keeper, claim, t);
    CommitRecomputes(hash, s, env, keeper, claim, t);
    HardBandExactly(t.config, env.feed);
    var r, p := t.proofs[claim.sequence], s.config.params;
    Rates.ProductBound(p.deltaExitBps + 1, r.collateralNotional, p.deltaHardBps + 1, r.collateralNotional);
  }

  // ---------------------------------------------------------------- tamper evidence

  /** Two different preimages with the same digest. */
  ghost predicate Collision(hash: Digest, a: Link, b: Link) {
    Preimage(a) != Preimage(b) && hash(Preimage(a)) == hash(Preimage(b))
  }

  ghost predicate CollisionBelow(hash: Digest, s: State, t: State, n: u64) {
    exists i: u64 :: i < n && i in s.proofs && i in t.proofs && Collision(hash, LinkAt(s, i), LinkAt(t, i))
  }

  ghost predicate AgreeBelow(s: State, t: State, n: u64) {
    forall i: u64 :: i < n ==> i in s.proofs && i in t.proofs && LinkAt(s, i) == LinkAt(t, i)
  }

  lemma {:induction false} SameHeadSameHistory(hash: Digest, s: State, t: State, n: u64)
    requires Chained(hash, s) && Chained(hash, t)
    requires n <= s.config.chain.rebalanceCount && n <= t.config.chain.rebalanceCount
    requires n > 0 ==> n - 1 in s.proofs && n - 1 in t.proofs && s.proofs[n - 1].thisHash == t.proofs[n - 1].thisHash
    ensures AgreeBelow(s, t, n) || CollisionBelow(hash, s, t, n)
    decreases n
  {
    if n > 0 {
      var i := n - 1;
      assert Linked(hash, s, i) && Linked(hash, t, i);
      if LinkAt(s, i) == LinkAt(t, i) {
        SameHeadSameHistory(hash, s, t, i);
      } else {
        if Preimage(LinkAt(s, i)) == Preimage(LinkAt(t, i)) {
          PreimageInjective(LinkAt(s, i), LinkAt(t, i));
        }
        assert Collision(hash, LinkAt(s, i), LinkAt(t, i));
      }
    }
  }

  ghost predicate SameHead(s: State, t: State) {
    && s.config.chain.rebalanceCount == t.config.chain.rebalanceCount
    && s.config.chain.lastProofHash == t.config.chain.lastProofHash
  }

  ghost predicate AgreeOrCollide(hash: Digest, s: State, t: State) {
    var n := s.config.chain.rebalanceCount;
    AgreeBelow(s, t, n) || CollisionBelow(hash, s, t, n)
  }

  lemma SameHeadDecides(hash: Digest, s: State, t: State)
    requires Chained(hash, s) && Chained(hash, t) && SameHead(s, t)
    ensures AgreeOrCollide(hash, s, t)
  {
    SameHeadSameHistory(hash, s, t, s.config.chain.rebalanceCount);
  }

  /** Two runs that end with the same number of proofs and the same head hash agree on every hashed field of
      every proof, or exhibit a collision of the hash function. */
  lemma TamperEvident(hash: Digest, s: State, run: seq<Entry>, s': State, run': seq<Entry>)
    requires Initial(s) && Initial(s') && SameHead(Run(hash, s, run), Run(hash, s', run'))
    ensures AgreeOrCollide(hash, Run(hash, s, run), Run(hash, s', run'))
  {
    ProofsChained(hash, s, run);
    ProofsChained(hash, s', run');
    SameHeadDecides(hash, Run(hash, s, run), Run(hash, s', run'));
  }
}
