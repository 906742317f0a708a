/** What each group of instructions cannot touch. */
module Frames {
  import opened Checked
  import opened TokenLedger
  import opened Accounts
  import opened Oracle
  import opened Funding
  import opened Buffer
  import opened Mint
  import opened Redeem
  import opened Proof
  import opened Keepers
  import opened Admin
  import opened Protocol

  lemma FundingFrame(s: State, env: Env, c: FundingCall, t: State)
    requires FundingStep(s, env, c) == Ok(t)
    ensures t == s.(positions := t.positions, tokens := s.tokens.(synthetic := t.tokens.synthetic),
                 config := s.config.(pool := t.config.pool))
  {
  }

  lemma BufferFrame(s: State, env: Env, c: BufferCall, t: State)
    requires BufferStep(s, env, c) == Ok(t)
    ensures t == s.(tokens := s.tokens.(synthetic := t.tokens.synthetic), config := s.config.(pool := t.config.pool))
  {
  }

  lemma MintFrame(s: State, env: Env, c: MintCall, t: State)
    requires MintStep(s, env, c) == Ok(t)
    ensures t == s.(tokens := t.tokens.(bond := s.tokens.bond), mints := t.mints,
                 config := s.config.(book := t.config.book))
    ensures !c.ConfirmMint? ==>
              t.config.book == s.config.book.(pendingCollateral := t.config.book.pendingCollateral)
  {
  }

  lemma RedeemFrame(s: State, env: Env, c: RedeemCall, t: State)
    requires RedeemStep(s, env, c) == Ok(t)
    ensures t == s.(tokens := t.tokens.(bond := s.tokens.bond), redeems := t.redeems,
                 config := s.config.(book := t.config.book))
    ensures !c.ConfirmRedeem? ==> t.config.book == s.config.book.(pendingRedeem := t.config.book.pendingRedeem)
  {
  }

  lemma CommitFrame(hash: Digest, s: State, env: Env, keeper: Key, claim: Claim, t: State)
    requires CommitProofSpec(hash, s, env, keeper, claim) == Ok(t)
    ensures t == s.(proofs := t.proofs, keepers := t.keepers,
                 config := s.config.(chain := t.config.chain,
                 book := s.config.book.(hedgedNotional := claim.hedgedNotional)))
  {
  }

  lemma KeeperFrame(s: State, env: Env, c: KeeperCall, t: State)
    requires KeeperStep(s, env, c) == Ok(t)
    ensures t == s.(tokens := s.tokens.(bond := t.tokens.bond), keepers := t.keepers,
                 config := s.config.(bonds := t.config.bonds))
  {
  }

  lemma AdminFrame(s: State, env: Env, c: AdminCall, t: State)
    requires AdminStep(s, env, c) == Ok(t)
    ensures t == s.(config := s.config.(params := t.config.params, gates := t.config.gates, venue := t.config.venue))
    ensures !c.SetParams? ==> t.config.params == s.config.params
    ensures !c.ReportVenueState? ==> t.config.venue == s.config.venue
  {
  }

  lemma SendFrame(s: State, from: Key, to: Holder, kind: MintKind, amount: u64, t: State)
    requires TokenTransferSpec(s, from, to, kind, amount) == Ok(t)
    ensures t == s.(tokens := t.tokens.(syntheticSupply := s.tokens.syntheticSupply))
  {
  }

  /** The identity of the config never changes, and neither does anything outside the caller's group. */
  ghost predicate Framed(s: State, c: Call, t: State) {
    && t.config.key == s.config.key && t.config.authority == s.config.authority
    && t.config.collateralDecimals == s.config.collateralDecimals
    && t.config.syntheticDecimals == s.config.syntheticDecimals
    && (!c.Fund? ==> t.positions == s.positions)
    && (!c.Fund? && !c.Reserve? ==> t.config.pool == s.config.pool)
    && (!c.Issue? ==> t.mints == s.mints)
    && (!c.Exit? ==> t.redeems == s.redeems)
    && (!c.Commit? ==> t.proofs == s.proofs && t.config.chain == s.config.chain)
    && (!c.Commit? && !c.Bonding? ==> t.keepers == s.keepers)
    && (!c.Bonding? ==> t.config.bonds == s.config.bonds)
    && (!c.Govern? ==> && t.config.params == s.config.params && t.config.venue == s.config.venue
                       && t.config.gates == s.config.gates)
    && (!c.Issue? && !c.Exit? && !c.Commit? ==> t.config.book == s.config.book)
    && (!c.Issue? && !c.Exit? ==> t.tokens.syntheticSupply == s.tokens.syntheticSupply)
    && (c.Commit? ==> t.config.book == s.config.book.(hedgedNotional := t.config.book.hedgedNotional))
  }

  lemma MoneyFramed(hash: Digest, s: State, e: Entry, t: State)
    requires Step(hash, s, e) == Ok(t)
    requires e.call.Fund? || e.call.Reserve? || e.call.Issue? || e.call.Exit?
    ensures Framed(s, e.call, t)
  {
    if e.call.Fund? {
      FundingFrame(s, e.env, e.call.f, t);
    } else if e.call.Reserve? {
      BufferFrame(s, e.env, e.call.b, t);
    } else if e.call.Issue? {
      MintFrame(s, e.env, e.call.m, t);
    } else {
      RedeemFrame(s, e.env, e.call.r, t);
    }
  }

  lemma ControlFramed(hash: Digest, s: State, e: Entry, t: State)
    requires Step(hash, s, e) == Ok(t)
    requires e.call.Commit? || e.call.Bonding? || e.call.Govern? || e.call.Send?
    ensures Framed(s, e.call, t)
  {
    if e.call.Commit? {
      CommitFrame(hash, s, e.env, e.call.keeper, e.call.claim, t);
    } else if e.call.Bonding? {
      KeeperFrame(s, e.env, e.call.k, t);
    } else if e.call.Govern? {
      AdminFrame(s, e.env, e.call.a, t);
    } else {
      SendFrame(s, e.call.from, e.call.to, e.call.kind, e.call.amount, t);
    }
  }

  lemma StepFramed(hash: Digest, s: State, e: Entry, t: State)
    requires Step(hash, s, e) == Ok(t)
    ensures Framed(s, e.call, t)
  {
    if e.call.Fund? || e.call.Reserve? || e.call.Issue? || e.call.Exit? {
      MoneyFramed(hash, s, e, t);
    } else {
      ControlFramed(hash, s, e, t);
    }
  }
}
