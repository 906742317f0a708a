/** What a successful mint or redeem instruction does, without the checks that let it through. */
module Effects {
  import opened Checked
  import opened TokenLedger
  import opened Accounts
  import opened Oracle
  import opened Mint
  import opened Redeem

  ghost predicate MintOpened(s: State, t: State, id: RequestId, r: MintRequest) {
    && id !in s.mints && t.mints == s.mints[id := r]
    && Transfer(s.tokens.collateral, User(id.user), CollateralVault, r.collateralAmount) == Ok(t.tokens.collateral)
    && t.tokens == s.tokens.(collateral := t.tokens.collateral)
    && t.config.book == s.config.book.(pendingCollateral := t.config.book.pendingCollateral)
    && t.config.book.pendingCollateral == s.config.book.pendingCollateral + r.collateralAmount
  }

  ghost predicate MintSettled(s: State, t: State, id: RequestId, net: nat) {
    && id in s.mints && t.mints == s.mints - {id}
    && t.tokens == s.tokens.(synthetic := Credit(s.tokens.synthetic, User(id.user), net),
                     syntheticSupply := s.tokens.syntheticSupply + net)
    && t.positions == s.positions && t.config.pool == s.config.pool
    && t.config.book.pendingRedeem == s.config.book.pendingRedeem
    && t.config.book.pendingCollateral == s.config.book.pendingCollateral - s.mints[id].collateralAmount
    && t.config.book.totalCollateral == s.config.book.totalCollateral + s.mints[id].collateralAmount
    && t.config.book.totalSynthetic == s.config.book.totalSynthetic + net
  }

  ghost predicate MintIssued(s: State, t: State, id: RequestId) {
    exists net: nat :: net > 0 && MintSettled(s, t, id, net)
  }

  ghost predicate MintReturned(s: State, t: State, id: RequestId) {
    && id in s.mints && t.mints == s.mints - {id}
    && Transfer(s.tokens.collateral, CollateralVault, User(id.user), s.mints[id].collateralAmount)
       == Ok(t.tokens.collateral)
    && t.tokens == s.tokens.(collateral := t.tokens.collateral)
    && t.config.book == s.config.book.(pendingCollateral := t.config.book.pendingCollateral)
    && t.config.book.pendingCollateral == s.config.book.pendingCollateral - s.mints[id].collateralAmount
  }

  ghost predicate MintEffected(s: State, c: MintCall, t: State) {
    var id := RequestId(c.user, c.nonce);
    match c
    case RequestMint(_, _, _, _) => id in t.mints && MintOpened(s, t, id, t.mints[id])
    case ConfirmMint(_, _, _, _, _, _) => MintIssued(s, t, id)
    case CancelMint(_, _) => MintReturned(s, t, id)
  }

  lemma MintEffect(s: State, env: Env, c: MintCall, t: State)
    requires MintStep(s, env, c) == Ok(t)
    ensures MintEffected(s, c, t)
  {
    match c
    case RequestMint(user, nonce, amount, minOut) => MintRequestEffect(s, env, user, nonce, amount, minOut, t);
    case ConfirmMint(_, _, _, _, _, _) =>
      var net := t.config.book.totalSynthetic - s.config.book.totalSynthetic;
      assert net > 0 && MintSettled(s, t, RequestId(c.user, c.nonce), net);
    case CancelMint(_, _) =>
  }

  lemma MintRequestEffect(s: State, env: Env, user: Key, nonce: u64, amount: u64, minOut: u64, t: State)
    requires MintRequestSpec(s, env, user, nonce, amount, minOut) == Ok(t)
    ensures var id := RequestId(user, nonce); id in t.mints && MintOpened(s, t, id, t.mints[id])
  {
  }

  ghost predicate RedeemOpened(s: State, t: State, id: RequestId, r: RedeemRequest) {
    && id !in s.redeems && t.redeems == s.redeems[id := r]
    && Transfer(s.tokens.synthetic, User(id.user), RedeemEscrow, r.syntheticAmount) == Ok(t.tokens.synthetic)
    && t.tokens == s.tokens.(synthetic := t.tokens.synthetic)
    && t.positions == s.positions && t.config.pool == s.config.pool
    && t.config.book == s.config.book.(pendingRedeem := t.config.book.pendingRedeem)
    && t.config.book.pendingRedeem == s.config.book.pendingRedeem + r.syntheticAmount <= s.config.book.totalSynthetic
  }

  ghost predicate RedeemSettled(s: State, t: State, id: RequestId, paid: nat) {
    && id in s.redeems && t.redeems == s.redeems - {id}
    && Debit(s.tokens.synthetic, RedeemEscrow, s.redeems[id].syntheticAmount) == Ok(t.tokens.synthetic)
    && Transfer(s.tokens.collateral, CollateralVault, User(id.user), paid) == Ok(t.tokens.collateral)
    && t.tokens.syntheticSupply == s.tokens.syntheticSupply - s.redeems[id].syntheticAmount
    && t.positions == s.positions && t.config.pool == s.config.pool && t.mints == s.mints
    && t.config.book.pendingCollateral == s.config.book.pendingCollateral
    && t.config.book.totalCollateral == s.config.book.totalCollateral - paid
    && t.config.book.pendingRedeem == s.config.book.pendingRedeem - s.redeems[id].syntheticAmount
    && t.config.book.totalSynthetic == s.config.book.totalSynthetic - s.redeems[id].syntheticAmount
  }

  ghost predicate RedeemPaid(s: State, t: State, id: RequestId) {
    exists paid: nat :: RedeemSettled(s, t, id, paid)
  }

  ghost predicate RedeemReturned(s: State, t: State, id: RequestId) {
    && id in s.redeems && t.redeems == s.redeems - {id}
    && Transfer(s.tokens.synthetic, RedeemEscrow, User(id.user), s.redeems[id].syntheticAmount)
       == Ok(t.tokens.synthetic)
    && t.tokens == s.tokens.(synthetic := t.tokens.synthetic)
    && t.positions == s.positions && t.config.pool == s.config.pool
    && t.config.book == s.config.book.(pendingRedeem := t.config.book.pendingRedeem)
    && t.config.book.pendingRedeem == s.config.book.pendingRedeem - s.redeems[id].syntheticAmount
  }

  ghost predicate RedeemEffected(s: State, c: RedeemCall, t: State) {
    var id := RequestId(c.user, c.nonce);
    match c
    case RequestRedeem(_, _, _, _) => id in t.redeems && RedeemOpened(s, t, id, t.redeems[id])
    case ConfirmRedeem(_, _, _, _, _) => RedeemPaid(s, t, id)
    case CancelRedeem(_, _) => RedeemReturned(s, t, id)
  }

  lemma RedeemEffect(s: State, env: Env, c: RedeemCall, t: State)
    requires RedeemStep(s, env, c) == Ok(t)
    ensures RedeemEffected(s, c, t)
  {
    if c.ConfirmRedeem? {
      var paid := s.config.book.totalCollateral - t.config.book.totalCollateral;
      assert RedeemSettled(s, t, RequestId(c.user, c.nonce), paid);
    }
  }
}
