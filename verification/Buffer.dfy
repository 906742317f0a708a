/** The insurance buffer: permissionless deposits, and draws that can only go to the funding vault. */
module Buffer {
  import opened Checked
  import opened FixedPoint
  import opened TokenLedger
  import opened Accounts
  import opened Oracle
  import opened Funding

  // ---------------------------------------------------------------- specification

  function BufferDepositSpec(s: State, depositor: Key, amount: u64): Result<State> {
    var c := s.config;
    :- Require(amount > 0, ZeroAmount);
    var synthetic :- Transfer(s.tokens.synthetic, User(depositor), BufferVault, amount);
    var buffer :- AddU64(c.pool.buffer, amount);
    Ok(s.(tokens := s.tokens.(synthetic := synthetic), config := c.(pool := c.pool.(buffer := buffer))))
  }

  /** The negative-funding regime must exist and have lasted long enough. */
  function RegimeGate(c: Config, now: i64): Result<()> {
    if c.venue.negativeSince == 0 then Err(BufferLocked) else
    var inRegime :- SubI64(now, c.venue.negativeSince);
    :- Require(inRegime >= c.params.bufferUnlockDelaySec, BufferLocked);
    Ok(())
  }

  function BufferWithdrawSpec(s: State, env: Env, signer: Key, amount: u64): Result<State> {
    var c := s.config;
    :- Require(signer == c.authority, Unauthorized);
    :- Require(amount > 0, ZeroAmount);
    :- Require(amount <= c.pool.buffer, InsufficientBuffer);
    :- Require(c.pool.totalStaked > 0, NoStakers);
    var _ :- RegimeGate(c, env.now);
    var drawCap :- MulBpsFloor(c.pool.buffer, c.params.bufferMaxDrawBps);
    :- Require(amount <= drawCap, BufferDrawCapExceeded);
    var synthetic :- Transfer(s.tokens.synthetic, BufferVault, FundingVault, amount);
    var pool :- CreditStakers(c.pool.(buffer := c.pool.buffer - amount), amount);
    Ok(s.(tokens := s.tokens.(synthetic := synthetic), config := c.(pool := pool)))
  }

  datatype BufferCall =
    | BufferDeposit(depositor: Key, amount: u64)
    | BufferWithdraw(signer: Key, amount: u64)

  function BufferStep(s: State, env: Env, c: BufferCall): Result<State> {
    match c
    case BufferDeposit(depositor, amount) => BufferDepositSpec(s, depositor, amount)
    case BufferWithdraw(signer, amount) => BufferWithdrawSpec(s, env, signer, amount)
  }

  // ---------------------------------------------------------------- handlers

  method HandleBufferDeposit(p: Program, depositor: Key, amount: u64) returns (r: Result<()>)
    modifies p
    ensures Realizes(r, p.View(), BufferDepositSpec(old(p.View()), depositor, amount))
  {
    if amount == 0 {
      return Err(ZeroAmount);
    }
    var synthetic :- Transfer(p.tokens.synthetic, User(depositor), BufferVault, amount);
    p.tokens := p.tokens.(synthetic := synthetic);
    var buffer :- AddU64(p.pool.buffer, amount);
    p.pool := p.pool.(buffer := buffer);
    return Ok(());
  }

  method HandleBufferWithdraw(p: Program, env: Env, signer: Key, amount: u64) returns (r: Result<()>)
    modifies p
    ensures Realizes(r, p.View(), BufferWithdrawSpec(old(p.View()), env, signer, amount))
  {
    if signer != p.authority {
      return Err(Unauthorized);
    }
    :- Require(amount > 0, ZeroAmount);
    :- Require(amount <= p.pool.buffer, InsufficientBuffer);
    :- Require(p.pool.totalStaked > 0, NoStakers);
    var _ :- RegimeGate(p.Configuration(), env.now);
    var drawCap :- MulBpsFloor(p.pool.buffer, p.params.bufferMaxDrawBps);
    :- Require(amount <= drawCap, BufferDrawCapExceeded);
    var synthetic :- Transfer(p.tokens.synthetic, BufferVault, FundingVault, amount);
    p.tokens := p.tokens.(synthetic := synthetic);
    p.pool := p.pool.(buffer := p.pool.buffer - amount);
    var _ :- PayStakers(p, amount);
    return Ok(());
  }
}
