/** Revenue for stakers through one running index: settlements, stake changes and claims. */
module Funding {
  import opened Checked
  import opened FixedPoint
  import opened TokenLedger
  import opened Accounts
  import opened Oracle

  // ---------------------------------------------------------------- specification

  /** Bank the entitlement above the recorded debt, and record the new debt. */
  function AccrueSpec(p: Position, acc: u128): Result<Position> {
    var entitlement :- AccEntitlement(p.amount, acc);
    var pending :- SubU128(entitlement, p.rewardDebt);
    var earned :- ToU64(pending);
    var unclaimed :- AddU64(p.unclaimed, earned);
    Ok(p.(unclaimed := unclaimed, rewardDebt := entitlement))
  }

  function PositionOf(m: map<Key, Position>, owner: Key): Position {
    if owner in m then m[owner] else FRESH_POSITION
  }

  /** Raise the index and the stakers' balance by one inflow; an empty inflow does nothing. */
  function CreditStakers(pool: Pool, amount: u64): Result<Pool> {
    if amount == 0 then Ok(pool) else
    var increment :- AccIncrement(amount, pool.totalStaked);
    var acc :- AddU128(pool.acc, increment);
    var balance :- AddU64(pool.stakerFunding, amount);
    Ok(pool.(acc := acc, stakerFunding := balance))
  }

  /** The buffer's cut, rounded up; the whole settlement when nothing is staked. */
  function BufferShare(amount: u64, totalStaked: u64, shareBps: u16): Result<u64> {
    if totalStaked == 0 then Ok(amount) else MulBpsCeil(amount, shareBps)
  }

  /** The two transfers of a settlement; an empty leg is skipped. */
  function Distribute(b: Balances, from: Key, toBuffer: u64, toStakers: u64): Result<Balances> {
    var b1 :- if toBuffer > 0 then Transfer(b, User(from), BufferVault, toBuffer) else Ok(b);
    if toStakers > 0 then Transfer(b1, User(from), FundingVault, toStakers) else Ok(b1)
  }

  function SettleFundingSpec(s: State, env: Env, signer: Key, amount: u64): Result<State> {
    var c := s.config;
    :- Require(signer == c.authority, Unauthorized);
    var toBuffer :- BufferShare(amount, c.pool.totalStaked, c.params.bufferShareBps);
    var toStakers :- SubU64(amount, toBuffer);
    var synthetic :- Distribute(s.tokens.synthetic, signer, toBuffer, toStakers);
    var credited :- CreditStakers(c.pool, toStakers);
    var buffer :- AddU64(credited.buffer, toBuffer);
    Ok(s.(tokens := s.tokens.(synthetic := synthetic),
       config := c.(pool := credited.(buffer := buffer, lastSettleAt := env.now))))
  }

  function StakeSpec(s: State, env: Env, owner: Key, amount: u64): Result<State> {
    var c := s.config;
    :- Require(!c.gates.mintPaused, MintPaused);
    :- Require(c.gates.vaultFlags == VAULT_FLAGS_ALL, VaultsNotReady);
    :- Require(amount > 0, ZeroAmount);
    var accrued :- AccrueSpec(PositionOf(s.positions, owner), c.pool.acc);
    var synthetic :- Transfer(s.tokens.synthetic, User(owner), StakeVault, amount);
    var staked :- AddU64(accrued.amount, amount);
    var debt :- AccEntitlement(staked, c.pool.acc);
    var total :- AddU64(c.pool.totalStaked, amount);
    Ok(s.(tokens := s.tokens.(synthetic := synthetic),
       positions := s.positions[owner := accrued.(amount := staked, rewardDebt := debt, lastUpdate := env.now)],
       config := c.(pool := c.pool.(totalStaked := total))))
  }

  function RequestUnstakeSpec(s: State, env: Env, owner: Key, amount: u64): Result<State> {
    if owner !in s.positions then Err(AccountMissing) else
    var c, p := s.config, s.positions[owner];
    :- Require(amount > 0, ZeroAmount);
    :- Require(amount <= p.amount, InsufficientStake);
    var cooldownEnd :- AddI64(env.now, c.params.unstakeCooldownSec);
    var accrued :- AccrueSpec(p, c.pool.acc);
    var staked :- SubU64(accrued.amount, amount);
    var pending :- AddU64(accrued.pendingUnstake, amount);
    var debt :- AccEntitlement(staked, c.pool.acc);
    var total :- SubU64(c.pool.totalStaked, amount);
    Ok(s.(
       positions := s.positions[owner := accrued.(amount := staked, pendingUnstake := pending,
       cooldownEnd := cooldownEnd, rewardDebt := debt, lastUpdate := env.now)],
       config := c.(pool := c.pool.(totalStaked := total))))
  }

  function UnstakeSpec(s: State, env: Env, owner: Key): Result<State> {
    if owner !in s.positions then Err(AccountMissing) else
    var p := s.positions[owner];
    :- Require(p.pendingUnstake > 0, NoPendingUnstake);
    :- Require(env.now >= p.cooldownEnd, UnstakeCooldownActive);
    var synthetic :- Transfer(s.tokens.synthetic, StakeVault, User(owner), p.pendingUnstake);
    Ok(s.(tokens := s.tokens.(synthetic := synthetic),
       positions := s.positions[owner := p.(pendingUnstake := 0, cooldownEnd := 0, lastUpdate := env.now)]))
  }

  function ClaimFundingSpec(s: State, owner: Key): Result<State> {
    if owner !in s.positions then Err(AccountMissing) else
    var c := s.config;
    var p :- AccrueSpec(s.positions[owner], c.pool.acc);
    :- Require(p.unclaimed > 0, NothingToClaim);
    :- Require(p.unclaimed <= c.pool.stakerFunding, MathOverflow);
    var synthetic :- Transfer(s.tokens.synthetic, FundingVault, User(owner), p.unclaimed);
    var claimed :- AddU64(p.claimedTotal, p.unclaimed);
    var balance :- SubU64(c.pool.stakerFunding, p.unclaimed);
    Ok(s.(tokens := s.tokens.(synthetic := synthetic),
       positions := s.positions[owner := p.(unclaimed := 0, claimedTotal := claimed)],
       config := c.(pool := c.pool.(stakerFunding := balance))))
  }

  datatype FundingCall =
    | SettleFunding(signer: Key, amount: u64)
    | Stake(owner: Key, amount: u64)
    | RequestUnstake(owner: Key, amount: u64)
    | Unstake(owner: Key)
    | ClaimFunding(owner: Key)

  function FundingStep(s: State, env: Env, c: FundingCall): Result<State> {
    match c
    case SettleFunding(signer, amount) => SettleFundingSpec(s, env, signer, amount)
    case Stake(owner, amount) => StakeSpec(s, env, owner, amount)
    case RequestUnstake(owner, amount) => RequestUnstakeSpec(s, env, owner, amount)
    case Unstake(owner) => UnstakeSpec(s, env, owner)
    case ClaimFunding(owner) => ClaimFundingSpec(s, owner)
  }

  // ---------------------------------------------------------------- handlers

  method Accrue(p: Program, owner: Key) returns (r: Result<()>)
    modifies p`positions
    ensures r == Verdict(AccrueSpec(PositionOf(old(p.positions), owner), p.pool.acc))
    ensures var accrued := AccrueSpec(PositionOf(old(p.positions), owner), p.pool.acc);
            r.Ok? ==> p.positions == old(p.positions)[owner := accrued.value]
  {
    var position := PositionOf(p.positions, owner);
    var entitlement :- AccEntitlement(position.amount, p.pool.acc);
    var pending :- SubU128(entitlement, position.rewardDebt);
    if pending > 0 {
      var earned :- ToU64(pending);
      var unclaimed :- AddU64(position.unclaimed, earned);
      position := position.(unclaimed := unclaimed);
    }
    p.positions := p.positions[owner := position.(rewardDebt := entitlement)];
    return Ok(());
  }

  /** Both inflows to stakers, a settlement and a buffer draw, end here. */
  method PayStakers(p: Program, amount: u64) returns (r: Result<()>)
    modifies p`pool
    ensures r == Verdict(CreditStakers(old(p.pool), amount))
    ensures r.Ok? ==> p.pool == CreditStakers(old(p.pool), amount).value
  {
    if amount > 0 {
      var increment :- AccIncrement(amount, p.pool.totalStaked);
      var acc :- AddU128(p.pool.acc, increment);
      p.pool := p.pool.(acc := acc);
      var stakerFunding :- AddU64(p.pool.stakerFunding, amount);
      p.pool := p.pool.(stakerFunding := stakerFunding);
    }
    return Ok(());
  }

  method HandleSettleFunding(p: Program, env: Env, signer: Key, amount: u64) returns (r: Result<()>)
    modifies p
    ensures Realizes(r, p.View(), SettleFundingSpec(old(p.View()), env, signer, amount))
  {
    if signer != p.authority {
      return Err(Unauthorized);
    }
    var toBuffer :- BufferShare(amount, p.pool.totalStaked, p.params.bufferShareBps);
    var toStakers :- SubU64(amount, toBuffer);
    var synthetic :- Distribute(p.tokens.synthetic, signer, toBuffer, toStakers);
    p.tokens := p.tokens.(synthetic := synthetic);
    var _ :- PayStakers(p, toStakers);
    var buffer :- AddU64(p.pool.buffer, toBuffer);
    p.pool := p.pool.(buffer := buffer, lastSettleAt := env.now);
    return Ok(());
  }

  method HandleStake(p: Program, env: Env, owner: Key, amount: u64) returns (r: Result<()>)
    modifies p
    ensures Realizes(r, p.View(), StakeSpec(old(p.View()), env, owner, amount))
  {
    if p.gates.mintPaused {
      return Err(MintPaused);
    }
    :- Require(p.gates.vaultFlags == VAULT_FLAGS_ALL, VaultsNotReady);
    :- Require(amount > 0, ZeroAmount);
    var _ :- Accrue(p, owner);
    var synthetic :- Transfer(p.tokens.synthetic, User(owner), StakeVault, amount);
    p.tokens := p.tokens.(synthetic := synthetic);
    var position := p.positions[owner];
    var staked :- AddU64(position.amount, amount);
    var debt :- AccEntitlement(staked, p.pool.acc);
    p.positions := p.positions[owner := position.(amount := staked, rewardDebt := debt, lastUpdate := env.now)];
    var totalStaked :- AddU64(p.pool.totalStaked, amount);
    p.pool := p.pool.(totalStaked := totalStaked);
    return Ok(());
  }

  method HandleRequestUnstake(p: Program, env: Env, owner: Key, amount: u64) returns (r: Result<()>)
    modifies p
    ensures Realizes(r, p.View(), RequestUnstakeSpec(old(p.View()), env, owner, amount))
  {
    if owner !in p.positions {
      return Err(AccountMissing);
    }
    :- Require(amount > 0, ZeroAmount);
    :- Require(amount <= p.positions[owner].amount, InsufficientStake);
    var cooldownEnd :- AddI64(env.now, p.params.unstakeCooldownSec);
    var _ :- Accrue(p, owner);
    var position := p.positions[owner];
    var staked := position.amount - amount;
    var pending :- AddU64(position.pendingUnstake, amount);
    var debt :- AccEntitlement(staked, p.pool.acc);
    p.positions := p.positions[owner := position.(
      amount := staked, pendingUnstake := pending, cooldownEnd := cooldownEnd,
      rewardDebt := debt, lastUpdate := env.now)];
    var totalStaked :- SubU64(p.pool.totalStaked, amount);
    p.pool := p.pool.(totalStaked := totalStaked);
    return Ok(());
  }

  method HandleUnstake(p: Program, env: Env, owner: Key) returns (r: Result<()>)
    modifies p
    ensures Realizes(r, p.View(), UnstakeSpec(old(p.View()), env, owner))
  {
    if owner !in p.positions {
      return Err(AccountMissing);
    }
    var position := p.positions[owner];
    var amount := position.pendingUnstake;
    :- Require(amount > 0, NoPendingUnstake);
    :- Require(env.now >= position.cooldownEnd, UnstakeCooldownActive);
    var synthetic :- Transfer(p.tokens.synthetic, StakeVault, User(owner), amount);
    p.tokens := p.tokens.(synthetic := synthetic);
    p.positions := p.positions[owner := position.(pendingUnstake := 0, cooldownEnd := 0, lastUpdate := env.now)];
    return Ok(());
  }

  method HandleClaimFunding(p: Program, owner: Key) returns (r: Result<()>)
    modifies p
    ensures Realizes(r, p.View(), ClaimFundingSpec(old(p.View()), owner))
  {
    if owner !in p.positions {
      return Err(AccountMissing);
    }
    var _ :- Accrue(p, owner);
    var position := p.positions[owner];
    var amount := position.unclaimed;
    :- Require(amount > 0, NothingToClaim);
    :- Require(amount <= p.pool.stakerFunding, MathOverflow);
    var synthetic :- Transfer(p.tokens.synthetic, FundingVault, User(owner), amount);
    p.tokens := p.tokens.(synthetic := synthetic);
    var claimed :- AddU64(position.claimedTotal, amount);
    p.positions := p.positions[owner := position.(unclaimed := 0, claimedTotal := claimed)];
    p.pool := p.pool.(stakerFunding := p.pool.stakerFunding - amount);
    return Ok(());
  }
}
