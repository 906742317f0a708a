/** Funding and buffer instructions: exactly when they go through, and what they leave, in plain arithmetic. */
module FundingSuccess {
  import opened Checked
  import opened FixedPoint
  import opened TokenLedger
  import opened Accounts
  import opened Oracle
  import opened MapSums
  import opened Protocol
  import opened Funding
  import opened Buffer
  import opened Solvency
  import opened Ledger
  import Conservation
  import Exits
  import Rates
  import Splitting

  const I64_MAX: int := 0x7FFF_FFFF_FFFF_FFFF

  // ---------------------------------------------------------------- settle_funding

  /** The stakers' part: their share rounded down, nothing while nothing is staked. The buffer gets the rest. */
  function ToStakers(amount: nat, staked: nat, shareBps: nat): (r: nat)
    requires shareBps <= 10_000
    ensures r <= amount
  {
    Splitting.NetIsFloor(amount, shareBps);
    if staked == 0 then 0 else amount * (10_000 - shareBps) / 10_000
  }

  lemma CutExactly(amount: u64, staked: u64, shareBps: u16)
    requires shareBps <= 10_000
    ensures BufferShare(amount, staked, shareBps) == Ok(amount - ToStakers(amount, staked, shareBps))
  {
    Splitting.NetIsFloor(amount, shareBps);
  }

  /** What x settled or drawn units add to the index. */
  function Rise(pool: Pool, x: nat): nat {
    if x == 0 || pool.totalStaked == 0 then 0 else x * 1_000_000_000_000 / pool.totalStaked
  }

  ghost predicate CanSettle(s: State, signer: Key, amount: u64)
    requires s.config.params.bufferShareBps <= 10_000
  {
    var toStakers := ToStakers(amount, s.config.pool.totalStaked, s.config.params.bufferShareBps);
    && signer == s.config.authority && amount <= Balance(s.tokens.synthetic, User(signer))
    && s.config.pool.acc + Rise(s.config.pool, toStakers) <= U128_MAX
  }

  ghost predicate Settled(s: State, env: Env, signer: Key, amount: u64, t: State)
    requires s.config.params.bufferShareBps <= 10_000
  {
    var pool, b, c := s.config.pool, s.tokens.synthetic, t.tokens.synthetic;
    var toStakers := ToStakers(amount, pool.totalStaked, s.config.params.bufferShareBps);
    && t.config.pool.acc == pool.acc + Rise(pool, toStakers) && t.config.pool.totalStaked == pool.totalStaked
    && t.config.pool.stakerFunding == pool.stakerFunding + toStakers
    && t.config.pool.buffer == pool.buffer + (amount - toStakers) && t.config.pool.lastSettleAt == env.now
    && t == s.(tokens := s.tokens.(synthetic := c), config := s.config.(pool := t.config.pool))
    && Balance(c, BufferVault) == Balance(b, BufferVault) + (amount - toStakers)
    && Balance(c, FundingVault) == Balance(b, FundingVault) + toStakers
    && Balance(c, User(signer)) == Balance(b, User(signer)) - amount
    && forall h :: h !in {BufferVault, FundingVault, User(signer)} ==> Balance(c, h) == Balance(b, h)
  }

  lemma SettleExactly(s: State, env: Env, signer: Key, amount: u64)
    requires Admin.ValidParams(s.config.params) && Conservation.Contained(s)
    ensures SettleFundingSpec(s, env, signer, amount).Ok? <==> CanSettle(s, signer, amount)
  {
    Conservation.SettleExactly(s, env, signer, amount);
    CutExactly(amount, s.config.pool.totalStaked, s.config.params.bufferShareBps);
  }

  lemma Distributes(b: Balances, from: Key, toBuffer: u64, toStakers: u64, c: Balances)
    requires Distribute(b, from, toBuffer, toStakers) == Ok(c)
    ensures Balance(c, BufferVault) == Balance(b, BufferVault) + toBuffer
    ensures Balance(c, FundingVault) == Balance(b, FundingVault) + toStakers
    ensures Balance(c, User(from)) == Balance(b, User(from)) - toBuffer - toStakers
    ensures forall h :: h !in {BufferVault, FundingVault, User(from)} ==> Balance(c, h) == Balance(b, h)
  {
  }

  lemma SettleLeaves(s: State, env: Env, signer: Key, amount: u64, t: State)
    requires Admin.ValidParams(s.config.params) && SettleFundingSpec(s, env, signer, amount) == Ok(t)
    ensures Settled(s, env, signer, amount, t)
  {
    var pool := s.config.pool;
    CutExactly(amount, pool.totalStaked, s.config.params.bufferShareBps);
    var toStakers := ToStakers(amount, pool.totalStaked, s.config.params.bufferShareBps);
    Distributes(s.tokens.synthetic, signer, amount - toStakers, toStakers, t.tokens.synthetic);
  }

  // ---------------------------------------------------------------- stake

  ghost predicate CanStake(s: State, owner: Key, amount: u64) {
    var p, acc := PositionOf(s.positions, owner), s.config.pool.acc;
    && !s.config.gates.mintPaused && s.config.gates.vaultFlags == 15
    && 0 < amount <= Balance(s.tokens.synthetic, User(owner))
    && (p.amount + amount) * acc <= U128_MAX && Owed(p, acc) <= U64_MAX
  }

  ghost predicate Staked(s: State, env: Env, owner: Key, amount: u64, t: State) {
    var p, acc := PositionOf(s.positions, owner), s.config.pool.acc;
    && owner in t.positions && t.positions == s.positions[owner := t.positions[owner]]
    && var q := t.positions[owner];
    && q.amount == p.amount + amount && q.rewardDebt == (p.amount + amount) * acc / 1_000_000_000_000
    && q.unclaimed == Owed(p, acc)
    && q.claimedTotal == p.claimedTotal && q.pendingUnstake == p.pendingUnstake && q.cooldownEnd == p.cooldownEnd
    && q.lastUpdate == env.now
    && t.config.pool == s.config.pool.(totalStaked := t.config.pool.totalStaked)
    && t.config.pool.totalStaked == s.config.pool.totalStaked + amount
    && t == s.(positions := t.positions, tokens := s.tokens.(synthetic := t.tokens.synthetic),
               config := s.config.(pool := t.config.pool))
    && Moves(s.tokens.synthetic, User(owner), StakeVault, amount, t.tokens.synthetic)
  }

  /** All stake together is in the stake vault. */
  lemma StakeInVault(s: State, owner: Key, g: Gifts)
    requires Booked(s) && SyntheticPart(s, g)
    ensures s.config.pool.totalStaked <= Balance(s.tokens.synthetic, StakeVault)
    ensures PositionOf(s.positions, owner).amount <= s.config.pool.totalStaked
    ensures PositionOf(s.positions, owner).amount + PositionOf(s.positions, owner).pendingUnstake
            <= Balance(s.tokens.synthetic, StakeVault)
  {
    SumMonotone(s.positions, StakedOf, PrincipalOf);
    SumAtLeast(s.positions, owner, StakedOf);
    SumAtLeast(s.positions, owner, PrincipalOf);
  }

  /** Two different holders never hold more than everybody. */
  lemma TwoHold(b: Balances, from: Holder, to: Holder, amount: nat)
    requires from != to && amount <= Balance(b, from)
    ensures Balance(b, to) + amount <= Held(b)
  {
    var c := Transfer(b, from, to, amount).value;
    Transferred(b, from, to, amount, c);
    SumAtLeast<Holder, int>(c, to, AmountOf);
  }

  lemma AccrueExactly(p: Position, acc: u128)
    requires DebtFits(p, acc)
    ensures AccrueSpec(p, acc).Ok? <==> p.amount * acc <= U128_MAX && Owed(p, acc) <= U64_MAX
  {
    OwedNonNegative(p, acc);
  }

  lemma NobodyFits(acc: nat)
    ensures DebtFits(FRESH_POSITION, acc)
  {
    assert Entitlement(0, 0) == 0;
  }

  lemma SmallerFits(a: nat, b: nat, acc: nat)
    requires a <= b
    ensures a * acc <= b * acc
  {
  }

  lemma StakeFits(s: State, owner: Key, amount: u64, g: Gifts)
    requires Booked(s) && SyntheticPart(s, g) && Held(s.tokens.synthetic) <= U64_MAX
    requires amount <= Balance(s.tokens.synthetic, User(owner))
    ensures PositionOf(s.positions, owner).amount + amount <= s.config.pool.totalStaked + amount <= U64_MAX
  {
    StakeInVault(s, owner, g);
    TwoHold(s.tokens.synthetic, User(owner), StakeVault, amount);
  }

  lemma StakeExactly(s: State, env: Env, owner: Key, amount: u64, g: Gifts)
    requires Booked(s) && SyntheticPart(s, g) && Held(s.tokens.synthetic) <= U64_MAX
    ensures StakeSpec(s, env, owner, amount).Ok? <==> CanStake(s, owner, amount)
  {
    var p, acc := PositionOf(s.positions, owner), s.config.pool.acc;
    NobodyFits(acc);
    SmallerFits(p.amount, p.amount + amount, acc);
    if amount <= Balance(s.tokens.synthetic, User(owner)) {
      StakeFits(s, owner, amount, g);
      AccrueExactly(p, acc);
    }
  }

  lemma StakeLeaves(s: State, env: Env, owner: Key, amount: u64, t: State)
    requires StakeSpec(s, env, owner, amount) == Ok(t)
    ensures Staked(s, env, owner, amount, t)
  {
    AccrueNeutral(PositionOf(s.positions, owner), s.config.pool.acc);
    Transferred(s.tokens.synthetic, User(owner), StakeVault, amount, t.tokens.synthetic);
  }

  // ---------------------------------------------------------------- request_unstake

  ghost predicate CanRequestUnstake(s: State, env: Env, owner: Key, amount: u64) {
    && owner in s.positions
    && var p, acc := s.positions[owner], s.config.pool.acc;
    && 0 < amount <= p.amount
    && env.now + s.config.params.unstakeCooldownSec <= I64_MAX
    && p.amount * acc <= U128_MAX && Owed(p, acc) <= U64_MAX
  }

  ghost predicate UnstakeRequested(s: State, env: Env, owner: Key, amount: u64, t: State) {
    var p, acc := PositionOf(s.positions, owner), s.config.pool.acc;
    && owner in t.positions && t.positions == s.positions[owner := t.positions[owner]]
    && var q := t.positions[owner];
    && q.amount == p.amount - amount && q.pendingUnstake == p.pendingUnstake + amount
    && 0 <= p.amount - amount && q.rewardDebt == (p.amount - amount) * acc / 1_000_000_000_000
    && q.unclaimed == Owed(p, acc) && q.claimedTotal == p.claimedTotal
    && q.cooldownEnd == env.now + s.config.params.unstakeCooldownSec && q.lastUpdate == env.now
    && t.config.pool == s.config.pool.(totalStaked := t.config.pool.totalStaked)
    && t.config.pool.totalStaked == s.config.pool.totalStaked - amount
    && t == s.(positions := t.positions, config := s.config.(pool := t.config.pool))
  }

  lemma RequestUnstakeExactly(s: State, env: Env, owner: Key, amount: u64, g: Gifts)
    requires Booked(s) && SyntheticPart(s, g) && Held(s.tokens.synthetic) <= U64_MAX
    ensures RequestUnstakeSpec(s, env, owner, amount).Ok? <==> CanRequestUnstake(s, env, owner, amount)
  {
    if owner in s.positions && amount <= s.positions[owner].amount {
      var p, acc := s.positions[owner], s.config.pool.acc;
      AccrueExactly(p, acc);
      ExitFits(s, owner, amount, g);
      SmallerFits(p.amount - amount, p.amount, acc);
    }
  }

  lemma ExitFits(s: State, owner: Key, amount: u64, g: Gifts)
    requires Booked(s) && SyntheticPart(s, g) && Held(s.tokens.synthetic) <= U64_MAX
    requires owner in s.positions && amount <= s.positions[owner].amount
    ensures s.positions[owner].pendingUnstake + amount <= U64_MAX && amount <= s.config.pool.totalStaked
  {
    StakeInVault(s, owner, g);
    SumAtLeast<Holder, int>(s.tokens.synthetic, StakeVault, AmountOf);
  }

  lemma RequestUnstakeLeaves(s: State, env: Env, owner: Key, amount: u64, t: State)
    requires RequestUnstakeSpec(s, env, owner, amount) == Ok(t)
    ensures UnstakeRequested(s, env, owner, amount, t)
  {
    AccrueNeutral(s.positions[owner], s.config.pool.acc);
  }

  // ---------------------------------------------------------------- unstake and claim_funding

  ghost predicate CanUnstake(s: State, env: Env, owner: Key) {
    owner in s.positions && s.positions[owner].pendingUnstake > 0 && env.now >= s.positions[owner].cooldownEnd
  }

  ghost predicate Unstaked(s: State, env: Env, owner: Key, t: State) {
    && owner in s.positions
    && var p := s.positions[owner];
    && t == s.(tokens := s.tokens.(synthetic := t.tokens.synthetic),
               positions := s.positions[owner := p.(pendingUnstake := 0, cooldownEnd := 0, lastUpdate := env.now)])
    && Moves(s.tokens.synthetic, StakeVault, User(owner), p.pendingUnstake, t.tokens.synthetic)
  }

  lemma UnstakeLeaves(s: State, env: Env, owner: Key, t: State)
    requires UnstakeSpec(s, env, owner) == Ok(t)
    ensures Unstaked(s, env, owner, t)
  {
    Transferred(s.tokens.synthetic, StakeVault, User(owner), s.positions[owner].pendingUnstake, t.tokens.synthetic);
  }

  ghost predicate Claimed(s: State, owner: Key, t: State) {
    && owner in s.positions
    && var p, acc := s.positions[owner], s.config.pool.acc;
    && owner in t.positions && t.positions == s.positions[owner := t.positions[owner]]
    && var q, paid := t.positions[owner], Owed(p, acc);
    && q.unclaimed == 0 && q.claimedTotal == p.claimedTotal + paid
    && q.rewardDebt == p.amount * acc / 1_000_000_000_000
    && q.amount == p.amount && q.pendingUnstake == p.pendingUnstake && q.cooldownEnd == p.cooldownEnd
    && q.lastUpdate == p.lastUpdate
    && t.config.pool == s.config.pool.(stakerFunding := t.config.pool.stakerFunding)
    && t.config.pool.stakerFunding == s.config.pool.stakerFunding - paid
    && t == s.(positions := t.positions, tokens := s.tokens.(synthetic := t.tokens.synthetic),
               config := s.config.(pool := t.config.pool))
    && Moves(s.tokens.synthetic, FundingVault, User(owner), paid, t.tokens.synthetic)
  }

  lemma ClaimLeaves(s: State, owner: Key, t: State)
    requires ClaimFundingSpec(s, owner) == Ok(t)
    ensures Claimed(s, owner, t)
  {
    AccrueNeutral(s.positions[owner], s.config.pool.acc);
    Transferred(s.tokens.synthetic, FundingVault, User(owner), Owed(s.positions[owner], s.config.pool.acc),
                t.tokens.synthetic);
  }

  // ---------------------------------------------------------------- the buffer

  ghost predicate CanDeposit(s: State, depositor: Key, amount: u64) {
    0 < amount <= Balance(s.tokens.synthetic, User(depositor))
  }

  ghost predicate Deposited(s: State, depositor: Key, amount: u64, t: State) {
    && t.config.pool == s.config.pool.(buffer := t.config.pool.buffer)
    && t.config.pool.buffer == s.config.pool.buffer + amount
    && t == s.(tokens := s.tokens.(synthetic := t.tokens.synthetic), config := s.config.(pool := t.config.pool))
    && Moves(s.tokens.synthetic, User(depositor), BufferVault, amount, t.tokens.synthetic)
  }

  lemma DepositExactly(s: State, depositor: Key, amount: u64)
    requires Conservation.Contained(s)
    ensures BufferDepositSpec(s, depositor, amount).Ok? <==> CanDeposit(s, depositor, amount)
  {
    if amount <= Balance(s.tokens.synthetic, User(depositor)) {
      TwoHold(s.tokens.synthetic, User(depositor), BufferVault, amount);
    }
  }

  lemma DepositLeaves(s: State, depositor: Key, amount: u64, t: State)
    requires BufferDepositSpec(s, depositor, amount) == Ok(t)
    ensures Deposited(s, depositor, amount, t)
  {
    Transferred(s.tokens.synthetic, User(depositor), BufferVault, amount, t.tokens.synthetic);
  }

  ghost predicate CanDraw(s: State, env: Env, signer: Key, amount: u64) {
    var pool, since := s.config.pool, s.config.venue.negativeSince;
    && signer == s.config.authority && amount > 0 && pool.totalStaked > 0
    && since != 0 && s.config.params.bufferUnlockDelaySec <= env.now - since <= I64_MAX
    && amount * 10_000 <= pool.buffer * s.config.params.bufferMaxDrawBps
    && pool.acc + Rise(pool, amount) <= U128_MAX
  }

  ghost predicate Drawn(s: State, amount: u64, t: State) {
    var pool := s.config.pool;
    && t.config.pool.acc == pool.acc + Rise(pool, amount) && t.config.pool.totalStaked == pool.totalStaked
    && t.config.pool.stakerFunding == pool.stakerFunding + amount && t.config.pool.buffer == pool.buffer - amount
    && t.config.pool.lastSettleAt == pool.lastSettleAt
    && t == s.(tokens := s.tokens.(synthetic := t.tokens.synthetic), config := s.config.(pool := t.config.pool))
    && Moves(s.tokens.synthetic, BufferVault, FundingVault, amount, t.tokens.synthetic)
  }

  /** A floored cap admits exactly what the exact cap admits. */
  lemma CapExactly(buffer: u64, capBps: u16, amount: u64)
    requires capBps <= 10_000
    ensures MulBpsFloor(buffer, capBps).Ok?
    ensures amount <= MulBpsFloor(buffer, capBps).value <==> amount * 10_000 <= buffer * capBps
    ensures amount * 10_000 <= buffer * capBps ==> amount <= buffer
  {
    var exact := buffer * capBps;
    Rates.ProductBound(buffer, capBps, buffer, BPS);
    Rates.FloorSmall(exact, BPS, buffer);
    Rates.DivBounds(exact, BPS);
    Rates.QuotientFits(exact, BPS);
    if amount * BPS <= exact {
      Rates.FloorLargest(exact, BPS, amount);
    }
  }

  lemma DrawExactly(s: State, env: Env, signer: Key, amount: u64)
    requires Admin.ValidParams(s.config.params) && Conservation.Contained(s)
    ensures BufferWithdrawSpec(s, env, signer, amount).Ok? <==> CanDraw(s, env, signer, amount)
  {
    CapExactly(s.config.pool.buffer, s.config.params.bufferMaxDrawBps, amount);
    if amount <= Balance(s.tokens.synthetic, BufferVault) {
      TwoHold(s.tokens.synthetic, BufferVault, FundingVault, amount);
    }
  }

  lemma DrawLeaves(s: State, env: Env, signer: Key, amount: u64, t: State)
    requires BufferWithdrawSpec(s, env, signer, amount) == Ok(t)
    ensures Drawn(s, amount, t)
  {
    Transferred(s.tokens.synthetic, BufferVault, FundingVault, amount, t.tokens.synthetic);
  }
}
