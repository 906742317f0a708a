/** Funding revenue is neither lost nor created, and the insurance buffer decays no faster than its cap. */
module Conservation {
  import opened Checked
  import opened FixedPoint
  import opened TokenLedger
  import opened Accounts
  import opened Oracle
  import opened MapSums
  import opened Proof
  import opened Protocol
  import opened Frames
  import opened Funding
  import opened Buffer
  import Mint
  import Solvency
  import Ledger
  import Effects
  import Governance
  import Rates

  // ---------------------------------------------------------------- conservation

  function ClaimedOf(p: Position): int {
    p.claimedTotal
  }

  /** Revenue entering through a settlement or a buffer deposit. */
  function Income(before: State, e: Entry, after: State): int {
    if e.call.Fund? && e.call.f.SettleFunding? then e.call.f.amount
    else if e.call.Reserve? && e.call.b.BufferDeposit? then e.call.b.amount
    else 0
  }

  /** Where revenue can be: in the buffer, with the program for the stakers, or claimed. */
  ghost function Accounted(s: State): int {
    s.config.pool.buffer + s.config.pool.stakerFunding + Sum(s.positions, ClaimedOf)
  }

  lemma PositionAccounted(s: State, t: State, owner: Key, q: Position)
    requires t.positions == s.positions[owner := q]
    ensures Sum(t.positions, ClaimedOf)
            == Sum(s.positions, ClaimedOf) + q.claimedTotal - PositionOf(s.positions, owner).claimedTotal
  {
    SumUpdate(s.positions, owner, q, ClaimedOf);
  }

  /** Instructions of a staker move value between the funding balance and the owner's record at most. */
  lemma StakerMoves(s: State, env: Env, c: FundingCall, t: State)
    requires !c.SettleFunding? && FundingStep(s, env, c) == Ok(t)
    ensures c.owner in t.positions && t.positions == s.positions[c.owner := t.positions[c.owner]]
    ensures t.config.pool.buffer == s.config.pool.buffer
    ensures t.config.pool.stakerFunding + t.positions[c.owner].claimedTotal
            == s.config.pool.stakerFunding + PositionOf(s.positions, c.owner).claimedTotal
  {
  }

  lemma SettleMoves(s: State, env: Env, signer: Key, amount: u64, t: State)
    requires SettleFundingSpec(s, env, signer, amount) == Ok(t)
    ensures t.positions == s.positions
    ensures t.config.pool.buffer + t.config.pool.stakerFunding
            == s.config.pool.buffer + s.config.pool.stakerFunding + amount
  {
  }

  lemma FundingAccounted(s: State, e: Entry, t: State)
    requires e.call.Fund? && FundingStep(s, e.env, e.call.f) == Ok(t)
    ensures Accounted(t) == Accounted(s) + Income(s, e, t)
  {
    if e.call.f.SettleFunding? {
      SettleMoves(s, e.env, e.call.f.signer, e.call.f.amount, t);
    } else {
      StakerMoves(s, e.env, e.call.f, t);
      PositionAccounted(s, t, e.call.f.owner, t.positions[e.call.f.owner]);
    }
  }

  lemma ReserveAccounted(s: State, e: Entry, t: State)
    requires e.call.Reserve? && BufferStep(s, e.env, e.call.b) == Ok(t)
    ensures Accounted(t) == Accounted(s) + Income(s, e, t)
  {
    BufferFrame(s, e.env, e.call.b, t);
    ReserveMoves(s, e.env, e.call.b, t);
  }

  lemma ReserveMoves(s: State, env: Env, c: BufferCall, t: State)
    requires BufferStep(s, env, c) == Ok(t)
    ensures t.config.pool.buffer + t.config.pool.stakerFunding
            == s.config.pool.buffer + s.config.pool.stakerFunding + if c.BufferDeposit? then c.amount else 0
  {
  }

  lemma StepAccounted(hash: Digest, s: State, e: Entry, t: State)
    requires Step(hash, s, e) == Ok(t)
    ensures Accounted(t) == Accounted(s) + Income(s, e, t)
  {
    if e.call.Fund? {
      FundingAccounted(s, e, t);
    } else if e.call.Reserve? {
      ReserveAccounted(s, e, t);
    } else {
      StepFramed(hash, s, e, t);
    }
  }

  /** All settlements and buffer deposits of a run are in the buffer, in the stakers' balance or claimed. */
  lemma {:induction false} RevenueConserved(hash: Digest, s: State, run: seq<Entry>)
    requires Initial(s)
    ensures Accounted(Run(hash, s, run)) == Tally(hash, s, run, Income)
    decreases |run|
  {
    if run != [] {
      var prior, e := run[..|run| - 1], run[|run| - 1];
      RevenueConserved(hash, s, prior);
      var before := Run(hash, s, prior);
      if Step(hash, before, e).Ok? {
        StepAccounted(hash, before, e, Step(hash, before, e).value);
      }
    }
  }

  // ---------------------------------------------------------------- settlements go through

  /** The buffer's cut is its exact share rounded up, everything while nothing is staked, and never more than the
      settlement. */
  lemma SplitFits(amount: u64, totalStaked: u64, shareBps: u16)
    requires shareBps <= 10_000
    ensures var cut := BufferShare(amount, totalStaked, shareBps);
            && cut.Ok? && cut.value <= amount && amount * shareBps <= cut.value * BPS
            && (if totalStaked == 0 then cut.value == amount else cut.value * BPS < amount * shareBps + BPS)
  {
    var exact := amount * shareBps;
    Rates.ProductBound(amount, shareBps, amount, BPS);
    Rates.CeilAtMost(exact, BPS, amount);
    Rates.QuotientFits(exact + (BPS - 1), BPS);
    Rates.CeilAtMost(exact, BPS, (exact + (BPS - 1)) / BPS);
  }

  /** What a settlement adds to the index. */
  function IndexRise(pool: Pool, toStakers: nat): nat
    requires pool.totalStaked > 0
  {
    toStakers * ACC_SCALE / pool.totalStaked
  }

  ghost predicate Settleable(s: State, signer: Key, amount: u64, cut: nat) {
    && signer == s.config.authority
    && amount <= Balance(s.tokens.synthetic, User(signer))
    && cut <= amount
    && (cut < amount ==> s.config.pool.totalStaked > 0
                         && s.config.pool.acc + IndexRise(s.config.pool, amount - cut) <= U128_MAX)
  }

  /** The synthetic supply fits a machine integer and covers both funding balances. */
  ghost predicate Contained(s: State) {
    && Held(s.tokens.synthetic) <= U64_MAX
    && s.config.pool.buffer <= Balance(s.tokens.synthetic, BufferVault)
    && s.config.pool.stakerFunding <= Balance(s.tokens.synthetic, FundingVault)
  }

  lemma DistributeExactly(b: Balances, from: Key, toBuffer: u64, toStakers: u64)
    ensures Distribute(b, from, toBuffer, toStakers).Ok? <==> toBuffer + toStakers <= Balance(b, User(from))
  {
  }

  lemma RoomForBoth(s: State, signer: Key, toBuffer: u64, toStakers: u64, after: Balances)
    requires Contained(s) && Distribute(s.tokens.synthetic, signer, toBuffer, toStakers) == Ok(after)
    ensures s.config.pool.buffer + toBuffer <= U64_MAX && s.config.pool.stakerFunding + toStakers <= U64_MAX
  {
    Ledger.Distributed(s.tokens.synthetic, signer, toBuffer, toStakers, after);
    SumAtLeast<Holder, int>(after, BufferVault, AmountOf);
    SumAtLeast<Holder, int>(after, FundingVault, AmountOf);
  }

  lemma SettleExactly(s: State, env: Env, signer: Key, amount: u64)
    requires Admin.ValidParams(s.config.params) && Contained(s)
    ensures var cut := BufferShare(amount, s.config.pool.totalStaked, s.config.params.bufferShareBps);
            cut.Ok? && (SettleFundingSpec(s, env, signer, amount).Ok? <==> Settleable(s, signer, amount, cut.value))
  {
    var pool := s.config.pool;
    SplitFits(amount, pool.totalStaked, s.config.params.bufferShareBps);
    var cut := BufferShare(amount, pool.totalStaked, s.config.params.bufferShareBps).value;
    DistributeExactly(s.tokens.synthetic, signer, cut, amount - cut);
    var moved := Distribute(s.tokens.synthetic, signer, cut, amount - cut);
    if moved.Ok? {
      RoomForBoth(s, signer, cut, amount - cut, moved.value);
    }
  }

  // ---------------------------------------------------------------- buffer decay

  /** x * factor^k. */
  function Scaled(x: nat, factor: nat, k: nat): nat {
    if k == 0 then x else Rates.Times(factor, Scaled(x, factor, k - 1))
  }

  function DrawCount(before: State, e: Entry, after: State): int {
    if e.call.Reserve? && e.call.b.BufferWithdraw? then 1 else 0
  }

  /** A draw is made under a cap of at most `d` basis points. */
  function Capped(d: nat): (State, Entry) -> bool {
    (s: State, e: Entry) =>
      e.call.Reserve? && e.call.b.BufferWithdraw? ==> s.config.params.bufferMaxDrawBps <= d
  }

  lemma DrawBounded(s: State, env: Env, signer: Key, amount: u64, t: State, d: nat)
    requires BufferWithdrawSpec(s, env, signer, amount) == Ok(t) && s.config.params.bufferMaxDrawBps <= d <= 10_000
    ensures s.config.pool.buffer * (10_000 - d) <= t.config.pool.buffer * 10_000
  {
    var buffer, cap := s.config.pool.buffer, s.config.params.bufferMaxDrawBps;
    Rates.DivBounds(buffer * cap, BPS);
    Rates.ProductBound(buffer, cap, buffer, d);
    assert t.config.pool.buffer == buffer - amount;
    assert buffer * (10_000 - d) == buffer * 10_000 - buffer * d;
  }

  lemma FundingKeepsBuffer(s: State, env: Env, c: FundingCall, t: State)
    requires FundingStep(s, env, c) == Ok(t)
    ensures t.config.pool.buffer >= s.config.pool.buffer
  {
    if !c.SettleFunding? {
      StakerMoves(s, env, c, t);
    }
  }

  lemma OthersKeepBuffer(hash: Digest, s: State, e: Entry, t: State)
    requires Step(hash, s, e) == Ok(t) && !(e.call.Reserve? && e.call.b.BufferWithdraw?)
    ensures t.config.pool.buffer >= s.config.pool.buffer
  {
    if e.call.Fund? {
      FundingKeepsBuffer(s, e.env, e.call.f, t);
    } else if !e.call.Reserve? {
      StepFramed(hash, s, e, t);
    }
  }

  lemma {:induction false} ScaledGrows(x: nat, y: nat, factor: nat, k: nat)
    requires x <= y
    ensures Scaled(x, factor, k) <= Scaled(y, factor, k)
  {
    if k > 0 {
      ScaledGrows(x, y, factor, k - 1);
      Rates.TimesIs(factor, Scaled(x, factor, k - 1));
      Rates.TimesIs(factor, Scaled(y, factor, k - 1));
      Rates.ProductBound(factor, Scaled(x, factor, k - 1), factor, Scaled(y, factor, k - 1));
    }
  }

  /** One factor may be applied first or last. */
  lemma {:induction false} ScaledInside(x: nat, factor: nat, other: nat, k: nat)
    ensures Scaled(x * other, factor, k) == Scaled(x, factor, k) * other
  {
    if k > 0 {
      var rest := Scaled(x, factor, k - 1);
      ScaledInside(x, factor, other, k - 1);
      Rates.TimesIs(factor, rest);
      Rates.TimesIs(factor, rest * other);
      Rates.Regrouped(factor, rest, other);
    }
  }

  lemma Decay(start: nat, before: nat, after: nat, d: nat, k: nat)
    requires d <= 10_000 && Scaled(start, 10_000 - d, k) <= Scaled(before, 10_000, k)
    requires before * (10_000 - d) <= after * 10_000
    ensures Scaled(start, 10_000 - d, k + 1) <= Scaled(after, 10_000, k + 1)
  {
    var p, q, r := Scaled(start, 10_000 - d, k), Scaled(before, 10_000, k), Scaled(after, 10_000, k);
    assert q * (10_000 - d) <= r * 10_000 by {
      ScaledInside(before, 10_000, 10_000 - d, k);
      ScaledInside(after, 10_000, 10_000, k);
      ScaledGrows(before * (10_000 - d), after * 10_000, 10_000, k);
    }
    NextFactor(p, q, r, 10_000 - d);
  }

  lemma NextFactor(p: nat, q: nat, r: nat, factor: nat)
    requires p <= q && q * factor <= r * 10_000
    ensures Rates.Times(factor, p) <= Rates.Times(10_000, r)
  {
    Rates.TimesIs(factor, p);
    Rates.TimesIs(10_000, r);
    Rates.ProductBound(p, factor, q, factor);
  }

  /** At least (1 - d / 10_000)^k of the start is left. */
  ghost predicate Decayed(start: nat, now: nat, d: nat, k: int) {
    d <= 10_000 && k >= 0 && Scaled(start, 10_000 - d, k) <= Scaled(now, 10_000, k)
  }

  lemma StepDecayed(hash: Digest, s: State, e: Entry, t: State, start: nat, d: nat, k: int)
    requires Step(hash, s, e) == Ok(t) && Decayed(start, s.config.pool.buffer, d, k)
    requires DrawCount(s, e, t) == 1 ==> s.config.params.bufferMaxDrawBps <= d
    ensures Decayed(start, t.config.pool.buffer, d, k + DrawCount(s, e, t))
  {
    if DrawCount(s, e, t) == 1 {
      DrawBounded(s, e.env, e.call.b.signer, e.call.b.amount, t, d);
      Decay(start, s.config.pool.buffer, t.config.pool.buffer, d, k);
    } else {
      OthersKeepBuffer(hash, s, e, t);
      ScaledGrows(s.config.pool.buffer, t.config.pool.buffer, 10_000, k);
    }
  }

  lemma CappedStepsDecay(hash: Digest, start: nat, d: nat)
    ensures KeptByStep(hash, DrawCount, Capped(d), Decaying(start, d))
  {
    forall s, e, n | Decaying(start, d)(s, n) && Step(hash, s, e).Ok? && Capped(d)(s, e)
      ensures Decaying(start, d)(Step(hash, s, e).value, n + DrawCount(s, e, Step(hash, s, e).value))
    {
      OneCappedStep(hash, s, e, n, start, d);
    }
  }

  lemma OneCappedStep(hash: Digest, s: State, e: Entry, n: int, start: nat, d: nat)
    requires Decaying(start, d)(s, n) && Capped(d)(s, e) && Step(hash, s, e).Ok?
    ensures Decaying(start, d)(Step(hash, s, e).value, n + DrawCount(s, e, Step(hash, s, e).value))
  {
    StepDecayed(hash, s, e, Step(hash, s, e).value, start, d, n);
  }

  /** After k draws under a cap of d basis points, with anything in between, at least (1 - d)^k of the
      buffer is left. */
  lemma DrawsDecay(hash: Digest, s: State, run: seq<Entry>, d: nat)
    requires d <= 10_000 && Along(hash, s, run, Capped(d))
    ensures Decayed(s.config.pool.buffer, Run(hash, s, run).config.pool.buffer, d, Tally(hash, s, run, DrawCount))
  {
    CappedStepsDecay(hash, s.config.pool.buffer, d);
    KeptAlong(hash, s, run, DrawCount, Capped(d), Decaying(s.config.pool.buffer, d));
  }

  ghost function Decaying(start: nat, d: nat): (State, int) -> bool {
    (s: State, n: int) => Decayed(start, s.config.pool.buffer, d, n)
  }

  lemma {:induction false} ScaledPositive(x: nat, factor: nat, k: nat)
    requires factor > 0
    ensures Scaled(x, factor, k) > 0 <==> x > 0
  {
    if k > 0 {
      ScaledPositive(x, factor, k - 1);
      Rates.TimesIs(factor, Scaled(x, factor, k - 1));
    }
  }

  lemma DecayedPositive(start: nat, now: nat, d: nat, k: int)
    requires start > 0 && d < 10_000 && Decayed(start, now, d, k)
    ensures now > 0
  {
    ScaledPositive(start, 10_000 - d, k);
    ScaledPositive(now, 10_000, k);
  }

  /** A cap below 100% never draws a positive buffer to zero. */
  lemma BufferNeverDrained(hash: Digest, s: State, run: seq<Entry>, d: nat)
    requires d < 10_000 && Along(hash, s, run, Capped(d)) && s.config.pool.buffer > 0
    ensures Run(hash, s, run).config.pool.buffer > 0
  {
    DrawsDecay(hash, s, run, d);
    DecayedPositive(s.config.pool.buffer, Run(hash, s, run).config.pool.buffer, d, Tally(hash, s, run, DrawCount));
  }

  // ---------------------------------------------------------------- reachable states

  ghost predicate SupplyFits(s: State) {
    s.tokens.syntheticSupply <= U64_MAX
  }

  lemma StepSupplyFits(hash: Digest, s: State, e: Entry, t: State)
    requires SupplyFits(s) && Step(hash, s, e) == Ok(t)
    ensures SupplyFits(t)
  {
    StepFramed(hash, s, e, t);
    if e.call.Issue? {
      MintSupplyFits(s, e.env, e.call.m, t);
    } else if e.call.Exit? {
      Effects.RedeemEffect(s, e.env, e.call.r, t);
    }
  }

  lemma MintSupplyFits(s: State, env: Env, m: Mint.MintCall, t: State)
    requires SupplyFits(s) && Mint.MintStep(s, env, m) == Ok(t)
    ensures SupplyFits(t)
  {
  }

  lemma {:induction false} RunSupplyFits(hash: Digest, s: State, run: seq<Entry>)
    requires Initial(s)
    ensures SupplyFits(Run(hash, s, run))
    decreases |run|
  {
    if run != [] {
      var prior, e := run[..|run| - 1], run[|run| - 1];
      RunSupplyFits(hash, s, prior);
      var before := Run(hash, s, prior);
      if Step(hash, before, e).Ok? {
        StepSupplyFits(hash, before, e, Step(hash, before, e).value);
      }
    }
  }

  ghost predicate SettlesExactly(s: State, env: Env, signer: Key, amount: u64) {
    var cut := BufferShare(amount, s.config.pool.totalStaked, s.config.params.bufferShareBps);
    cut.Ok? && (SettleFundingSpec(s, env, signer, amount).Ok? <==> Settleable(s, signer, amount, cut.value))
  }

  /** In every reachable state a settlement fails only for a wrong signer, missing tokens or a full index. */
  lemma SettlementExactly(hash: Digest, s: State, run: seq<Entry>, env: Env, signer: Key, amount: u64)
    requires Initial(s)
    ensures SettlesExactly(Run(hash, s, run), env, signer, amount)
  {
    Governance.RunGoverned(hash, s, run);
    Ledger.LedgerBalanced(hash, s, run);
    RunSupplyFits(hash, s, run);
    SettleExactly(Run(hash, s, run), env, signer, amount);
  }

  /** In every reachable state a claim goes through exactly when something is owed, the funding balance covers
      it and no counter overflows. */
  lemma ClaimsExactly(hash: Digest, s: State, run: seq<Entry>, owner: Key)
    requires Initial(s)
    ensures ClaimFundingSpec(Run(hash, s, run), owner).Ok? <==> Solvency.Claimable(Run(hash, s, run), owner)
  {
    Solvency.RunKeeps(hash, s, run);
    Ledger.LedgerBalanced(hash, s, run);
    Solvency.ClaimExactly(Run(hash, s, run), owner);
  }
}
