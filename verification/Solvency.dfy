/** What stakers are owed against what the funding balance holds. */
module Solvency {
  import opened Checked
  import opened FixedPoint
  import opened Accounts
  import opened Oracle
  import opened Proof
  import opened MapSums
  import opened Protocol
  import opened Frames
  import opened Funding
  import opened Buffer
  import TokenLedger

  /** What a claim would pay the position now. */
  function Owed(p: Position, acc: nat): int {
    p.unclaimed + Entitlement(p.amount, acc) - p.rewardDebt
  }

  function OwedAt(acc: nat): Position -> int {
    (p: Position) => Owed(p, acc)
  }

  /** The same before the rounding of the entitlement, scaled up. */
  function Weight(p: Position, acc: nat): int {
    ACC_SCALE * p.unclaimed + p.amount * acc - ACC_SCALE * p.rewardDebt
  }

  function WeightAt(acc: nat): Position -> int {
    (p: Position) => Weight(p, acc)
  }

  function StakedOf(p: Position): int {
    p.amount
  }

  /** What rounding the entitlement drops. */
  function Residue(amount: nat, acc: nat): nat {
    amount * acc % ACC_SCALE
  }

  /** Stake changes re-round a debt. One counts as lossy when the new rounding drops more than the old
      one did, which the owner can tell from the stake, the change and the index beforehand. */
  function LossyChange(before: State, e: Entry, after: State): int {
    var acc := before.config.pool.acc;
    if e.call.Fund? && e.call.f.Stake? then
      var staked := PositionOf(before.positions, e.call.f.owner).amount;
      if Residue(staked, acc) < Residue(staked + e.call.f.amount, acc) then 1 else 0
    else if e.call.Fund? && e.call.f.RequestUnstake? then
      var staked := PositionOf(before.positions, e.call.f.owner).amount;
      if e.call.f.amount <= staked && Residue(staked, acc) < Residue(staked - e.call.f.amount, acc) then 1 else 0
    else 0
  }

  /** The stakers' part of a settlement. */
  function StakersPart(before: State, amount: u64): nat {
    var cut := BufferShare(amount, before.config.pool.totalStaked, before.config.params.bufferShareBps);
    if cut.Ok? && cut.value <= amount then amount - cut.value else 0
  }

  /** What the index increment of an inflow of x leaves undistributed, scaled up. */
  function InflowDust(pool: Pool, x: nat): nat {
    if pool.totalStaked == 0 then 0 else x * ACC_SCALE % pool.totalStaked
  }

  function Rebasing(before: State, owner: Key, amount: int): int {
    var acc, staked := before.config.pool.acc, PositionOf(before.positions, owner).amount;
    if amount < 0 then 0 else Residue(staked, acc) - Residue(amount, acc)
  }

  /** The scaled units a call leaves with the program (positive) or hands out beyond what came in (negative).
      The state before the call determines it. */
  function Dust(before: State, e: Entry, after: State): int {
    if e.call.Fund? then
      match e.call.f
      case SettleFunding(_, amount) => InflowDust(before.config.pool, StakersPart(before, amount))
      case Stake(owner, amount) => Rebasing(before, owner, PositionOf(before.positions, owner).amount + amount)
      case RequestUnstake(owner, amount) => Rebasing(before, owner, PositionOf(before.positions, owner).amount - amount)
      case Unstake(_) => 0
      case ClaimFunding(_) => 0
    else if e.call.Reserve? && e.call.b.BufferWithdraw? then InflowDust(before.config.pool, e.call.b.amount)
    else 0
  }

  /** The most dust a call can leave. */
  function DustRoom(before: State, e: Entry, after: State): int {
    if e.call.Fund? && (e.call.f.Stake? || e.call.f.RequestUnstake?) then ACC_SCALE - 1
    else if (e.call.Fund? && e.call.f.SettleFunding?) || (e.call.Reserve? && e.call.b.BufferWithdraw?) then
      before.config.pool.totalStaked
    else 0
  }

  /** The recorded debt is the entitlement at some index already passed. */
  ghost predicate DebtFits(p: Position, acc: nat) {
    exists past: nat :: past <= acc && p.rewardDebt == Entitlement(p.amount, past)
  }

  ghost predicate Booked(s: State) {
    && Sum(s.positions, StakedOf) == s.config.pool.totalStaked
    && forall k :: k in s.positions ==> DebtFits(s.positions[k], s.config.pool.acc)
  }

  /** What the funding balance holds beyond everybody's weight, scaled up. */
  ghost function Surplus(s: State): int {
    ACC_SCALE * s.config.pool.stakerFunding - Sum(s.positions, WeightAt(s.config.pool.acc))
  }

  // ---------------------------------------------------------------- one position

  lemma ScaleBounds(n: nat)
    ensures ACC_SCALE * (n / ACC_SCALE) <= n < ACC_SCALE * (n / ACC_SCALE) + ACC_SCALE
  {
  }

  lemma EntitlementMonotone(amount: nat, a: nat, b: nat)
    requires a <= b
    ensures Entitlement(amount, a) <= Entitlement(amount, b)
  {
    assert amount * a <= amount * b;
  }

  /** A position is never owed a negative amount, so `accrue` never underflows. */
  lemma OwedNonNegative(p: Position, acc: nat)
    requires DebtFits(p, acc)
    ensures p.unclaimed <= Owed(p, acc)
  {
    var past: nat :| past <= acc && p.rewardDebt == Entitlement(p.amount, past);
    EntitlementMonotone(p.amount, past, acc);
  }

  /** Accruing moves value between fields of a position and changes neither measure. */
  lemma AccrueNeutral(p: Position, acc: u128)
    requires AccrueSpec(p, acc).Ok?
    ensures var q := AccrueSpec(p, acc).value;
            && Weight(q, acc) == Weight(p, acc)
            && Owed(q, acc) == Owed(p, acc) == q.unclaimed
            && q.amount == p.amount && q.claimedTotal == p.claimedTotal
  {
  }

  /** Re-baselining at a new stake keeps what is owed and adds less than one unit of rounding. */
  lemma RebaselineNeutral(p: Position, acc: u128, amount: u64, debt: u128)
    requires p.rewardDebt == Entitlement(p.amount, acc)
    requires debt == Entitlement(amount, acc)
    ensures var q := p.(amount := amount, rewardDebt := debt);
            && Owed(q, acc) == Owed(p, acc)
            && Weight(q, acc) - Weight(p, acc) == Residue(amount, acc) - Residue(p.amount, acc)
            && DebtFits(q, acc)
  {
    ScaleBounds(p.amount * acc);
    ScaleBounds(amount * acc);
  }

  // ---------------------------------------------------------------- all positions

  lemma {:induction false} WeightShift(m: map<Key, Position>, acc: nat, rise: nat)
    ensures Sum(m, WeightAt(acc + rise)) == Sum(m, WeightAt(acc)) + rise * Sum(m, StakedOf)
    decreases |m|
  {
    if |m| != 0 {
      var k := Pick(m);
      var p := m[k];
      WeightShift(m - {k}, acc, rise);
      assert p.amount * (acc + rise) == p.amount * acc + rise * p.amount;
      assert rise * (StakedOf(p) + Sum(m - {k}, StakedOf)) == rise * StakedOf(p) + rise * Sum(m - {k}, StakedOf);
    }
  }

  function ResidueAt(acc: nat): Position -> int {
    (p: Position) => Residue(p.amount, acc)
  }

  lemma OneWeightSplits(p: Position, acc: nat)
    ensures Weight(p, acc) == ACC_SCALE * Owed(p, acc) + Residue(p.amount, acc)
  {
  }

  /** Weight is what is owed, scaled up, plus what rounding it dropped. */
  lemma {:induction false} WeightSplits(m: map<Key, Position>, acc: nat)
    ensures Sum(m, WeightAt(acc)) == ACC_SCALE * Sum(m, OwedAt(acc)) + Sum(m, ResidueAt(acc))
    decreases |m|
  {
    if |m| != 0 {
      var k := Pick(m);
      WeightSplits(m - {k}, acc);
      OneWeightSplits(m[k], acc);
    }
  }

  lemma {:induction false} ResiduesBounded(m: map<Key, Position>, acc: nat)
    ensures 0 <= Sum(m, ResidueAt(acc)) <= (ACC_SCALE - 1) * |m|
    decreases |m|
  {
    if |m| != 0 {
      var k := Pick(m);
      ResiduesBounded(m - {k}, acc);
      assert |m| == |m - {k}| + 1;
    }
  }

  lemma QuotientAndRest(n: nat, d: nat)
    requires d > 0
    ensures n / d * d == n - n % d
  {
    assert n == d * (n / d) + n % d;
  }

  /** Raising the index by a floored quotient raises all weights together by all but the rest. */
  lemma RiseWeighs(m: map<Key, Position>, acc: nat, scaled: nat, staked: nat)
    requires staked > 0 && Sum(m, StakedOf) == staked
    ensures Sum(m, WeightAt(acc + scaled / staked)) == Sum(m, WeightAt(acc)) + scaled - scaled % staked
  {
    WeightShift(m, acc, scaled / staked);
    QuotientAndRest(scaled, staked);
  }

  /** An inflow of x raises all weights together by x units less its dust. */
  lemma InflowWeighs(m: map<Key, Position>, pool: Pool, amount: u64)
    requires CreditStakers(pool, amount).Ok?
    requires Sum(m, StakedOf) == pool.totalStaked
    ensures var after := CreditStakers(pool, amount).value;
            && pool.acc <= after.acc
            && Sum(m, WeightAt(after.acc)) == Sum(m, WeightAt(pool.acc)) + ACC_SCALE * amount - InflowDust(pool, amount)
            && after.stakerFunding == pool.stakerFunding + amount
            && after.totalStaked == pool.totalStaked
  {
    if amount > 0 {
      var scaled := amount * ACC_SCALE;
      assert CreditStakers(pool, amount).value.acc == pool.acc + scaled / pool.totalStaked;
      RiseWeighs(m, pool.acc, scaled, pool.totalStaked);
    }
  }

  lemma DebtsStillFit(m: map<Key, Position>, a: nat, b: nat)
    requires a <= b
    requires forall k :: k in m ==> DebtFits(m[k], a)
    ensures forall k :: k in m ==> DebtFits(m[k], b)
  {
  }

  // ---------------------------------------------------------------- every funding instruction

  ghost predicate Keeps(s: State, t: State, dust: int) {
    Booked(t) && Surplus(t) == Surplus(s) + dust
  }

  /** Replacing one position by another changes the surplus by what changes hands and what weight is lost. */
  lemma Replaced(s: State, t: State, owner: Key, q: Position, dust: int)
    requires Booked(s)
    requires t.positions == s.positions[owner := q] && DebtFits(q, t.config.pool.acc)
    requires t.config.pool.acc == s.config.pool.acc
    requires t.config.pool.totalStaked == s.config.pool.totalStaked - PositionOf(s.positions, owner).amount + q.amount
    requires Weight(PositionOf(s.positions, owner), s.config.pool.acc) - Weight(q, s.config.pool.acc)
             + ACC_SCALE * (t.config.pool.stakerFunding - s.config.pool.stakerFunding) == dust
    ensures Keeps(s, t, dust)
  {
    SumUpdate(s.positions, owner, q, StakedOf);
    SumUpdate(s.positions, owner, q, WeightAt(s.config.pool.acc));
  }

  lemma Grown(s: State, t: State, pool: Pool, amount: u64)
    requires Booked(s)
    requires CreditStakers(pool, amount).Ok?
    requires pool.acc == s.config.pool.acc && pool.totalStaked == s.config.pool.totalStaked
    requires pool.stakerFunding == s.config.pool.stakerFunding
    requires t.positions == s.positions
    requires var after := CreditStakers(pool, amount).value;
             && t.config.pool.acc == after.acc && t.config.pool.totalStaked == after.totalStaked
             && t.config.pool.stakerFunding == after.stakerFunding
    ensures Keeps(s, t, InflowDust(s.config.pool, amount))
  {
    InflowWeighs(s.positions, pool, amount);
    DebtsStillFit(s.positions, pool.acc, t.config.pool.acc);
  }

  lemma StakeKeeps(s: State, env: Env, owner: Key, amount: u64, t: State)
    requires Booked(s) && StakeSpec(s, env, owner, amount) == Ok(t)
    ensures Keeps(s, t, Rebasing(s, owner, PositionOf(s.positions, owner).amount + amount))
  {
    var acc, p, q := s.config.pool.acc, PositionOf(s.positions, owner), t.positions[owner];
    AccrueNeutral(p, acc);
    RebaselineNeutral(AccrueSpec(p, acc).value, acc, q.amount, q.rewardDebt);
    Replaced(s, t, owner, q, Residue(p.amount, acc) - Residue(q.amount, acc));
  }

  lemma RequestUnstakeKeeps(s: State, env: Env, owner: Key, amount: u64, t: State)
    requires Booked(s) && RequestUnstakeSpec(s, env, owner, amount) == Ok(t)
    ensures Keeps(s, t, Rebasing(s, owner, PositionOf(s.positions, owner).amount - amount))
  {
    var acc, p, q := s.config.pool.acc, s.positions[owner], t.positions[owner];
    AccrueNeutral(p, acc);
    RebaselineNeutral(AccrueSpec(p, acc).value, acc, q.amount, q.rewardDebt);
    Replaced(s, t, owner, q, Residue(p.amount, acc) - Residue(q.amount, acc));
  }

  lemma UnstakeKeeps(s: State, env: Env, owner: Key, t: State)
    requires Booked(s) && UnstakeSpec(s, env, owner) == Ok(t)
    ensures Keeps(s, t, 0)
  {
    Replaced(s, t, owner, t.positions[owner], 0);
  }

  lemma ClaimKeeps(s: State, owner: Key, t: State)
    requires Booked(s) && ClaimFundingSpec(s, owner) == Ok(t)
    ensures Keeps(s, t, 0)
  {
    AccrueNeutral(s.positions[owner], s.config.pool.acc);
    Replaced(s, t, owner, t.positions[owner], 0);
  }

  lemma SettleKeeps(s: State, env: Env, signer: Key, amount: u64, t: State)
    requires Booked(s) && SettleFundingSpec(s, env, signer, amount) == Ok(t)
    ensures Keeps(s, t, InflowDust(s.config.pool, StakersPart(s, amount)))
  {
    Grown(s, t, s.config.pool, StakersPart(s, amount));
  }

  lemma FundingKeeps(s: State, e: Entry, t: State)
    requires Booked(s) && e.call.Fund? && FundingStep(s, e.env, e.call.f) == Ok(t)
    ensures Keeps(s, t, Dust(s, e, t))
  {
    match e.call.f
    case SettleFunding(signer, amount) => SettleKeeps(s, e.env, signer, amount, t);
    case Stake(owner, amount) => StakeKeeps(s, e.env, owner, amount, t);
    case RequestUnstake(owner, amount) => RequestUnstakeKeeps(s, e.env, owner, amount, t);
    case Unstake(owner) => UnstakeKeeps(s, e.env, owner, t);
    case ClaimFunding(owner) => ClaimKeeps(s, owner, t);
  }

  lemma DrawKeeps(s: State, env: Env, signer: Key, amount: u64, t: State)
    requires Booked(s) && BufferWithdrawSpec(s, env, signer, amount) == Ok(t)
    ensures Keeps(s, t, InflowDust(s.config.pool, amount))
  {
    Grown(s, t, s.config.pool.(buffer := s.config.pool.buffer - amount), amount);
  }

  lemma BufferKeeps(s: State, e: Entry, t: State)
    requires Booked(s) && e.call.Reserve? && BufferStep(s, e.env, e.call.b) == Ok(t)
    ensures Keeps(s, t, Dust(s, e, t))
  {
    match e.call.b
    case BufferDeposit(depositor, amount) =>
    case BufferWithdraw(signer, amount) => DrawKeeps(s, e.env, signer, amount, t);
  }

  lemma StepKeeps(hash: Digest, s: State, e: Entry, t: State)
    requires Booked(s) && Step(hash, s, e) == Ok(t)
    ensures Keeps(s, t, Dust(s, e, t))
  {
    if e.call.Fund? {
      FundingKeeps(s, e, t);
    } else if e.call.Reserve? {
      BufferKeeps(s, e, t);
    } else {
      StepFramed(hash, s, e, t);
    }
  }

  // ---------------------------------------------------------------- debts and the index

  /** The index after the first j calls of a run. */
  ghost function IndexAfter(hash: Digest, s: State, run: seq<Entry>, j: nat): nat
    requires j <= |run|
  {
    Run(hash, s, run[..j]).config.pool.acc
  }

  /** The debt is the entitlement at an index that the run went through. */
  ghost predicate DebtFrom(hash: Digest, s: State, run: seq<Entry>, j: nat, p: Position) {
    j <= |run| && p.rewardDebt == Entitlement(p.amount, IndexAfter(hash, s, run, j))
  }

  ghost predicate DebtOnRecord(hash: Digest, s: State, run: seq<Entry>, p: Position) {
    exists j: nat :: DebtFrom(hash, s, run, j, p)
  }

  lemma FundingDebt(s: State, env: Env, c: FundingCall, t: State, k: Key)
    requires FundingStep(s, env, c) == Ok(t) && k in t.positions
    ensures || (k in s.positions && t.positions[k].amount == s.positions[k].amount
                && t.positions[k].rewardDebt == s.positions[k].rewardDebt)
            || t.positions[k].rewardDebt == Entitlement(t.positions[k].amount, s.config.pool.acc)
  {
  }

  lemma DebtStillFrom(hash: Digest, s: State, run: seq<Entry>, p: Position, q: Position)
    requires run != [] && DebtOnRecord(hash, s, run[..|run| - 1], p)
    requires q.amount == p.amount && q.rewardDebt == p.rewardDebt
    ensures DebtOnRecord(hash, s, run, q)
  {
    var j: nat :| DebtFrom(hash, s, run[..|run| - 1], j, p);
    assert run[..|run| - 1][..j] == run[..j];
    assert DebtFrom(hash, s, run, j, q);
  }

  /** Every recorded debt is the floored entitlement at an index the run went through. */
  lemma {:induction false} DebtRecorded(hash: Digest, s: State, run: seq<Entry>, k: Key)
    requires Initial(s) && k in Run(hash, s, run).positions
    ensures DebtOnRecord(hash, s, run, Run(hash, s, run).positions[k])
    decreases |run|
  {
    if run != [] {
      var prior, e := run[..|run| - 1], run[|run| - 1];
      var before, after := Run(hash, s, prior), Run(hash, s, run);
      if Step(hash, before, e).Ok? {
        if e.call.Fund? {
          FundingDebt(before, e.env, e.call.f, after, k);
        } else {
          StepFramed(hash, before, e, after);
        }
      }
      var q := after.positions[k];
      if k in before.positions && q.amount == before.positions[k].amount
         && q.rewardDebt == before.positions[k].rewardDebt
      {
        DebtRecorded(hash, s, prior, k);
        DebtStillFrom(hash, s, run, before.positions[k], q);
      } else {
        assert DebtFrom(hash, s, run, |run| - 1, q);
      }
    }
  }

  // ---------------------------------------------------------------- whole runs

  lemma {:induction false} RunBooked(hash: Digest, s: State, run: seq<Entry>)
    requires Initial(s)
    ensures Booked(Run(hash, s, run))
    ensures Surplus(Run(hash, s, run)) == Tally(hash, s, run, Dust)
    decreases |run|
  {
    if run != [] {
      var prior, e := run[..|run| - 1], run[|run| - 1];
      RunBooked(hash, s, prior);
      var before := Run(hash, s, prior);
      if Step(hash, before, e).Ok? {
        StepKeeps(hash, before, e, Step(hash, before, e).value);
      }
    }
  }

  /** In every reachable state `total_staked` is the sum of the stakes, every debt is the entitlement at an
      index the run went through, none above the current one, and the surplus is exactly the dust so far. */
  lemma RunKeeps(hash: Digest, s: State, run: seq<Entry>)
    requires Initial(s)
    ensures var t := Run(hash, s, run);
            && Booked(t)
            && Surplus(t) == Tally(hash, s, run, Dust)
            && forall k :: k in t.positions ==> DebtOnRecord(hash, s, run, t.positions[k])
  {
    RunBooked(hash, s, run);
    forall k | k in Run(hash, s, run).positions
      ensures DebtOnRecord(hash, s, run, Run(hash, s, run).positions[k])
    {
      DebtRecorded(hash, s, run, k);
    }
  }

  // ---------------------------------------------------------------- exact solvency

  /** The dust so far together with what rounding the entitlements holds back now. */
  ghost function Margin(hash: Digest, s: State, run: seq<Entry>): int {
    var t := Run(hash, s, run);
    Tally(hash, s, run, Dust) + Sum(t.positions, ResidueAt(t.config.pool.acc))
  }

  ghost function TotalOwed(s: State): int {
    Sum(s.positions, OwedAt(s.config.pool.acc))
  }

  /** Balance less debt to the stakers, to the last scaled unit. */
  lemma MarginExactly(hash: Digest, s: State, run: seq<Entry>)
    requires Initial(s)
    ensures var t := Run(hash, s, run);
            ACC_SCALE * (t.config.pool.stakerFunding - TotalOwed(t)) == Margin(hash, s, run)
  {
    RunBooked(hash, s, run);
    var t := Run(hash, s, run);
    WeightSplits(t.positions, t.config.pool.acc);
  }

  /** The funding balance covers all stakers together exactly when the margin is not negative. */
  lemma SolventExactly(hash: Digest, s: State, run: seq<Entry>)
    requires Initial(s)
    ensures TotalOwed(Run(hash, s, run)) <= Run(hash, s, run).config.pool.stakerFunding <==> Margin(hash, s, run) >= 0
  {
    MarginExactly(hash, s, run);
  }

  /** One claim passes the balance guard exactly when the margin, with what the others are owed, is not negative. */
  lemma GuardExactly(hash: Digest, s: State, run: seq<Entry>, owner: Key)
    requires Initial(s)
    ensures var t := Run(hash, s, run);
            Owed(PositionOf(t.positions, owner), t.config.pool.acc) <= t.config.pool.stakerFunding
            <==> Margin(hash, s, run) + ACC_SCALE * Sum(t.positions - {owner}, OwedAt(t.config.pool.acc)) >= 0
  {
    MarginExactly(hash, s, run);
    var t := Run(hash, s, run);
    OwnAndOthers(t.positions, t.config.pool.acc, owner);
  }

  lemma OwnAndOthers(m: map<Key, Position>, acc: nat, owner: Key)
    ensures Sum(m, OwedAt(acc)) == Owed(PositionOf(m, owner), acc) + Sum(m - {owner}, OwedAt(acc))
  {
    if owner in m {
      SumRemove(m, owner, OwedAt(acc));
    } else {
      assert m - {owner} == m;
    }
  }

  lemma DebtsOwed(m: map<Key, Position>, acc: nat)
    requires forall k :: k in m ==> DebtFits(m[k], acc)
    ensures Sum(m, OwedAt(acc)) >= 0
  {
    var f := OwedAt(acc);
    forall k | k in m
      ensures f(m[k]) >= 0
    {
      OwedNonNegative(m[k], acc);
    }
    SumNonNegative(m, f);
  }

  /** A non-negative margin lets every staker's claim past the balance guard. */
  lemma GuardNeverFires(hash: Digest, s: State, run: seq<Entry>, owner: Key)
    requires Initial(s)
    ensures var t := Run(hash, s, run);
            Margin(hash, s, run) >= 0 ==>
              Owed(PositionOf(t.positions, owner), t.config.pool.acc) <= t.config.pool.stakerFunding
  {
    RunBooked(hash, s, run);
    GuardExactly(hash, s, run, owner);
    DebtsOwed(Run(hash, s, run).positions - {owner}, Run(hash, s, run).config.pool.acc);
  }

  lemma RestBelow(n: nat, d: nat)
    requires d > 0
    ensures 0 <= n % d < d
  {
  }

  /** One lossy change costs less than one unit; nothing leaves more dust than it has room for. */
  lemma DustBounds(before: State, e: Entry, after: State)
    ensures -(ACC_SCALE - 1) * LossyChange(before, e, after) <= Dust(before, e, after) <= DustRoom(before, e, after)
  {
    var pool := before.config.pool;
    if e.call.Fund? && e.call.f.SettleFunding? && pool.totalStaked > 0 {
      RestBelow(StakersPart(before, e.call.f.amount) * ACC_SCALE, pool.totalStaked);
    } else if e.call.Reserve? && e.call.b.BufferWithdraw? && pool.totalStaked > 0 {
      RestBelow(e.call.b.amount * ACC_SCALE, pool.totalStaked);
    }
  }

  lemma {:induction false} DustTallied(hash: Digest, s: State, run: seq<Entry>)
    ensures -(ACC_SCALE - 1) * Tally(hash, s, run, LossyChange) <= Tally(hash, s, run, Dust)
    ensures Tally(hash, s, run, Dust) <= Tally(hash, s, run, DustRoom)
    decreases |run|
  {
    if run != [] {
      var prior, e := run[..|run| - 1], run[|run| - 1];
      DustTallied(hash, s, prior);
      var before := Run(hash, s, prior);
      if Step(hash, before, e).Ok? {
        DustBounds(before, e, Step(hash, before, e).value);
      }
    }
  }

  /** In every reachable state the stakers together are owed at most the funding balance plus one base
      unit for every lossy stake change so far. */
  lemma StakersCovered(hash: Digest, s: State, run: seq<Entry>)
    requires Initial(s)
    ensures TotalOwed(Run(hash, s, run))
            <= Run(hash, s, run).config.pool.stakerFunding + Tally(hash, s, run, LossyChange)
  {
    MarginExactly(hash, s, run);
    DustTallied(hash, s, run);
    var t := Run(hash, s, run);
    ResiduesBounded(t.positions, t.config.pool.acc);
    LossyNonNegative(hash, s, run);
  }

  lemma {:induction false} LossyNonNegative(hash: Digest, s: State, run: seq<Entry>)
    ensures Tally(hash, s, run, LossyChange) >= 0
    decreases |run|
  {
    if run != [] {
      LossyNonNegative(hash, s, run[..|run| - 1]);
    }
  }

  /** Without a lossy change the margin is not negative. */
  lemma NoLossNoShortfall(hash: Digest, s: State, run: seq<Entry>)
    requires Tally(hash, s, run, LossyChange) == 0
    ensures Margin(hash, s, run) >= 0
  {
    DustTallied(hash, s, run);
    ResiduesBounded(Run(hash, s, run).positions, Run(hash, s, run).config.pool.acc);
  }

  /** What is left over for nobody: less than one unit per position and stake change, and per inflow no more
      scaled units than were staked. */
  lemma StrandedBounded(hash: Digest, s: State, run: seq<Entry>)
    requires Initial(s)
    ensures var t := Run(hash, s, run);
            ACC_SCALE * (t.config.pool.stakerFunding - TotalOwed(t))
            <= Tally(hash, s, run, DustRoom) + (ACC_SCALE - 1) * |t.positions|
  {
    MarginExactly(hash, s, run);
    DustTallied(hash, s, run);
    ResiduesBounded(Run(hash, s, run).positions, Run(hash, s, run).config.pool.acc);
  }

  // ---------------------------------------------------------------- single changes

  /** The position that a stake change leaves, and what it does to the surplus. */
  ghost predicate Rebased(s: State, t: State, owner: Key, amount: int) {
    var acc := s.config.pool.acc;
    && owner in t.positions && t.positions[owner].amount == amount
    && Surplus(t) == Surplus(s) + Residue(PositionOf(s.positions, owner).amount, acc)
                     - Residue(t.positions[owner].amount, acc)
  }

  lemma StakeRebases(s: State, env: Env, owner: Key, amount: u64, t: State)
    requires StakeSpec(s, env, owner, amount) == Ok(t)
    ensures Rebased(s, t, owner, PositionOf(s.positions, owner).amount + amount)
  {
    var acc, p, q := s.config.pool.acc, PositionOf(s.positions, owner), t.positions[owner];
    AccrueNeutral(p, acc);
    RebaselineNeutral(AccrueSpec(p, acc).value, acc, q.amount, q.rewardDebt);
    SumUpdate(s.positions, owner, q, WeightAt(acc));
  }

  lemma UnstakeRebases(s: State, env: Env, owner: Key, amount: u64, t: State)
    requires RequestUnstakeSpec(s, env, owner, amount) == Ok(t)
    ensures amount <= PositionOf(s.positions, owner).amount
    ensures Rebased(s, t, owner, PositionOf(s.positions, owner).amount - amount)
  {
    var acc, p, q := s.config.pool.acc, s.positions[owner], t.positions[owner];
    AccrueNeutral(p, acc);
    RebaselineNeutral(AccrueSpec(p, acc).value, acc, q.amount, q.rewardDebt);
    SumUpdate(s.positions, owner, q, WeightAt(acc));
  }

  /** A stake change eats into the surplus exactly when it is lossy. */
  lemma LossyExactly(s: State, e: Entry, t: State)
    requires e.call.Fund? && (e.call.f.Stake? || e.call.f.RequestUnstake?) && FundingStep(s, e.env, e.call.f) == Ok(t)
    ensures Surplus(t) < Surplus(s) <==> LossyChange(s, e, t) == 1
  {
    if e.call.f.Stake? {
      StakeRebases(s, e.env, e.call.f.owner, e.call.f.amount, t);
    } else {
      UnstakeRebases(s, e.env, e.call.f.owner, e.call.f.amount, t);
    }
  }

  /** Staking while the index is zero and unstaking everything are never lossy. */
  lemma SafeChanges(before: State, e: Entry, after: State)
    requires e.call.Fund?
    requires (e.call.f.Stake? && before.config.pool.acc == 0)
             || (e.call.f.RequestUnstake? && e.call.f.owner in before.positions
                 && e.call.f.amount == before.positions[e.call.f.owner].amount)
    ensures LossyChange(before, e, after) == 0
  {
    assert Residue(0, before.config.pool.acc) == 0;
  }

  /** `stake` and `request_unstake` change nobody's owed amount: new stake earns nothing retroactively. */
  lemma StakeChangesNeutral(s: State, env: Env, c: FundingCall, t: State, k: Key)
    requires c.Stake? || c.RequestUnstake?
    requires FundingStep(s, env, c) == Ok(t)
    ensures Owed(PositionOf(t.positions, k), t.config.pool.acc) == Owed(PositionOf(s.positions, k), s.config.pool.acc)
  {
    AccrueNeutral(PositionOf(s.positions, c.owner), s.config.pool.acc);
  }

  // ---------------------------------------------------------------- claims

  /** Exactly when a claim goes through, in every reachable state: something is owed, the funding balance
      covers it, and no counter overflows. The vault never runs short before the balance does. */
  ghost predicate Claimable(s: State, owner: Key) {
    && owner in s.positions
    && var p := s.positions[owner];
    && p.amount * s.config.pool.acc <= U128_MAX
    && 0 < Owed(p, s.config.pool.acc) <= s.config.pool.stakerFunding
    && p.claimedTotal + Owed(p, s.config.pool.acc) <= U64_MAX
  }

  lemma ClaimExactly(s: State, owner: Key)
    requires Booked(s)
    requires s.config.pool.stakerFunding <= TokenLedger.Balance(s.tokens.synthetic, TokenLedger.FundingVault)
    ensures ClaimFundingSpec(s, owner).Ok? <==> Claimable(s, owner)
  {
    if owner in s.positions {
      OwedNonNegative(s.positions[owner], s.config.pool.acc);
    }
  }

  /** A claim pays exactly what is owed, leaves nothing owed to the claimant and nobody else's due changed. */
  lemma ClaimPays(s: State, owner: Key, t: State, other: Key)
    requires ClaimFundingSpec(s, owner) == Ok(t)
    ensures var acc, paid := s.config.pool.acc, Owed(s.positions[owner], s.config.pool.acc);
            && TokenLedger.Balance(t.tokens.synthetic, TokenLedger.User(owner))
               == TokenLedger.Balance(s.tokens.synthetic, TokenLedger.User(owner)) + paid
            && t.config.pool.acc == acc && t.config.pool.stakerFunding == s.config.pool.stakerFunding - paid
            && Owed(PositionOf(t.positions, owner), acc) == 0
            && (other != owner ==>
                  Owed(PositionOf(t.positions, other), acc) == Owed(PositionOf(s.positions, other), acc))
  {
    AccrueNeutral(s.positions[owner], s.config.pool.acc);
  }
}
