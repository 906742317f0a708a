/** The O(1) index against paying every staker at every settlement. */
module FairShare {
  import opened Checked
  import opened FixedPoint
  import opened Accounts
  import opened Oracle
  import opened Proof
  import opened Protocol
  import opened Frames
  import opened Funding
  import opened Buffer
  import opened Solvency
  import opened Reals

  const SCALE: real := ACC_SCALE as real

  /** What a successful call added to the stakers' balance; claims take out and are not inflows. */
  function Inflow(before: State, e: Entry, after: State): int {
    if (e.call.Fund? && e.call.f.SettleFunding?) || (e.call.Reserve? && e.call.b.BufferWithdraw?)
    then after.config.pool.stakerFunding - before.config.pool.stakerFunding else 0
  }

  function StakeIn(s: State, owner: Key): nat {
    PositionOf(s.positions, owner).amount
  }

  /** The exact pro-rata share of one inflow, were it paid out on the spot. */
  ghost function Share(before: State, e: Entry, after: State, owner: Key): real {
    if Inflow(before, e, after) > 0 && before.config.pool.totalStaked > 0
    then StakeIn(before, owner) as real * Inflow(before, e, after) as real / before.config.pool.totalStaked as real
    else 0.0
  }

  function Exposure(before: State, e: Entry, after: State, owner: Key): nat {
    if Inflow(before, e, after) > 0 then StakeIn(before, owner) else 0
  }

  function Touch(e: Entry, owner: Key): nat {
    if e.call.Fund? && (e.call.f.Stake? || e.call.f.RequestUnstake?) && e.call.f.owner == owner then 1 else 0
  }

  /** Naive distribution over a run, with the stake exposed to rounding and the stake changes. */
  datatype Account = Account(fair: real, exposure: nat, touches: nat)

  ghost function Book(hash: Digest, s: State, run: seq<Entry>, owner: Key): Account {
    if run == [] then Account(0.0, 0, 0) else
    var prior, e := Book(hash, s, run[..|run| - 1], owner), run[|run| - 1];
    var before := Run(hash, s, run[..|run| - 1]);
    var r := Step(hash, before, e);
    if r.Ok? then Post(prior, before, e, r.value, owner) else prior
  }

  ghost function Post(a: Account, before: State, e: Entry, after: State, owner: Key): Account {
    Account(a.fair + Share(before, e, after, owner), a.exposure + Exposure(before, e, after, owner),
            a.touches + Touch(e, owner))
  }

  /** Everything the accumulator has credited to the owner so far, paid out or not. */
  function Earned(s: State, owner: Key): int {
    var p := PositionOf(s.positions, owner);
    Owed(p, s.config.pool.acc) + p.claimedTotal
  }

  function EarnedWeight(p: Position, acc: nat): int {
    Weight(p, acc) + ACC_SCALE * p.claimedTotal
  }

  /** How one call moves what the owner was credited with: by the exact share, less the rounding of the index on
      the exposed stake, give or take less than one unit when the owner's own stake changes. */
  ghost predicate Moved(s: State, e: Entry, t: State, owner: Key) {
    var p, q := PositionOf(s.positions, owner), PositionOf(t.positions, owner);
    var change := (EarnedWeight(q, t.config.pool.acc) - EarnedWeight(p, s.config.pool.acc)) as real;
    var exact, room := SCALE * Share(s, e, t, owner), (SCALE - 1.0) * Touch(e, owner) as real;
    && exact - Exposure(s, e, t, owner) as real - room <= change <= exact + room
    && (p == FRESH_POSITION ==> change >= 0.0 && Share(s, e, t, owner) == 0.0 && Exposure(s, e, t, owner) == 0)
    && (p == FRESH_POSITION && Touch(e, owner) == 0 ==> q == FRESH_POSITION)
  }

  /** One inflow: the credited weight is below the exact share by less than one unit per staked token. */
  lemma InflowShare(amount: nat, x: nat, total: nat, rise: nat)
    requires total > 0 && rise == x * ACC_SCALE / total
    ensures var share := amount as real * x as real / total as real;
            SCALE * share - amount as real <= (amount * rise) as real <= SCALE * share
  {
    var a, r, exact := amount as real, rise as real, (x * ACC_SCALE) as real / total as real;
    FloorBelow(x * ACC_SCALE, total);
    Product(x, ACC_SCALE);
    Regroup(a, x as real, SCALE, total as real);
    Product(amount, rise);
    ScaleAtMost(r, exact, a);
    ScaleAtMost(exact, r + 1.0, a);
  }

  // ---------------------------------------------------------------- steps

  ghost predicate Raised(s: State, t: State, x: int) {
    && t.positions == s.positions
    && t.config.pool.stakerFunding == s.config.pool.stakerFunding + x
    && (x == 0 ==> t.config.pool.acc == s.config.pool.acc)
    && (x > 0 ==> s.config.pool.totalStaked > 0
                  && t.config.pool.acc == s.config.pool.acc + x * ACC_SCALE / s.config.pool.totalStaked)
  }

  lemma InflowWeight(p: Position, acc: nat, x: nat, total: nat)
    requires total > 0
    ensures var share := p.amount as real * x as real / total as real;
            var rise := EarnedWeight(p, acc + x * ACC_SCALE / total) - EarnedWeight(p, acc);
            SCALE * share - p.amount as real <= rise as real <= SCALE * share
  {
    var rise := x * ACC_SCALE / total;
    InflowShare(p.amount, x, total, rise);
    assert p.amount * (acc + rise) == p.amount * acc + p.amount * rise;
  }

  lemma NoShare(x: real, total: real)
    requires total > 0.0
    ensures 0.0 * x / total == 0.0
  {
  }

  lemma InflowMoves(s: State, e: Entry, t: State, owner: Key, x: nat)
    requires Raised(s, t, x) && Inflow(s, e, t) == x && Touch(e, owner) == 0
    ensures Moved(s, e, t, owner)
  {
    if x > 0 {
      var p, total := PositionOf(s.positions, owner), s.config.pool.totalStaked;
      InflowWeight(p, s.config.pool.acc, x, total);
      assert Share(s, e, t, owner) == p.amount as real * x as real / total as real;
      if p == FRESH_POSITION {
        NoShare(x as real, total as real);
      }
    }
  }

  /** An instruction of somebody else, or one that moves value between the owner's own fields. */
  lemma QuietMoves(s: State, e: Entry, t: State, owner: Key)
    requires Inflow(s, e, t) <= 0 && Touch(e, owner) == 0
    requires var p, q := PositionOf(s.positions, owner), PositionOf(t.positions, owner);
             && EarnedWeight(q, t.config.pool.acc) == EarnedWeight(p, s.config.pool.acc)
             && (p == FRESH_POSITION ==> q == FRESH_POSITION)
    ensures Moved(s, e, t, owner)
  {
  }

  lemma TouchMoves(s: State, e: Entry, t: State, owner: Key)
    requires Inflow(s, e, t) == 0 && Touch(e, owner) == 1
    requires var p, q, acc := PositionOf(s.positions, owner), PositionOf(t.positions, owner), s.config.pool.acc;
             && t.config.pool.acc == acc
             && EarnedWeight(q, acc) - EarnedWeight(p, acc) == Residue(q.amount, acc) - Residue(p.amount, acc)
    ensures Moved(s, e, t, owner)
  {
    var p, acc := PositionOf(s.positions, owner), s.config.pool.acc;
    assert p == FRESH_POSITION ==> Residue(p.amount, acc) == 0;
  }

  lemma SettleMoves(s: State, env: Env, signer: Key, amount: u64, t: State, owner: Key)
    requires SettleFundingSpec(s, env, signer, amount) == Ok(t)
    ensures Moved(s, Entry(Fund(SettleFunding(signer, amount)), env), t, owner)
  {
    var toBuffer := BufferShare(amount, s.config.pool.totalStaked, s.config.params.bufferShareBps).value;
    InflowMoves(s, Entry(Fund(SettleFunding(signer, amount)), env), t, owner, amount - toBuffer);
  }

  lemma StakeMoves(s: State, env: Env, who: Key, amount: u64, t: State, owner: Key)
    requires StakeSpec(s, env, who, amount) == Ok(t)
    ensures Moved(s, Entry(Fund(Stake(who, amount)), env), t, owner)
  {
    var e := Entry(Fund(Stake(who, amount)), env);
    if who == owner {
      var p, q, acc := PositionOf(s.positions, who), t.positions[who], s.config.pool.acc;
      AccrueNeutral(p, acc);
      RebaselineNeutral(AccrueSpec(p, acc).value, acc, q.amount, q.rewardDebt);
      TouchMoves(s, e, t, owner);
    } else {
      QuietMoves(s, e, t, owner);
    }
  }

  lemma RequestUnstakeMoves(s: State, env: Env, who: Key, amount: u64, t: State, owner: Key)
    requires RequestUnstakeSpec(s, env, who, amount) == Ok(t)
    ensures Moved(s, Entry(Fund(RequestUnstake(who, amount)), env), t, owner)
  {
    var e := Entry(Fund(RequestUnstake(who, amount)), env);
    if who == owner {
      var p, q, acc := s.positions[who], t.positions[who], s.config.pool.acc;
      AccrueNeutral(p, acc);
      RebaselineNeutral(AccrueSpec(p, acc).value, acc, q.amount, q.rewardDebt);
      TouchMoves(s, e, t, owner);
    } else {
      QuietMoves(s, e, t, owner);
    }
  }

  lemma UnstakeMoves(s: State, env: Env, who: Key, t: State, owner: Key)
    requires UnstakeSpec(s, env, who) == Ok(t)
    ensures Moved(s, Entry(Fund(Unstake(who)), env), t, owner)
  {
    QuietMoves(s, Entry(Fund(Unstake(who)), env), t, owner);
  }

  lemma ClaimMoves(s: State, env: Env, who: Key, t: State, owner: Key)
    requires ClaimFundingSpec(s, who) == Ok(t)
    ensures Moved(s, Entry(Fund(ClaimFunding(who)), env), t, owner)
  {
    AccrueNeutral(s.positions[who], s.config.pool.acc);
    QuietMoves(s, Entry(Fund(ClaimFunding(who)), env), t, owner);
  }

  lemma FundingMoves(s: State, e: Entry, t: State, owner: Key)
    requires e.call.Fund? && FundingStep(s, e.env, e.call.f) == Ok(t)
    ensures Moved(s, e, t, owner)
  {
    match e.call.f
    case SettleFunding(signer, amount) => SettleMoves(s, e.env, signer, amount, t, owner);
    case Stake(who, amount) => StakeMoves(s, e.env, who, amount, t, owner);
    case RequestUnstake(who, amount) => RequestUnstakeMoves(s, e.env, who, amount, t, owner);
    case Unstake(who) => UnstakeMoves(s, e.env, who, t, owner);
    case ClaimFunding(who) => ClaimMoves(s, e.env, who, t, owner);
  }

  lemma DrawMoves(s: State, env: Env, signer: Key, amount: u64, t: State, owner: Key)
    requires BufferWithdrawSpec(s, env, signer, amount) == Ok(t)
    ensures Moved(s, Entry(Reserve(BufferWithdraw(signer, amount)), env), t, owner)
  {
    InflowMoves(s, Entry(Reserve(BufferWithdraw(signer, amount)), env), t, owner, amount);
  }

  lemma BufferMoves(s: State, e: Entry, t: State, owner: Key)
    requires e.call.Reserve? && BufferStep(s, e.env, e.call.b) == Ok(t)
    ensures Moved(s, e, t, owner)
  {
    match e.call.b
    case BufferDeposit(depositor, amount) => QuietMoves(s, e, t, owner);
    case BufferWithdraw(signer, amount) => DrawMoves(s, e.env, signer, amount, t, owner);
  }

  lemma StepMoves(hash: Digest, s: State, e: Entry, t: State, owner: Key)
    requires Step(hash, s, e) == Ok(t)
    ensures Moved(s, e, t, owner)
  {
    if e.call.Fund? {
      FundingMoves(s, e, t, owner);
    } else if e.call.Reserve? {
      BufferMoves(s, e, t, owner);
    } else {
      StepFramed(hash, s, e, t);
      QuietMoves(s, e, t, owner);
    }
  }

  // ---------------------------------------------------------------- whole runs

  /** Bounds on the credited weight of a run from the start. */
  ghost predicate Tracks(s: State, owner: Key, a: Account) {
    var p := PositionOf(s.positions, owner);
    var w := EarnedWeight(p, s.config.pool.acc) as real;
    && w <= SCALE * a.fair + (SCALE - 1.0) * a.touches as real
    && (a.touches == 0 ==> p == FRESH_POSITION && a.fair == 0.0 && a.exposure == 0)
    && (a.touches > 0 ==>
          w >= SCALE * a.fair - a.exposure as real - (SCALE - 1.0) * (a.touches as real - 1.0))
  }

  lemma MovedTracks(s: State, e: Entry, t: State, owner: Key, a: Account)
    requires Tracks(s, owner, a) && Moved(s, e, t, owner)
    ensures Tracks(t, owner, Post(a, s, e, t, owner))
  {
    assert EarnedWeight(FRESH_POSITION, s.config.pool.acc) == 0;
  }

  /** Credited amount within one base unit per own stake change of the exact pro-rata sum, give or take the
      staked amount over SCALE for each inflow. */
  ghost predicate FairlyCredited(s: State, owner: Key, a: Account) {
    var earned := Earned(s, owner) as real;
    if a.touches == 0 then earned == 0.0 == a.fair
    else a.fair - a.exposure as real / SCALE - a.touches as real < earned < a.fair + a.touches as real
  }

  lemma Below(scale: real, earned: real, w: real, fair: real, n: real)
    requires scale > 1.0 && n >= 1.0
    requires scale * earned <= w <= scale * fair + (scale - 1.0) * n
    ensures earned < fair + n
  {
    assert scale * earned < scale * (fair + n);
  }

  lemma Above(scale: real, earned: real, w: real, fair: real, x: real, n: real)
    requires scale > 1.0 && n >= 1.0
    requires scale * fair - x - (scale - 1.0) * (n - 1.0) <= w < scale * earned + scale
    ensures fair - x / scale - n < earned
  {
    assert scale * (x / scale) == x;
    assert scale * (fair - x / scale - n) < scale * earned;
  }

  lemma TrackedIsFair(s: State, owner: Key, a: Account)
    requires Tracks(s, owner, a)
    ensures FairlyCredited(s, owner, a)
  {
    var p, acc := PositionOf(s.positions, owner), s.config.pool.acc;
    ScaleBounds(p.amount * acc);
    if a.touches > 0 {
      var earned, w := Earned(s, owner), EarnedWeight(p, acc);
      assert ACC_SCALE * earned <= w < ACC_SCALE * earned + ACC_SCALE;
      Product(ACC_SCALE, earned);
      Below(SCALE, earned as real, w as real, a.fair, a.touches as real);
      Above(SCALE, earned as real, w as real, a.fair, a.exposure as real, a.touches as real);
    }
  }

  lemma {:induction false} RunTracks(hash: Digest, s: State, run: seq<Entry>, owner: Key)
    requires Initial(s)
    ensures Tracks(Run(hash, s, run), owner, Book(hash, s, run, owner))
    decreases |run|
  {
    if run == [] {
      assert Entitlement(0, 0) == 0;
    } else {
      var prior, e := run[..|run| - 1], run[|run| - 1];
      RunTracks(hash, s, prior, owner);
      var before := Run(hash, s, prior);
      if Step(hash, before, e).Ok? {
        StepMoves(hash, before, e, Step(hash, before, e).value, owner);
        MovedTracks(before, e, Step(hash, before, e).value, owner, Book(hash, s, prior, owner));
      }
    }
  }

  /** Over any run, whatever anyone stakes, exits, claims or draws, the O(1) index credits every staker
      fairly. With one stake and no exit this is the bound for a position of constant stake. */
  lemma CreditedIsFair(hash: Digest, s: State, run: seq<Entry>, owner: Key)
    requires Initial(s)
    ensures FairlyCredited(Run(hash, s, run), owner, Book(hash, s, run, owner))
  {
    RunTracks(hash, s, run, owner);
    TrackedIsFair(Run(hash, s, run), owner, Book(hash, s, run, owner));
  }

  // ---------------------------------------------------------------- any stretch of a run

  /** The same from any state on, relative to what was credited before. */
  ghost predicate TracksFrom(s: State, t: State, owner: Key, a: Account) {
    var gained := EarnedWeight(PositionOf(t.positions, owner), t.config.pool.acc) as real
                  - EarnedWeight(PositionOf(s.positions, owner), s.config.pool.acc) as real;
    var room := (SCALE - 1.0) * a.touches as real;
    SCALE * a.fair - a.exposure as real - room <= gained <= SCALE * a.fair + room
  }

  lemma MovedTracksFrom(origin: State, s: State, e: Entry, t: State, owner: Key, a: Account)
    requires TracksFrom(origin, s, owner, a) && Moved(s, e, t, owner)
    ensures TracksFrom(origin, t, owner, Post(a, s, e, t, owner))
  {
  }

  lemma {:induction false} RunTracksFrom(hash: Digest, s: State, run: seq<Entry>, owner: Key)
    ensures TracksFrom(s, Run(hash, s, run), owner, Book(hash, s, run, owner))
    decreases |run|
  {
    if run != [] {
      var prior, e := run[..|run| - 1], run[|run| - 1];
      RunTracksFrom(hash, s, prior, owner);
      var before := Run(hash, s, prior);
      if Step(hash, before, e).Ok? {
        StepMoves(hash, before, e, Step(hash, before, e).value, owner);
        MovedTracksFrom(s, before, e, Step(hash, before, e).value, owner, Book(hash, s, prior, owner));
      }
    }
  }

  /** Credited within one base unit, and one more per own stake change, of the exact sum over the stretch, give or
      take the exposed stake over SCALE. */
  ghost predicate FairlyGained(s: State, t: State, owner: Key, a: Account) {
    var gained, slack := (Earned(t, owner) - Earned(s, owner)) as real, a.touches as real + 1.0;
    a.fair - a.exposure as real / SCALE - slack < gained < a.fair + slack
  }

  lemma Within(scale: real, before: real, after: real, wb: real, wa: real, fair: real, x: real, n: real)
    requires scale > 1.0 && n >= 0.0
    requires scale * before <= wb < scale * before + scale && scale * after <= wa < scale * after + scale
    requires scale * fair - x - (scale - 1.0) * n <= wa - wb <= scale * fair + (scale - 1.0) * n
    ensures fair - x / scale - (n + 1.0) < after - before < fair + (n + 1.0)
  {
    var q, gain := x / scale, after - before;
    Quotient(x, scale);
    Spread(scale, after, before);
    var high, low := fair + n + 1.0, fair - q - n - 1.0;
    assert (scale - 1.0) * n == scale * n - n;
    assert scale * high == scale * fair + scale * n + scale;
    assert scale * low == scale * fair - scale * q - scale * n - scale;
    Gap(scale * before, scale * after, wb, wa, scale * fair, scale * q, scale * n, n, scale);
    ScaledGap(scale, gain, high);
    ScaledGap(scale, low, gain);
  }

  lemma Gap(b: real, a: real, wb: real, wa: real, fair: real, x: real, sn: real, n: real, scale: real)
    requires b <= wb < b + scale && a <= wa < a + scale && n >= 0.0
    requires fair - x - (sn - n) <= wa - wb <= fair + (sn - n)
    ensures fair - x - sn - scale < a - b < fair + sn + scale
  {
  }

  lemma Spread(scale: real, a: real, b: real)
    ensures scale * (a - b) == scale * a - scale * b
  {
  }

  lemma ScaledGap(scale: real, a: real, b: real)
    requires scale > 0.0
    ensures scale * a < scale * b ==> a < b
  {
    if scale * a < scale * b {
      assert a * scale == scale * a && b * scale == scale * b;
      CancelLess(a, b, scale);
    }
  }

  /** Over any stretch of any run, from whatever state it starts in. Without a stake change of the owner this is
      the bound for a constant stake. */
  lemma StretchIsFair(hash: Digest, s: State, run: seq<Entry>, owner: Key)
    ensures FairlyGained(s, Run(hash, s, run), owner, Book(hash, s, run, owner))
  {
    RunTracksFrom(hash, s, run, owner);
    TrackedFromIsFair(s, Run(hash, s, run), owner, Book(hash, s, run, owner));
  }

  lemma EarnedBelowWeight(s: State, owner: Key)
    ensures var w := EarnedWeight(PositionOf(s.positions, owner), s.config.pool.acc) as real;
            SCALE * Earned(s, owner) as real <= w < SCALE * Earned(s, owner) as real + SCALE
  {
    var p, acc := PositionOf(s.positions, owner), s.config.pool.acc;
    ScaleBounds(p.amount * acc);
    Product(ACC_SCALE, Earned(s, owner));
  }

  lemma TrackedFromIsFair(s: State, t: State, owner: Key, a: Account)
    requires TracksFrom(s, t, owner, a)
    ensures FairlyGained(s, t, owner, a)
  {
    EarnedBelowWeight(s, owner);
    EarnedBelowWeight(t, owner);
    Within(SCALE, Earned(s, owner) as real, Earned(t, owner) as real,
           EarnedWeight(PositionOf(s.positions, owner), s.config.pool.acc) as real,
           EarnedWeight(PositionOf(t.positions, owner), t.config.pool.acc) as real,
           a.fair, a.exposure as real, a.touches as real);
  }
}
