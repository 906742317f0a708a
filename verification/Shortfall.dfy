/** Exact solvency is false of the program: a reachable state that owes the stakers more than it holds. */
module Shortfall {
  import opened Checked
  import opened FixedPoint
  import opened TokenLedger
  import opened Accounts
  import opened Oracle
  import opened MapSums
  import opened Proof
  import opened Protocol
  import opened Funding
  import opened Admin
  import opened Solvency
  import Ledger
  import Rates

  function Person(n: u8): Key {
    Key([n, 0, 0, 0, 0, 0, 0, 0] + ZERO_8 + ZERO_8 + ZERO_8)
  }

  lemma PeopleDiffer(m: u8, n: u8)
    requires m != n
    ensures Person(m) != Person(n)
  {
    assert Person(m).bytes[0] == m && Person(n).bytes[0] == n;
  }

  /** Bounded parameters; the whole settlement goes to the stakers. */
  const PARAMS: Params := Params(60, 60, 0, 0, 0, 0, 60, 1, 1_000_000, 1_000_000, 0, 100, 10_000, 0, 0, 500, 100, 1_000,
                                 100, 0, 10_000, 10_000, 2)

  const WALLETS: Balances :=
    Credit(Credit(Credit(Credit(map[], User(Person(0)), 4), User(Person(1)), 3),
                  User(Person(2)), 1), User(Person(3)), 1)

  /** Person 0 governs and settles, persons 1, 2 and 3 stake; person 1 has collateral, person 2 bond tokens. */
  const START: State := State(
    Config(Person(9), Person(0), Person(0), 6, 6, PARAMS, Book(0, 0, 0, 0, 0), Pool(0, 0, 0, 0, 0), Bonds(0, 0, 0),
           Chain(0, 0, ZERO_HASH), Venue(0, 0, 0, 0, 0), Gates(true, true, 0)),
    Tokens(Credit(map[], User(Person(1)), 100), WALLETS, Credit(map[], User(Person(2)), 5), 9),
    map[], map[], map[], map[], map[])

  const ENV: Env := Env(1, 1, PriceUpdate(1, 0, 0, 1, 1))

  lemma StartIsInitial()
    ensures Initial(START)
  {
    assert ValidParams(PARAMS) by { assert 2 & !VENUE_FLAGS_MASK == 0; }
    Ledger.Credited(map[], User(Person(0)), 4);
    var one := Credit(map[], User(Person(0)), 4);
    Ledger.Credited(one, User(Person(1)), 3);
    var two := Credit(one, User(Person(1)), 3);
    Ledger.Credited(two, User(Person(2)), 1);
    Ledger.Credited(Credit(two, User(Person(2)), 1), User(Person(3)), 1);
    PeopleDiffer(0, 1);
    PeopleDiffer(0, 2);
    PeopleDiffer(0, 3);
    PeopleDiffer(1, 2);
    PeopleDiffer(1, 3);
    PeopleDiffer(2, 3);
  }

  /** One more call. */
  lemma OneMore(hash: Digest, s: State, prior: seq<Entry>, e: Entry) returns (run: seq<Entry>)
    ensures Run(hash, s, run) == Exec(hash, Run(hash, s, prior), e)
  {
    run := prior + [e];
    assert run[..|run| - 1] == prior;
  }

  // ---------------------------------------------------------------- opening the protocol

  function Vault(g: VaultGroup): Entry {
    Entry(Govern(InitVaults(Person(0), g)), ENV)
  }

  const UNPAUSE: Entry := Entry(Govern(SetPaused(Person(0), false, false)), ENV)

  /** The start state with open gates, a pool and positions. */
  ghost predicate Staged(s: State, pool: Pool, positions: map<Key, Position>) {
    && s.config == START.config.(gates := Gates(false, false, VAULT_FLAGS_ALL), pool := pool)
    && s.positions == positions
  }

  function Flagged(flags: bv8): State {
    START.(config := START.config.(gates := Gates(true, true, flags)))
  }

  lemma FlagSet(hash: Digest, flags: bv8, g: VaultGroup)
    requires flags & VaultFlag(g) == 0
    ensures Exec(hash, Flagged(flags), Vault(g)) == Flagged(flags | VaultFlag(g))
  {
  }

  /** The start state with all vault groups, unpaused. */
  const OPENED: State := START.(config := START.config.(gates := Gates(false, false, VAULT_FLAGS_ALL)))

  lemma Opens(hash: Digest) returns (run: seq<Entry>)
    ensures Run(hash, START, run) == OPENED
  {
    run := [];
    run := OneMore(hash, START, run, Vault(CollateralGroup));
    FlagSet(hash, 0, CollateralGroup);
    assert Flagged(0) == START;
    run := OneMore(hash, START, run, Vault(BondGroup));
    FlagSet(hash, 1, BondGroup);
    run := OneMore(hash, START, run, Vault(FundingGroup));
    FlagSet(hash, 3, FundingGroup);
    run := OneMore(hash, START, run, Vault(StakeGroup));
    FlagSet(hash, 7, StakeGroup);
    run := OneMore(hash, START, run, UNPAUSE);
    Unpaused(hash);
  }

  lemma Unpaused(hash: Digest)
    ensures Exec(hash, Flagged(15), UNPAUSE) == OPENED
  {
  }

  // ---------------------------------------------------------------- staking and settling

  function Purse(s: State, n: u8): nat {
    Balance(s.tokens.synthetic, User(Person(n)))
  }

  ghost predicate Paid(s: State, t: State, payer: u8, amount: int) {
    forall n: u8 :: Purse(t, n) == Purse(s, n) - if n == payer then amount else 0
  }

  lemma PaidBy(s: State, t: State, payer: u8, vault: Holder, amount: nat)
    requires !vault.User?
    requires Transfer(s.tokens.synthetic, User(Person(payer)), vault, amount) == Ok(t.tokens.synthetic)
    ensures Paid(s, t, payer, amount)
  {
    forall n: u8
      ensures Purse(t, n) == Purse(s, n) - if n == payer then amount else 0
    {
      if n != payer {
        PeopleDiffer(n, payer);
      }
    }
  }

  function StakeCall(n: u8, amount: u64): Entry {
    Entry(Fund(Stake(Person(n), amount)), ENV)
  }

  function SettleCall(amount: u64): Entry {
    Entry(Fund(SettleFunding(Person(0), amount)), ENV)
  }

  /** A first stake is recorded at the floored entitlement of the current index. */
  lemma FirstStake(hash: Digest, s: State, n: u8, amount: u64, pool: Pool, positions: map<Key, Position>)
    requires Staged(s, pool, positions) && Person(n) !in positions && 0 < amount <= 10 && amount <= Purse(s, n)
    requires pool.acc <= 2 * ACC_SCALE && pool.totalStaked <= 10
    ensures var t := Exec(hash, s, StakeCall(n, amount));
            && Staged(t, pool.(totalStaked := pool.totalStaked + amount),
                      positions[Person(n) := Position(amount, Entitlement(amount, pool.acc), 0, 0, 0, 0, 1)])
            && Paid(s, t, n, amount)
  {
    assert amount * pool.acc <= 10 * (2 * ACC_SCALE);
    var t := StakeSpec(s, ENV, Person(n), amount);
    PaidBy(s, t.value, n, StakeVault, amount);
  }

  function Settled(pool: Pool, amount: u64): Pool
    requires amount <= 10 && 0 < pool.totalStaked && pool.stakerFunding <= 10 && pool.acc <= 2 * ACC_SCALE
  {
    pool.(acc := pool.acc + amount * ACC_SCALE / pool.totalStaked,
    stakerFunding := pool.stakerFunding + amount, lastSettleAt := 1)
  }

  lemma SettlesAt(s: State, amount: u64, pool: Pool, positions: map<Key, Position>)
    requires Staged(s, pool, positions) && 0 < amount <= 10 && 0 < pool.totalStaked && pool.stakerFunding <= 10
    requires pool.acc <= 2 * ACC_SCALE && amount <= Purse(s, 0)
    ensures var t := SettleFundingSpec(s, ENV, Person(0), amount);
            && t.Ok?
            && Staged(t.value, Settled(pool, amount), positions)
            && Transfer(s.tokens.synthetic, User(Person(0)), FundingVault, amount) == Ok(t.value.tokens.synthetic)
  {
    Rates.QuotientFits(amount * ACC_SCALE, pool.totalStaked);
    assert BufferShare(amount, pool.totalStaked, 0) == Ok(0);
    assert CreditStakers(pool, amount).Ok?;
  }

  /** With a zero buffer share every settled unit raises the index. */
  lemma Settlement(hash: Digest, s: State, amount: u64, pool: Pool, positions: map<Key, Position>)
    requires Staged(s, pool, positions) && 0 < amount <= 10 && 0 < pool.totalStaked && pool.stakerFunding <= 10
    requires pool.acc <= 2 * ACC_SCALE && amount <= Purse(s, 0)
    ensures var t := Exec(hash, s, SettleCall(amount));
            Staged(t, Settled(pool, amount), positions) && Paid(s, t, 0, amount)
  {
    SettlesAt(s, amount, pool, positions);
    PaidBy(s, SettleFundingSpec(s, ENV, Person(0), amount).value, 0, FundingVault, amount);
  }

  // ---------------------------------------------------------------- the run

  function Holding(amount: u64, debt: u128): Position {
    Position(amount, debt, 0, 0, 0, 0, 1)
  }

  const ONE: map<Key, Position> := map[][Person(1) := Holding(3, 0)]
  const TWO: map<Key, Position> := ONE[Person(2) := Holding(1, 0)]
  const THREE: map<Key, Position> := TWO[Person(3) := Holding(1, 0)]

  lemma FirstHalf(hash: Digest, s: State)
    requires Staged(s, Pool(0, 0, 0, 0, 0), map[]) && Purse(s, 1) == 3 && Purse(s, 0) == 4
    ensures var t := Exec(hash, Exec(hash, s, StakeCall(1, 3)), SettleCall(2));
            Staged(t, Pool(666_666_666_666, 3, 2, 0, 1), ONE) && Purse(t, 0) == 2
            && Purse(t, 2) == Purse(s, 2) && Purse(t, 3) == Purse(s, 3)
  {
    FirstStake(hash, s, 1, 3, Pool(0, 0, 0, 0, 0), map[]);
    var staked := Exec(hash, s, StakeCall(1, 3));
    Settlement(hash, staked, 2, Pool(0, 3, 0, 0, 0), ONE);
  }

  /** Two one-unit stakes at a fractional index, and a second settlement. */
  lemma SecondHalf(hash: Digest, s: State)
    requires Staged(s, Pool(666_666_666_666, 3, 2, 0, 1), ONE)
    requires Purse(s, 0) == 2 && Purse(s, 2) == 1 && Purse(s, 3) == 1
    ensures var t := Exec(hash, Exec(hash, Exec(hash, s, StakeCall(2, 1)), StakeCall(3, 1)), SettleCall(2));
            Staged(t, Pool(1_066_666_666_666, 5, 4, 0, 1), THREE)
  {
    PeopleDiffer(1, 2);
    PeopleDiffer(1, 3);
    PeopleDiffer(2, 3);
    FirstStake(hash, s, 2, 1, Pool(666_666_666_666, 3, 2, 0, 1), ONE);
    var s2 := Exec(hash, s, StakeCall(2, 1));
    FirstStake(hash, s2, 3, 1, Pool(666_666_666_666, 4, 2, 0, 1), TWO);
    var s3 := Exec(hash, s2, StakeCall(3, 1));
    Settlement(hash, s3, 2, Pool(666_666_666_666, 5, 2, 0, 1), THREE);
  }

  lemma ThreeOwed()
    ensures Sum(THREE, OwedAt(1_066_666_666_666)) == 5
  {
    var f := OwedAt(1_066_666_666_666);
    PeopleDiffer(1, 2);
    PeopleDiffer(1, 3);
    PeopleDiffer(2, 3);
    SumUpdate(map[], Person(1), Holding(3, 0), f);
    SumUpdate(ONE, Person(2), Holding(1, 0), f);
    SumUpdate(TWO, Person(3), Holding(1, 0), f);
    assert f(Holding(3, 0)) == 3 && f(Holding(1, 0)) == 1;
  }

  ghost predicate OwesMoreThanItHolds(s: State) {
    Sum(s.positions, OwedAt(s.config.pool.acc)) == 5 && s.config.pool.stakerFunding == 4
  }

  /** Three units are staked and two settled; two single units join and two more are settled. The stakers are
      now owed 5 while the program holds 4 for them. */
  lemma ExactSolvencyFails(hash: Digest) returns (run: seq<Entry>)
    ensures Initial(START) && OwesMoreThanItHolds(Run(hash, START, run))
  {
    StartIsInitial();
    PeopleDiffer(0, 1);
    PeopleDiffer(0, 2);
    PeopleDiffer(0, 3);
    PeopleDiffer(1, 2);
    PeopleDiffer(1, 3);
    PeopleDiffer(2, 3);
    run := Opens(hash);
    var open := Run(hash, START, run);
    FirstHalf(hash, open);
    run := OneMore(hash, START, run, StakeCall(1, 3));
    run := OneMore(hash, START, run, SettleCall(2));
    SecondHalf(hash, Run(hash, START, run));
    run := OneMore(hash, START, run, StakeCall(2, 1));
    run := OneMore(hash, START, run, StakeCall(3, 1));
    run := OneMore(hash, START, run, SettleCall(2));
    ThreeOwed();
  }
}
