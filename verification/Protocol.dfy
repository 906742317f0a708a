/** The whole program as one state machine: a call succeeds with the handler's effect or reverts. */
module Protocol {
  import opened Checked
  import opened TokenLedger
  import opened Accounts
  import opened Oracle
  import opened Proof
  import opened MapSums
  import opened Funding
  import opened Buffer
  import opened Mint
  import opened Redeem
  import opened Keepers
  import opened Admin

  datatype MintKind = CollateralToken | SyntheticToken | BondToken

  /** A token transfer by a holder is not a program instruction; sent to a vault it is a donation. */
  datatype Call =
    | Fund(f: FundingCall)
    | Reserve(b: BufferCall)
    | Issue(m: MintCall)
    | Exit(r: RedeemCall)
    | Commit(keeper: Key, claim: Claim)
    | Bonding(k: KeeperCall)
    | Govern(a: AdminCall)
    | Send(from: Key, to: Holder, kind: MintKind, amount: u64)

  datatype Entry = Entry(call: Call, env: Env)

  function TokenTransferSpec(s: State, from: Key, to: Holder, kind: MintKind, amount: u64): Result<State> {
    match kind
    case CollateralToken =>
      var b :- Transfer(s.tokens.collateral, User(from), to, amount);
      Ok(s.(tokens := s.tokens.(collateral := b)))
    case SyntheticToken =>
      var b :- Transfer(s.tokens.synthetic, User(from), to, amount);
      Ok(s.(tokens := s.tokens.(synthetic := b)))
    case BondToken =>
      var b :- Transfer(s.tokens.bond, User(from), to, amount);
      Ok(s.(tokens := s.tokens.(bond := b)))
  }

  function Step(hash: Digest, s: State, e: Entry): Result<State> {
    match e.call
    case Fund(f) => FundingStep(s, e.env, f)
    case Reserve(b) => BufferStep(s, e.env, b)
    case Issue(m) => MintStep(s, e.env, m)
    case Exit(r) => RedeemStep(s, e.env, r)
    case Commit(keeper, claim) => CommitProofSpec(hash, s, e.env, keeper, claim)
    case Bonding(k) => KeeperStep(s, e.env, k)
    case Govern(a) => AdminStep(s, e.env, a)
    case Send(from, to, kind, amount) => TokenTransferSpec(s, from, to, kind, amount)
  }

  /** A failed instruction leaves every account as it was. */
  function Exec(hash: Digest, s: State, e: Entry): State {
    var r := Step(hash, s, e);
    if r.Ok? then r.value else s
  }

  /** The state after any sequence of calls, failed ones included. */
  function Run(hash: Digest, s: State, run: seq<Entry>): State {
    if run == [] then s else Exec(hash, Run(hash, s, run[..|run| - 1]), run[|run| - 1])
  }

  /** A freshly initialised protocol: bounded parameters, nothing booked, vaults empty. */
  ghost predicate Initial(s: State) {
    && Admin.ValidParams(s.config.params)
    && s.config.collateralDecimals <= MAX_MINT_DECIMALS && s.config.syntheticDecimals <= MAX_MINT_DECIMALS
    && s.config.book == Book(0, 0, 0, 0, 0)
    && s.config.pool == Pool(0, 0, 0, 0, 0)
    && s.config.bonds == Bonds(0, 0, 0)
    && s.config.chain == Chain(0, 0, ZERO_HASH)
    && s.config.venue == Venue(0, 0, 0, 0, 0)
    && s.config.gates == Gates(true, true, 0)
    && s.positions == map[] && s.keepers == map[] && s.mints == map[] && s.redeems == map[] && s.proofs == map[]
    && UsersOnly(s.tokens.collateral) && UsersOnly(s.tokens.synthetic) && UsersOnly(s.tokens.bond)
    && Held(s.tokens.synthetic) == s.tokens.syntheticSupply <= U64_MAX
  }

  /** Everything all holders and vaults hold. */
  ghost function Held(b: Balances): int {
    Sum<Holder, int>(b, AmountOf)
  }

  function AmountOf(n: int): int {
    n
  }

  ghost predicate UsersOnly(b: Balances) {
    forall h :: h in b ==> h.User?
  }

  /** What a successful call contributes, given the state before, the call and the state after. */
  type Measure = (State, Entry, State) -> int

  /** Sum over the successful calls of a run. */
  ghost function Tally(hash: Digest, s: State, run: seq<Entry>, f: Measure): int {
    if run == [] then 0 else
    var before := Run(hash, s, run[..|run| - 1]);
    var r := Step(hash, before, run[|run| - 1]);
    Tally(hash, s, run[..|run| - 1], f) + if r.Ok? then f(before, run[|run| - 1], r.value) else 0
  }

  /** Every successful call of a run passes the guard in the state it meets. */
  ghost predicate Along(hash: Digest, s: State, run: seq<Entry>, guard: (State, Entry) -> bool) {
    run == [] ||
    var prior, e := run[..|run| - 1], run[|run| - 1];
    && Along(hash, s, prior, guard)
    && (Step(hash, Run(hash, s, prior), e).Ok? ==> guard(Run(hash, s, prior), e))
  }

  ghost predicate KeptByStep(hash: Digest, f: Measure, guard: (State, Entry) -> bool, kept: (State, int) -> bool) {
    forall s, e, n :: kept(s, n) && Step(hash, s, e).Ok? && guard(s, e) ==>
                        kept(Step(hash, s, e).value, n + f(s, e, Step(hash, s, e).value))
  }

  /** What every guarded step keeps, of the state and a tally, holds after every guarded run. */
  lemma {:induction false} KeptAlong(
    hash: Digest, s: State, run: seq<Entry>, f: Measure, guard: (State, Entry) -> bool, kept: (State, int) -> bool)
    requires kept(s, 0) && Along(hash, s, run, guard) && KeptByStep(hash, f, guard, kept)
    ensures kept(Run(hash, s, run), Tally(hash, s, run, f))
    decreases |run|
  {
    if run != [] {
      KeptAlong(hash, s, run[..|run| - 1], f, guard, kept);
    }
  }

  /** The condition holds before a run and after each of its calls. */
  ghost predicate Throughout(hash: Digest, s: State, run: seq<Entry>, good: State -> bool) {
    good(Run(hash, s, run)) && (run != [] ==> Throughout(hash, s, run[..|run| - 1], good))
  }

  /** In a good state the guard tells beforehand whether a successful call leaves a good state. */
  ghost predicate Decides(hash: Digest, guard: (State, Entry) -> bool, good: State -> bool) {
    forall s, e :: good(s) && Step(hash, s, e).Ok? ==> (guard(s, e) <==> good(Step(hash, s, e).value))
  }

  /** A condition holds throughout a run exactly when every successful call of the run passes its guard. */
  lemma {:induction false} ThroughoutExactly(
    hash: Digest, s: State, run: seq<Entry>, guard: (State, Entry) -> bool, good: State -> bool)
    requires good(s) && Decides(hash, guard, good)
    ensures Throughout(hash, s, run, good) <==> Along(hash, s, run, guard)
    decreases |run|
  {
    if run != [] {
      ThroughoutExactly(hash, s, run[..|run| - 1], guard, good);
    }
  }
}
