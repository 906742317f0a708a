/** Per-keeper bookkeeping and the active flag, over whole runs. */
module KeeperLedger {
  import opened Checked
  import opened Accounts
  import opened Oracle
  import opened MapSums
  import opened Proof
  import opened Protocol
  import opened Frames
  import opened Keepers
  import opened Ledger
  import TokenLedger

  function Deposited(keeper: Key): Measure {
    (before: State, e: Entry, after: State) =>
      if e.call.Bonding? && e.call.k.keeper == keeper && (e.call.k.Register? || e.call.k.AddBond?)
      then e.call.k.amount else 0
  }

  function Withdrawn(keeper: Key): Measure {
    (before: State, e: Entry, after: State) =>
      if e.call.Bonding? && e.call.k.keeper == keeper && e.call.k.Unbond? then e.call.k.amount else 0
  }

  function SlashedFrom(keeper: Key): Measure {
    (before: State, e: Entry, after: State) =>
      if e.call.Bonding? && e.call.k.keeper == keeper && e.call.k.Slash? then e.call.k.amount else 0
  }

  /** What a bonding call does to the bond of the keeper it names. */
  lemma BondingMoves(s: State, env: Env, c: KeeperCall, t: State)
    requires KeeperStep(s, env, c) == Ok(t)
    ensures c.keeper in t.keepers && t.keepers == s.keepers[c.keeper := t.keepers[c.keeper]]
    ensures t.keepers[c.keeper].bonded == ValueAt(s.keepers, c.keeper, BondedOf)
                                          + (if c.Register? || c.AddBond? then c.amount else 0)
                                          - (if c.Unbond? || c.Slash? then c.amount else 0)
    ensures t.keepers[c.keeper].slashed == ValueAt(s.keepers, c.keeper, SlashedOf) + (if c.Slash? then c.amount else 0)
  {
    match c
    case Register(_, _) =>
    case AddBond(_, _) =>
    case Unbond(_, _) =>
    case Slash(_, _, _, _, _) =>
  }

  lemma StepBondFlow(hash: Digest, s: State, e: Entry, t: State, keeper: Key)
    requires Step(hash, s, e) == Ok(t)
    ensures ValueAt(t.keepers, keeper, BondedOf)
            == ValueAt(s.keepers, keeper, BondedOf) + Deposited(keeper)(s, e, t) - Withdrawn(keeper)(s, e, t)
               - SlashedFrom(keeper)(s, e, t)
    ensures ValueAt(t.keepers, keeper, SlashedOf)
            == ValueAt(s.keepers, keeper, SlashedOf) + SlashedFrom(keeper)(s, e, t)
  {
    if e.call.Bonding? {
      BondingMoves(s, e.env, e.call.k, t);
    } else if e.call.Commit? {
      CommitCredits(hash, s, e.env, e.call.keeper, e.call.claim, t);
    } else {
      StepFramed(hash, s, e, t);
    }
  }

  /** Whatever a keeper ever deposited is still bonded, was slashed or was withdrawn, and the slashed counter
      is the sum of the slashes. */
  lemma {:induction false} BondAccounted(hash: Digest, s: State, run: seq<Entry>, keeper: Key)
    requires Initial(s)
    ensures var t := Run(hash, s, run);
            && Tally(hash, s, run, Deposited(keeper))
               == ValueAt(t.keepers, keeper, BondedOf) + ValueAt(t.keepers, keeper, SlashedOf)
                  + Tally(hash, s, run, Withdrawn(keeper))
            && ValueAt(t.keepers, keeper, SlashedOf) == Tally(hash, s, run, SlashedFrom(keeper))
    decreases |run|
  {
    if run != [] {
      var prior, e := run[..|run| - 1], run[|run| - 1];
      BondAccounted(hash, s, prior, keeper);
      var before := Run(hash, s, prior);
      if Step(hash, before, e).Ok? {
        StepBondFlow(hash, before, e, Step(hash, before, e).value, keeper);
      }
    }
  }

  // ---------------------------------------------------------------- the active flag

  /** No call of the run changed the minimum bond. */
  ghost predicate MinimumKept(hash: Digest, s: State, run: seq<Entry>) {
    run != [] ==>
      && MinimumKept(hash, s, run[..|run| - 1])
      && Run(hash, s, run).config.params.minKeeperBond == s.config.params.minKeeperBond
  }

  ghost predicate ActiveMeansBonded(s: State) {
    forall k :: k in s.keepers ==> (s.keepers[k].active <==> s.keepers[k].bonded >= s.config.params.minKeeperBond)
  }

  lemma BondingSetsActive(s: State, env: Env, c: KeeperCall, t: State)
    requires KeeperStep(s, env, c) == Ok(t)
    ensures c.keeper in t.keepers && t.keepers == s.keepers[c.keeper := t.keepers[c.keeper]]
    ensures t.keepers[c.keeper].active <==> t.keepers[c.keeper].bonded >= s.config.params.minKeeperBond
    ensures t.config.params == s.config.params
  {
  }

  lemma StepActive(hash: Digest, s: State, e: Entry, t: State)
    requires ActiveMeansBonded(s) && Step(hash, s, e) == Ok(t)
    requires t.config.params.minKeeperBond == s.config.params.minKeeperBond
    ensures ActiveMeansBonded(t)
  {
    if e.call.Bonding? {
      BondingSetsActive(s, e.env, e.call.k, t);
    } else if e.call.Commit? {
      CommitCredits(hash, s, e.env, e.call.keeper, e.call.claim, t);
    } else {
      StepFramed(hash, s, e, t);
    }
  }

  lemma {:induction false} RunActive(hash: Digest, s: State, run: seq<Entry>)
    requires Initial(s) && MinimumKept(hash, s, run)
    ensures ActiveMeansBonded(Run(hash, s, run))
    decreases |run|
  {
    if run != [] {
      var prior, e := run[..|run| - 1], run[|run| - 1];
      RunActive(hash, s, prior);
      var before := Run(hash, s, prior);
      if Step(hash, before, e).Ok? {
        StepActive(hash, before, e, Step(hash, before, e).value);
      }
    }
  }

  function FullyBonded(minimum: nat): Keeper -> int {
    (k: Keeper) => if k.bonded >= minimum then 1 else 0
  }

  lemma {:induction false} SumsAgree(m: map<Key, Keeper>, f: Keeper -> int, g: Keeper -> int)
    requires forall k :: k in m ==> f(m[k]) == g(m[k])
    ensures Sum(m, f) == Sum(m, g)
    decreases |m|
  {
    if |m| != 0 {
      var k := Pick(m);
      SumsAgree(m - {k}, f, g);
    }
  }

  /** While the minimum bond stays what it was, a keeper is active exactly when it holds the minimum, and
      `keeper_count` is the number of such keepers. */
  lemma ActiveKeepersCounted(hash: Digest, s: State, run: seq<Entry>)
    requires Initial(s) && MinimumKept(hash, s, run)
    ensures ActiveMeansBonded(Run(hash, s, run))
    ensures var t := Run(hash, s, run);
            t.config.bonds.keeperCount == Sum(t.keepers, FullyBonded(t.config.params.minKeeperBond))
  {
    RunActive(hash, s, run);
    LedgerBalanced(hash, s, run);
    var t := Run(hash, s, run);
    SumsAgree(t.keepers, ActiveOf, FullyBonded(t.config.params.minKeeperBond));
  }

  /** Deactivating an active keeper never meets a zero count, so the saturating decrement is exact. */
  lemma CountNeverSaturates(hash: Digest, s: State, run: seq<Entry>, keeper: Key)
    requires Initial(s) && keeper in Run(hash, s, run).keepers && Run(hash, s, run).keepers[keeper].active
    ensures Run(hash, s, run).config.bonds.keeperCount > 0
  {
    LedgerBalanced(hash, s, run);
    SumAtLeast(Run(hash, s, run).keepers, keeper, ActiveOf);
  }

  // ---------------------------------------------------------------- attestations

  /** The keeper that signs an attesting call. */
  function Attester(c: Call): Option<Key> {
    if c.Issue? && c.m.ConfirmMint? then Some(c.m.keeper)
    else if c.Exit? && c.r.ConfirmRedeem? then Some(c.r.keeper)
    else if c.Commit? then Some(c.keeper)
    else None
  }

  lemma AttesterBonded(hash: Digest, s: State, e: Entry, t: State)
    requires Step(hash, s, e) == Ok(t) && Attester(e.call).Some?
    ensures var k := Attester(e.call).value;
            k in s.keepers && s.keepers[k].active && s.config.params.minKeeperBond <= s.keepers[k].bonded
  {
  }

  /** Whoever attests a fill, an unwind or a proof has at least the minimum bond in the vault, to be slashed. */
  ghost predicate Slashable(s: State, k: Key) {
    && k in s.keepers && s.keepers[k].active
    && s.config.params.minKeeperBond <= s.keepers[k].bonded
       <= TokenLedger.Balance(s.tokens.bond, TokenLedger.BondVault)
  }

  lemma BondsHeld(s: State, k: Key, g: Gifts)
    requires BondPart(s, g) && k in s.keepers
    ensures s.keepers[k].bonded <= TokenLedger.Balance(s.tokens.bond, TokenLedger.BondVault)
  {
    SumAtLeast(s.keepers, k, BondedOf);
  }

  lemma AttestationsSlashable(hash: Digest, s: State, run: seq<Entry>, e: Entry)
    requires Initial(s) && Attester(e.call).Some? && Step(hash, Run(hash, s, run), e).Ok?
    ensures Slashable(Run(hash, s, run), Attester(e.call).value)
  {
    var t, k := Run(hash, s, run), Attester(e.call).value;
    LedgerBalanced(hash, s, run);
    AttesterBonded(hash, t, e, Step(hash, t, e).value);
    BondsHeld(t, k, GiftsOver(hash, s, run));
  }

  // ---------------------------------------------------------------- the unbonding cooldown

  /** When the keeper last committed a proof in the run, 0 if never. */
  ghost function LastCommit(hash: Digest, s: State, run: seq<Entry>, keeper: Key): int {
    if run == [] then 0 else
    var prior, e := run[..|run| - 1], run[|run| - 1];
    if e.call.Commit? && e.call.keeper == keeper && Step(hash, Run(hash, s, prior), e).Ok? then e.env.now
    else LastCommit(hash, s, prior, keeper)
  }

  function LastProofOf(k: Keeper): int {
    k.lastProofAt
  }

  lemma StepLastProof(hash: Digest, s: State, e: Entry, t: State, keeper: Key)
    requires Step(hash, s, e) == Ok(t)
    ensures ValueAt(t.keepers, keeper, LastProofOf)
            == if e.call.Commit? && e.call.keeper == keeper then e.env.now else ValueAt(s.keepers, keeper, LastProofOf)
  {
    StepFramed(hash, s, e, t);
    if e.call.Bonding? {
      BondingKeepsProofs(s, e.env, e.call.k, t, keeper);
    }
  }

  lemma BondingKeepsProofs(s: State, env: Env, c: KeeperCall, t: State, keeper: Key)
    requires KeeperStep(s, env, c) == Ok(t)
    ensures ValueAt(t.keepers, keeper, LastProofOf) == ValueAt(s.keepers, keeper, LastProofOf)
  {
  }

  lemma {:induction false} LastProofTracked(hash: Digest, s: State, run: seq<Entry>, keeper: Key)
    requires Initial(s)
    ensures ValueAt(Run(hash, s, run).keepers, keeper, LastProofOf) == LastCommit(hash, s, run, keeper)
    decreases |run|
  {
    if run != [] {
      var prior, e := run[..|run| - 1], run[|run| - 1];
      LastProofTracked(hash, s, prior, keeper);
      var before := Run(hash, s, prior);
      if Step(hash, before, e).Ok? {
        StepLastProof(hash, before, e, Step(hash, before, e).value, keeper);
      }
    }
  }

  lemma UnbondWaits(s: State, env: Env, keeper: Key, amount: u64)
    requires KeeperUnbondSpec(s, env, keeper, amount).Ok?
    ensures var last := ValueAt(s.keepers, keeper, LastProofOf);
            last > 0 ==> last + s.config.params.unbondCooldownSec <= env.now
    ensures keeper in s.keepers
            && (amount == s.keepers[keeper].bonded
                || amount + s.config.params.minKeeperBond <= s.keepers[keeper].bonded)
  {
  }

  /** A keeper withdraws bond only after the cooldown since its last proof, and never keeps a partial bond. */
  lemma UnbondAfterCooldown(hash: Digest, s: State, run: seq<Entry>, env: Env, keeper: Key, amount: u64)
    requires Initial(s) && Step(hash, Run(hash, s, run), Entry(Bonding(Unbond(keeper, amount)), env)).Ok?
    ensures var t, last := Run(hash, s, run), LastCommit(hash, s, run, keeper);
            && (last > 0 ==> last + t.config.params.unbondCooldownSec <= env.now)
            && keeper in t.keepers
            && (amount == t.keepers[keeper].bonded
                || amount + t.config.params.minKeeperBond <= t.keepers[keeper].bonded)
  {
    LastProofTracked(hash, s, run, keeper);
    UnbondWaits(Run(hash, s, run), env, keeper, amount);
  }
}
