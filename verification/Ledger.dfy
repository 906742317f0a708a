/** Every counter against the vault it counts and the accounts it sums, over all instructions. */
module Ledger {
  import opened Checked
  import opened TokenLedger
  import opened Accounts
  import opened Oracle
  import opened MapSums
  import opened Proof
  import opened Protocol
  import opened Frames
  import opened Effects
  import opened Funding
  import opened Buffer
  import opened Mint
  import opened Redeem
  import opened Keepers
  import opened Admin

  function EscrowOf(r: MintRequest): int {
    r.collateralAmount
  }

  function BurnOf(r: RedeemRequest): int {
    r.syntheticAmount
  }

  function PrincipalOf(p: Position): int {
    p.amount + p.pendingUnstake
  }

  function BondedOf(k: Keeper): int {
    k.bonded
  }

  function SlashedOf(k: Keeper): int {
    k.slashed
  }

  function ActiveOf(k: Keeper): int {
    if k.active then 1 else 0
  }

  /** What outsiders have sent straight to the vaults. */
  datatype Gifts = Gifts(collateral: Balances, synthetic: Balances, bond: Balances)

  const NO_GIFTS: Gifts := Gifts(map[], map[], map[])

  function Receive(g: Gifts, c: Call): Gifts {
    if !c.Send? then g else
    match c.kind
    case CollateralToken => g.(collateral := Record(g.collateral, c))
    case SyntheticToken => g.(synthetic := Record(g.synthetic, c))
    case BondToken => g.(bond := Record(g.bond, c))
  }

  function Record(d: Balances, c: Call): Balances
    requires c.Send?
  {
    if c.to.User? then d else Credit(d, c.to, c.amount)
  }

  ghost function GiftsOver(hash: Digest, s: State, run: seq<Entry>): Gifts {
    if run == [] then NO_GIFTS else
    var prior, e := GiftsOver(hash, s, run[..|run| - 1]), run[|run| - 1];
    if Step(hash, Run(hash, s, run[..|run| - 1]), e).Ok? then Receive(prior, e.call) else prior
  }

  ghost predicate CollateralPart(s: State, g: Gifts) {
    var book := s.config.book;
    && book.pendingCollateral == Sum(s.mints, EscrowOf)
    && Balance(s.tokens.collateral, CollateralVault)
       == book.totalCollateral + book.pendingCollateral + Balance(g.collateral, CollateralVault)
  }

  ghost predicate RedeemPart(s: State) {
    && s.config.book.pendingRedeem == Sum(s.redeems, BurnOf)
    && s.config.book.pendingRedeem <= s.config.book.totalSynthetic
  }

  ghost predicate SyntheticPart(s: State, g: Gifts) {
    var b, d := s.tokens.synthetic, g.synthetic;
    && Balance(b, RedeemEscrow) == s.config.book.pendingRedeem + Balance(d, RedeemEscrow)
    && Balance(b, StakeVault) == Sum(s.positions, PrincipalOf) + Balance(d, StakeVault)
    && Balance(b, FundingVault) == s.config.pool.stakerFunding + Balance(d, FundingVault)
    && Balance(b, BufferVault) == s.config.pool.buffer + Balance(d, BufferVault)
  }

  ghost predicate BondPart(s: State, g: Gifts) {
    var bonds := s.config.bonds;
    && Balance(s.tokens.bond, BondVault) == bonds.bondedTotal + Balance(g.bond, BondVault)
    && Balance(s.tokens.bond, SlashVault) == bonds.slashedTotal + Balance(g.bond, SlashVault)
    && bonds.bondedTotal == Sum(s.keepers, BondedOf)
    && bonds.slashedTotal == Sum(s.keepers, SlashedOf)
    && bonds.keeperCount == Sum(s.keepers, ActiveOf)
  }

  /** Tokens are only ever moved; synthetic is created and destroyed only together with the counter. */
  ghost predicate Conserved(s: State, origin: State) {
    && Held(s.tokens.collateral) == Held(origin.tokens.collateral)
    && Held(s.tokens.bond) == Held(origin.tokens.bond)
    && Held(s.tokens.synthetic) == s.tokens.syntheticSupply
    && s.tokens.syntheticSupply - s.config.book.totalSynthetic == origin.tokens.syntheticSupply
  }

  ghost predicate Balanced(s: State, g: Gifts, origin: State) {
    CollateralPart(s, g) && RedeemPart(s) && SyntheticPart(s, g) && BondPart(s, g) && Conserved(s, origin)
  }

  // ---------------------------------------------------------------- token movements

  ghost predicate Moves(b: Balances, from: Holder, to: Holder, amount: int, after: Balances) {
    && Held(after) == Held(b)
    && forall h :: Balance(after, h)
                   == Balance(b, h) + (if h == to then amount else 0) - (if h == from then amount else 0)
  }

  lemma Credited(b: Balances, h: Holder, amount: nat)
    ensures Held(Credit(b, h, amount)) == Held(b) + amount
  {
    SumUpdate(b, h, Balance(b, h) + amount, AmountOf);
  }

  lemma Debited(b: Balances, h: Holder, amount: nat, after: Balances)
    requires Debit(b, h, amount) == Ok(after)
    ensures Held(after) == Held(b) - amount
  {
    SumUpdate(b, h, Balance(b, h) - amount, AmountOf);
  }

  lemma Transferred(b: Balances, from: Holder, to: Holder, amount: nat, after: Balances)
    requires Transfer(b, from, to, amount) == Ok(after)
    ensures Moves(b, from, to, amount, after)
  {
    var debited := Debit(b, from, amount).value;
    Debited(b, from, amount, debited);
    Credited(debited, to, amount);
  }

  // ---------------------------------------------------------------- funding and buffer

  /** Funding and buffer instructions only move synthetic. */
  ghost predicate Reshuffled(s: State, t: State, g: Gifts) {
    SyntheticPart(t, g) && Held(t.tokens.synthetic) == Held(s.tokens.synthetic)
  }

  lemma Distributed(b: Balances, from: Key, toBuffer: u64, toStakers: u64, after: Balances)
    requires Distribute(b, from, toBuffer, toStakers) == Ok(after)
    ensures Held(after) == Held(b)
    ensures forall h: Holder :: !h.User? ==>
                                  Balance(after, h)
                                  == Balance(b, h) + (if h == BufferVault then toBuffer else 0)
                                     + (if h == FundingVault then toStakers else 0)
  {
    var b1 := if toBuffer > 0 then Transfer(b, User(from), BufferVault, toBuffer).value else b;
    if toBuffer > 0 {
      Transferred(b, User(from), BufferVault, toBuffer, b1);
    }
    if toStakers > 0 {
      Transferred(b1, User(from), FundingVault, toStakers, after);
    }
  }

  lemma SettleBalanced(s: State, env: Env, signer: Key, amount: u64, t: State, g: Gifts)
    requires SyntheticPart(s, g) && SettleFundingSpec(s, env, signer, amount) == Ok(t)
    ensures Reshuffled(s, t, g)
  {
    var toBuffer := BufferShare(amount, s.config.pool.totalStaked, s.config.params.bufferShareBps).value;
    assert t.config.pool.buffer == s.config.pool.buffer + toBuffer;
    assert t.config.pool.stakerFunding == s.config.pool.stakerFunding + (amount - toBuffer);
    Distributed(s.tokens.synthetic, signer, toBuffer, amount - toBuffer, t.tokens.synthetic);
  }

  /** A stake change moves principal into the vault or, within the position, towards the exit. */
  lemma StakerEffect(s: State, env: Env, c: FundingCall, t: State)
    requires (c.Stake? || c.RequestUnstake?) && FundingStep(s, env, c) == Ok(t)
    ensures c.owner in t.positions && t.positions == s.positions[c.owner := t.positions[c.owner]]
    ensures PrincipalOf(t.positions[c.owner])
            == ValueAt(s.positions, c.owner, PrincipalOf) + (if c.Stake? then c.amount else 0)
    ensures t.config.pool == s.config.pool.(totalStaked := t.config.pool.totalStaked)
    ensures t.config.book == s.config.book
    ensures if c.Stake?
            then Transfer(s.tokens.synthetic, User(c.owner), StakeVault, c.amount) == Ok(t.tokens.synthetic)
            else t.tokens == s.tokens
  {
  }

  lemma StakeBalanced(s: State, env: Env, owner: Key, amount: u64, t: State, g: Gifts)
    requires SyntheticPart(s, g) && StakeSpec(s, env, owner, amount) == Ok(t)
    ensures Reshuffled(s, t, g)
  {
    StakerEffect(s, env, Stake(owner, amount), t);
    Transferred(s.tokens.synthetic, User(owner), StakeVault, amount, t.tokens.synthetic);
    SumUpdate(s.positions, owner, t.positions[owner], PrincipalOf);
  }

  lemma RequestUnstakeBalanced(s: State, env: Env, owner: Key, amount: u64, t: State, g: Gifts)
    requires SyntheticPart(s, g) && RequestUnstakeSpec(s, env, owner, amount) == Ok(t)
    ensures Reshuffled(s, t, g)
  {
    StakerEffect(s, env, RequestUnstake(owner, amount), t);
    SumUpdate(s.positions, owner, t.positions[owner], PrincipalOf);
  }

  lemma UnstakeBalanced(s: State, env: Env, owner: Key, t: State, g: Gifts)
    requires SyntheticPart(s, g) && UnstakeSpec(s, env, owner) == Ok(t)
    ensures Reshuffled(s, t, g)
  {
    Transferred(s.tokens.synthetic, StakeVault, User(owner), s.positions[owner].pendingUnstake, t.tokens.synthetic);
    SumUpdate(s.positions, owner, t.positions[owner], PrincipalOf);
  }

  lemma ClaimEffect(s: State, owner: Key, t: State)
    requires ClaimFundingSpec(s, owner) == Ok(t)
    ensures owner in s.positions && owner in t.positions && t.positions == s.positions[owner := t.positions[owner]]
    ensures PrincipalOf(t.positions[owner]) == PrincipalOf(s.positions[owner])
    ensures t.config == s.config.(pool := s.config.pool.(stakerFunding := t.config.pool.stakerFunding))
    ensures t.config.pool.stakerFunding <= s.config.pool.stakerFunding
    ensures Transfer(s.tokens.synthetic, FundingVault, User(owner),
                     s.config.pool.stakerFunding - t.config.pool.stakerFunding) == Ok(t.tokens.synthetic)
  {
  }

  lemma ClaimBalanced(s: State, owner: Key, t: State, g: Gifts)
    requires SyntheticPart(s, g) && ClaimFundingSpec(s, owner) == Ok(t)
    ensures Reshuffled(s, t, g)
  {
    ClaimEffect(s, owner, t);
    var paid := s.config.pool.stakerFunding - t.config.pool.stakerFunding;
    Transferred(s.tokens.synthetic, FundingVault, User(owner), paid, t.tokens.synthetic);
    SumUpdate(s.positions, owner, t.positions[owner], PrincipalOf);
  }

  lemma FundingBalanced(s: State, env: Env, c: FundingCall, t: State, g: Gifts)
    requires SyntheticPart(s, g) && FundingStep(s, env, c) == Ok(t)
    ensures Reshuffled(s, t, g)
  {
    match c
    case SettleFunding(signer, amount) => SettleBalanced(s, env, signer, amount, t, g);
    case Stake(owner, amount) => StakeBalanced(s, env, owner, amount, t, g);
    case RequestUnstake(owner, amount) => RequestUnstakeBalanced(s, env, owner, amount, t, g);
    case Unstake(owner) => UnstakeBalanced(s, env, owner, t, g);
    case ClaimFunding(owner) => ClaimBalanced(s, owner, t, g);
  }

  lemma DepositBalanced(s: State, depositor: Key, amount: u64, t: State, g: Gifts)
    requires SyntheticPart(s, g) && BufferDepositSpec(s, depositor, amount) == Ok(t)
    ensures Reshuffled(s, t, g)
  {
    Transferred(s.tokens.synthetic, User(depositor), BufferVault, amount, t.tokens.synthetic);
  }

  lemma DrawBalanced(s: State, env: Env, signer: Key, amount: u64, t: State, g: Gifts)
    requires SyntheticPart(s, g) && BufferWithdrawSpec(s, env, signer, amount) == Ok(t)
    ensures Reshuffled(s, t, g)
  {
    Transferred(s.tokens.synthetic, BufferVault, FundingVault, amount, t.tokens.synthetic);
  }

  lemma BufferBalanced(s: State, env: Env, c: BufferCall, t: State, g: Gifts)
    requires SyntheticPart(s, g) && BufferStep(s, env, c) == Ok(t)
    ensures Reshuffled(s, t, g)
  {
    match c
    case BufferDeposit(depositor, amount) => DepositBalanced(s, depositor, amount, t, g);
    case BufferWithdraw(signer, amount) => DrawBalanced(s, env, signer, amount, t, g);
  }

  // ---------------------------------------------------------------- mint and redeem

  lemma MintOpenedBalanced(s: State, t: State, id: RequestId, r: MintRequest, g: Gifts)
    requires CollateralPart(s, g) && MintOpened(s, t, id, r)
    ensures CollateralPart(t, g) && Held(t.tokens.collateral) == Held(s.tokens.collateral)
  {
    Transferred(s.tokens.collateral, User(id.user), CollateralVault, r.collateralAmount, t.tokens.collateral);
    SumUpdate(s.mints, id, r, EscrowOf);
  }

  lemma MintSettledBalanced(s: State, t: State, id: RequestId, net: nat, g: Gifts)
    requires CollateralPart(s, g) && SyntheticPart(s, g) && MintSettled(s, t, id, net)
    ensures CollateralPart(t, g) && SyntheticPart(t, g)
    ensures Held(t.tokens.synthetic) == Held(s.tokens.synthetic) + net
  {
    SumRemove(s.mints, id, EscrowOf);
    Credited(s.tokens.synthetic, User(id.user), net);
  }

  lemma MintReturnedBalanced(s: State, t: State, id: RequestId, g: Gifts)
    requires CollateralPart(s, g) && MintReturned(s, t, id)
    ensures CollateralPart(t, g) && Held(t.tokens.collateral) == Held(s.tokens.collateral)
  {
    Transferred(s.tokens.collateral, CollateralVault, User(id.user), s.mints[id].collateralAmount, t.tokens.collateral);
    SumRemove(s.mints, id, EscrowOf);
  }

  /** A mint instruction leaves alone everything bonds and redeem requests depend on. */
  ghost predicate EntryFrame(s: State, t: State) {
    && t.keepers == s.keepers && t.config.bonds == s.config.bonds && t.tokens.bond == s.tokens.bond
    && t.redeems == s.redeems && t.positions == s.positions && t.config.pool == s.config.pool
  }

  lemma RequestMintBalanced(s: State, c: MintCall, t: State, g: Gifts, origin: State)
    requires Balanced(s, g, origin) && EntryFrame(s, t) && c.RequestMint? && MintEffected(s, c, t)
    ensures Balanced(t, g, origin)
  {
    var id := RequestId(c.user, c.nonce);
    MintOpenedBalanced(s, t, id, t.mints[id], g);
  }

  lemma MintSettledRest(s: State, t: State, id: RequestId, net: nat, g: Gifts, origin: State)
    requires RedeemPart(s) && BondPart(s, g) && Conserved(s, origin) && EntryFrame(s, t) && MintSettled(s, t, id, net)
    requires Held(t.tokens.synthetic) == Held(s.tokens.synthetic) + net
    ensures RedeemPart(t) && BondPart(t, g) && Conserved(t, origin)
  {
  }

  lemma ConfirmMintBalanced(s: State, t: State, id: RequestId, net: nat, g: Gifts, origin: State)
    requires Balanced(s, g, origin) && EntryFrame(s, t) && MintSettled(s, t, id, net)
    ensures Balanced(t, g, origin)
  {
    MintSettledBalanced(s, t, id, net, g);
    MintSettledRest(s, t, id, net, g, origin);
  }

  lemma CancelMintBalanced(s: State, c: MintCall, t: State, g: Gifts, origin: State)
    requires Balanced(s, g, origin) && EntryFrame(s, t) && c.CancelMint? && MintEffected(s, c, t)
    ensures Balanced(t, g, origin)
  {
    MintReturnedBalanced(s, t, RequestId(c.user, c.nonce), g);
  }

  lemma MintBalanced(s: State, c: MintCall, t: State, g: Gifts, origin: State)
    requires Balanced(s, g, origin) && EntryFrame(s, t) && MintEffected(s, c, t)
    ensures Balanced(t, g, origin)
  {
    var id := RequestId(c.user, c.nonce);
    match c
    case RequestMint(_, _, _, _) => RequestMintBalanced(s, c, t, g, origin);
    case ConfirmMint(_, _, _, _, _, _) =>
      var net: nat :| MintSettled(s, t, id, net);
      ConfirmMintBalanced(s, t, id, net, g, origin);
    case CancelMint(_, _) => CancelMintBalanced(s, c, t, g, origin);
  }

  lemma RedeemOpenedBalanced(s: State, t: State, id: RequestId, r: RedeemRequest, g: Gifts)
    requires RedeemPart(s) && SyntheticPart(s, g) && RedeemOpened(s, t, id, r)
    ensures RedeemPart(t) && SyntheticPart(t, g) && Held(t.tokens.synthetic) == Held(s.tokens.synthetic)
  {
    Transferred(s.tokens.synthetic, User(id.user), RedeemEscrow, r.syntheticAmount, t.tokens.synthetic);
    SumUpdate(s.redeems, id, r, BurnOf);
  }

  lemma RedeemSettledBurns(s: State, t: State, id: RequestId, paid: nat, g: Gifts)
    requires RedeemPart(s) && SyntheticPart(s, g) && RedeemSettled(s, t, id, paid)
    ensures RedeemPart(t) && SyntheticPart(t, g)
    ensures Held(t.tokens.synthetic) == Held(s.tokens.synthetic) - s.redeems[id].syntheticAmount
  {
    Debited(s.tokens.synthetic, RedeemEscrow, s.redeems[id].syntheticAmount, t.tokens.synthetic);
    SumRemove(s.redeems, id, BurnOf);
  }

  lemma RedeemSettledPays(s: State, t: State, id: RequestId, paid: nat, g: Gifts)
    requires CollateralPart(s, g) && RedeemSettled(s, t, id, paid)
    ensures CollateralPart(t, g) && Held(t.tokens.collateral) == Held(s.tokens.collateral)
  {
    Transferred(s.tokens.collateral, CollateralVault, User(id.user), paid, t.tokens.collateral);
  }

  lemma RedeemReturnedBalanced(s: State, t: State, id: RequestId, g: Gifts)
    requires RedeemPart(s) && SyntheticPart(s, g) && RedeemReturned(s, t, id)
    ensures RedeemPart(t) && SyntheticPart(t, g) && Held(t.tokens.synthetic) == Held(s.tokens.synthetic)
  {
    Transferred(s.tokens.synthetic, RedeemEscrow, User(id.user), s.redeems[id].syntheticAmount, t.tokens.synthetic);
    SumRemove(s.redeems, id, BurnOf);
    SumNonNegative(s.redeems, BurnOf);
  }

  /** A redeem instruction leaves alone everything bonds and collateral requests depend on. */
  ghost predicate ExitFrame(s: State, t: State) {
    && t.keepers == s.keepers && t.config.bonds == s.config.bonds && t.tokens.bond == s.tokens.bond
    && t.mints == s.mints
  }

  lemma RequestRedeemBalanced(s: State, c: RedeemCall, t: State, g: Gifts, origin: State)
    requires Balanced(s, g, origin) && ExitFrame(s, t) && c.RequestRedeem? && RedeemEffected(s, c, t)
    ensures Balanced(t, g, origin)
  {
    var id := RequestId(c.user, c.nonce);
    RedeemOpenedBalanced(s, t, id, t.redeems[id], g);
  }

  lemma RedeemSettledRest(s: State, t: State, id: RequestId, paid: nat, g: Gifts, origin: State)
    requires BondPart(s, g) && Conserved(s, origin) && ExitFrame(s, t) && RedeemSettled(s, t, id, paid)
    requires Held(t.tokens.synthetic) == Held(s.tokens.synthetic) - s.redeems[id].syntheticAmount
    requires Held(t.tokens.collateral) == Held(s.tokens.collateral)
    ensures BondPart(t, g) && Conserved(t, origin)
  {
  }

  lemma ConfirmRedeemBalanced(s: State, t: State, id: RequestId, paid: nat, g: Gifts, origin: State)
    requires Balanced(s, g, origin) && ExitFrame(s, t) && RedeemSettled(s, t, id, paid)
    ensures Balanced(t, g, origin)
  {
    RedeemSettledBurns(s, t, id, paid, g);
    RedeemSettledPays(s, t, id, paid, g);
    RedeemSettledRest(s, t, id, paid, g, origin);
  }

  lemma CancelRedeemBalanced(s: State, c: RedeemCall, t: State, g: Gifts, origin: State)
    requires Balanced(s, g, origin) && ExitFrame(s, t) && c.CancelRedeem? && RedeemEffected(s, c, t)
    ensures Balanced(t, g, origin)
  {
    RedeemReturnedBalanced(s, t, RequestId(c.user, c.nonce), g);
  }

  lemma RedeemBalanced(s: State, c: RedeemCall, t: State, g: Gifts, origin: State)
    requires Balanced(s, g, origin) && ExitFrame(s, t) && RedeemEffected(s, c, t)
    ensures Balanced(t, g, origin)
  {
    var id := RequestId(c.user, c.nonce);
    match c
    case RequestRedeem(_, _, _, _) => RequestRedeemBalanced(s, c, t, g, origin);
    case ConfirmRedeem(_, _, _, _, _) =>
      var paid: nat :| RedeemSettled(s, t, id, paid);
      ConfirmRedeemBalanced(s, t, id, paid, g, origin);
    case CancelRedeem(_, _) => CancelRedeemBalanced(s, c, t, g, origin);
  }

  // ---------------------------------------------------------------- keepers and outside transfers

  /** Replacing one keeper by another and moving bonds along. */
  ghost predicate Rebonded(s: State, t: State, keeper: Key, k: Keeper) {
    && t.keepers == s.keepers[keeper := k]
    && t.config.bonds.bondedTotal == s.config.bonds.bondedTotal - ValueAt(s.keepers, keeper, BondedOf) + k.bonded
    && t.config.bonds.slashedTotal == s.config.bonds.slashedTotal - ValueAt(s.keepers, keeper, SlashedOf) + k.slashed
    && SetActiveSpec(s.config.bonds.keeperCount, ValueAt(s.keepers, keeper, ActiveOf) == 1, k.active)
       == Ok(t.config.bonds.keeperCount)
  }

  lemma RebondedSums(s: State, t: State, keeper: Key, k: Keeper, g: Gifts)
    requires BondPart(s, g) && Rebonded(s, t, keeper, k)
    ensures t.config.bonds.bondedTotal == Sum(t.keepers, BondedOf)
    ensures t.config.bonds.slashedTotal == Sum(t.keepers, SlashedOf)
  {
    SumUpdate(s.keepers, keeper, k, BondedOf);
    SumUpdate(s.keepers, keeper, k, SlashedOf);
  }

  /** The decrement never saturates: an active keeper is counted. */
  lemma RebondedCount(s: State, t: State, keeper: Key, k: Keeper, g: Gifts)
    requires BondPart(s, g) && Rebonded(s, t, keeper, k)
    ensures t.config.bonds.keeperCount == Sum(t.keepers, ActiveOf)
  {
    SumUpdate(s.keepers, keeper, k, ActiveOf);
    SumAtLeast(s.keepers, keeper, ActiveOf);
  }

  ghost predicate KeeperEffect(s: State, c: KeeperCall, t: State) {
    && c.keeper in t.keepers && Rebonded(s, t, c.keeper, t.keepers[c.keeper])
    && match c
       case Register(keeper, amount) =>
         && Transfer(s.tokens.bond, User(keeper), BondVault, amount) == Ok(t.tokens.bond)
         && t.config.bonds.bondedTotal == s.config.bonds.bondedTotal + amount
         && t.config.bonds.slashedTotal == s.config.bonds.slashedTotal
       case AddBond(keeper, amount) =>
         && Transfer(s.tokens.bond, User(keeper), BondVault, amount) == Ok(t.tokens.bond)
         && t.config.bonds.bondedTotal == s.config.bonds.bondedTotal + amount
         && t.config.bonds.slashedTotal == s.config.bonds.slashedTotal
       case Unbond(keeper, amount) =>
         && Transfer(s.tokens.bond, BondVault, User(keeper), amount) == Ok(t.tokens.bond)
         && t.config.bonds.bondedTotal == s.config.bonds.bondedTotal - amount
         && t.config.bonds.slashedTotal == s.config.bonds.slashedTotal
       case Slash(_, _, amount, _, _) =>
         && Transfer(s.tokens.bond, BondVault, SlashVault, amount) == Ok(t.tokens.bond)
         && t.config.bonds.bondedTotal == s.config.bonds.bondedTotal - amount
         && t.config.bonds.slashedTotal == s.config.bonds.slashedTotal + amount
  }

  lemma KeeperStepEffect(s: State, env: Env, c: KeeperCall, t: State)
    requires KeeperStep(s, env, c) == Ok(t)
    ensures KeeperEffect(s, c, t)
  {
  }

  lemma KeeperEffectBalanced(s: State, c: KeeperCall, t: State, g: Gifts)
    requires BondPart(s, g) && KeeperEffect(s, c, t)
    ensures BondPart(t, g) && Held(t.tokens.bond) == Held(s.tokens.bond)
  {
    RebondedSums(s, t, c.keeper, t.keepers[c.keeper], g);
    RebondedCount(s, t, c.keeper, t.keepers[c.keeper], g);
    match c
    case Register(keeper, amount) => Transferred(s.tokens.bond, User(keeper), BondVault, amount, t.tokens.bond);
    case AddBond(keeper, amount) => Transferred(s.tokens.bond, User(keeper), BondVault, amount, t.tokens.bond);
    case Unbond(keeper, amount) => Transferred(s.tokens.bond, BondVault, User(keeper), amount, t.tokens.bond);
    case Slash(_, _, amount, _, _) => Transferred(s.tokens.bond, BondVault, SlashVault, amount, t.tokens.bond);
  }

  /** A vault receives exactly what is recorded as sent to it. */
  lemma VaultSent(b: Balances, d: Balances, c: Call, after: Balances, vault: Holder)
    requires c.Send? && !vault.User? && Moves(b, User(c.from), c.to, c.amount, after)
    ensures Balance(after, vault) - Balance(b, vault) == Balance(Record(d, c), vault) - Balance(d, vault)
  {
  }

  lemma CollateralSent(s: State, c: Call, b: Balances, t: State, g: Gifts)
    requires c.Send? && c.kind.CollateralToken? && CollateralPart(s, g)
    requires Moves(s.tokens.collateral, User(c.from), c.to, c.amount, b)
    requires t == s.(tokens := s.tokens.(collateral := b))
    ensures CollateralPart(t, Receive(g, c))
  {
    VaultSent(s.tokens.collateral, g.collateral, c, b, CollateralVault);
  }

  lemma SyntheticSent(s: State, c: Call, b: Balances, t: State, g: Gifts)
    requires c.Send? && c.kind.SyntheticToken? && SyntheticPart(s, g)
    requires Moves(s.tokens.synthetic, User(c.from), c.to, c.amount, b)
    requires t == s.(tokens := s.tokens.(synthetic := b))
    ensures SyntheticPart(t, Receive(g, c))
  {
    VaultSent(s.tokens.synthetic, g.synthetic, c, b, RedeemEscrow);
    VaultSent(s.tokens.synthetic, g.synthetic, c, b, StakeVault);
    VaultSent(s.tokens.synthetic, g.synthetic, c, b, FundingVault);
    VaultSent(s.tokens.synthetic, g.synthetic, c, b, BufferVault);
  }

  lemma BondSent(s: State, c: Call, b: Balances, t: State, g: Gifts)
    requires c.Send? && c.kind.BondToken? && BondPart(s, g)
    requires Moves(s.tokens.bond, User(c.from), c.to, c.amount, b)
    requires t == s.(tokens := s.tokens.(bond := b))
    ensures BondPart(t, Receive(g, c))
  {
    VaultSent(s.tokens.bond, g.bond, c, b, BondVault);
    VaultSent(s.tokens.bond, g.bond, c, b, SlashVault);
  }

  lemma SendCollateralBalanced(s: State, c: Call, t: State, g: Gifts, origin: State)
    requires Balanced(s, g, origin)
    requires c.Send? && c.kind == CollateralToken
    requires Transfer(s.tokens.collateral, User(c.from), c.to, c.amount) == Ok(t.tokens.collateral)
    requires t == s.(tokens := s.tokens.(collateral := t.tokens.collateral))
    ensures Balanced(t, Receive(g, c), origin)
  {
    Transferred(s.tokens.collateral, User(c.from), c.to, c.amount, t.tokens.collateral);
    CollateralSent(s, c, t.tokens.collateral, t, g);
  }

  lemma SendSyntheticBalanced(s: State, c: Call, t: State, g: Gifts, origin: State)
    requires Balanced(s, g, origin)
    requires c.Send? && c.kind == SyntheticToken
    requires Transfer(s.tokens.synthetic, User(c.from), c.to, c.amount) == Ok(t.tokens.synthetic)
    requires t == s.(tokens := s.tokens.(synthetic := t.tokens.synthetic))
    ensures Balanced(t, Receive(g, c), origin)
  {
    Transferred(s.tokens.synthetic, User(c.from), c.to, c.amount, t.tokens.synthetic);
    SyntheticSent(s, c, t.tokens.synthetic, t, g);
  }

  lemma SendBondBalanced(s: State, c: Call, t: State, g: Gifts, origin: State)
    requires Balanced(s, g, origin)
    requires c.Send? && c.kind == BondToken
    requires Transfer(s.tokens.bond, User(c.from), c.to, c.amount) == Ok(t.tokens.bond)
    requires t == s.(tokens := s.tokens.(bond := t.tokens.bond))
    ensures Balanced(t, Receive(g, c), origin)
  {
    Transferred(s.tokens.bond, User(c.from), c.to, c.amount, t.tokens.bond);
    BondSent(s, c, t.tokens.bond, t, g);
  }

  ghost predicate Sent(s: State, c: Call, t: State)
    requires c.Send?
  {
    match c.kind
    case CollateralToken =>
      && Transfer(s.tokens.collateral, User(c.from), c.to, c.amount) == Ok(t.tokens.collateral)
      && t == s.(tokens := s.tokens.(collateral := t.tokens.collateral))
    case SyntheticToken =>
      && Transfer(s.tokens.synthetic, User(c.from), c.to, c.amount) == Ok(t.tokens.synthetic)
      && t == s.(tokens := s.tokens.(synthetic := t.tokens.synthetic))
    case BondToken =>
      && Transfer(s.tokens.bond, User(c.from), c.to, c.amount) == Ok(t.tokens.bond)
      && t == s.(tokens := s.tokens.(bond := t.tokens.bond))
  }

  lemma SendMoves(s: State, c: Call, t: State)
    requires c.Send? && TokenTransferSpec(s, c.from, c.to, c.kind, c.amount) == Ok(t)
    ensures Sent(s, c, t)
  {
  }

  lemma SendBalanced(s: State, c: Call, t: State, g: Gifts, origin: State)
    requires Balanced(s, g, origin) && c.Send? && Sent(s, c, t)
    ensures Balanced(t, Receive(g, c), origin)
  {
    match c.kind
    case CollateralToken => SendCollateralBalanced(s, c, t, g, origin);
    case SyntheticToken => SendSyntheticBalanced(s, c, t, g, origin);
    case BondToken => SendBondBalanced(s, c, t, g, origin);
  }

  // ---------------------------------------------------------------- every instruction

  /** Committing a proof touches none of the bond fields of a keeper. */
  ghost predicate Credits(s: State, t: State, keeper: Key) {
    && keeper in s.keepers && keeper in t.keepers && t.keepers == s.keepers[keeper := t.keepers[keeper]]
    && t.keepers[keeper].bonded == s.keepers[keeper].bonded
    && t.keepers[keeper].slashed == s.keepers[keeper].slashed
    && t.keepers[keeper].active == s.keepers[keeper].active
  }

  lemma CommitCredits(hash: Digest, s: State, env: Env, keeper: Key, claim: Claim, t: State)
    requires CommitProofSpec(hash, s, env, keeper, claim) == Ok(t)
    ensures Credits(s, t, keeper)
  {
  }

  lemma CommitSums(s: State, t: State, keeper: Key)
    requires Credits(s, t, keeper)
    ensures Sum(t.keepers, BondedOf) == Sum(s.keepers, BondedOf)
    ensures Sum(t.keepers, SlashedOf) == Sum(s.keepers, SlashedOf)
    ensures Sum(t.keepers, ActiveOf) == Sum(s.keepers, ActiveOf)
  {
    SumUpdate(s.keepers, keeper, t.keepers[keeper], BondedOf);
    SumUpdate(s.keepers, keeper, t.keepers[keeper], SlashedOf);
    SumUpdate(s.keepers, keeper, t.keepers[keeper], ActiveOf);
  }

  lemma CommitBalanced(hash: Digest, s: State, env: Env, keeper: Key, claim: Claim, t: State, g: Gifts, origin: State)
    requires Balanced(s, g, origin) && CommitProofSpec(hash, s, env, keeper, claim) == Ok(t)
    ensures Balanced(t, g, origin)
  {
    CommitFrame(hash, s, env, keeper, claim, t);
    CommitCredits(hash, s, env, keeper, claim, t);
    CommitSums(s, t, keeper);
  }

  lemma SyntheticBalanced(hash: Digest, s: State, e: Entry, t: State, g: Gifts, origin: State)
    requires Balanced(s, g, origin) && Step(hash, s, e) == Ok(t)
    requires e.call.Fund? || e.call.Reserve?
    ensures Balanced(t, g, origin)
  {
    if e.call.Fund? {
      FundingFrame(s, e.env, e.call.f, t);
      FundingBalanced(s, e.env, e.call.f, t, g);
    } else {
      BufferFrame(s, e.env, e.call.b, t);
      BufferBalanced(s, e.env, e.call.b, t, g);
    }
  }

  lemma BondingBalanced(s: State, env: Env, c: KeeperCall, t: State, g: Gifts, origin: State)
    requires Balanced(s, g, origin) && KeeperStep(s, env, c) == Ok(t)
    ensures Balanced(t, g, origin)
  {
    KeeperFrame(s, env, c, t);
    KeeperStepEffect(s, env, c, t);
    KeeperEffectBalanced(s, c, t, g);
  }

  lemma RequestsBalanced(hash: Digest, s: State, e: Entry, t: State, g: Gifts, origin: State)
    requires Balanced(s, g, origin) && Step(hash, s, e) == Ok(t)
    requires e.call.Issue? || e.call.Exit?
    ensures Balanced(t, g, origin)
  {
    if e.call.Issue? {
      MintFrame(s, e.env, e.call.m, t);
      MintEffect(s, e.env, e.call.m, t);
      MintBalanced(s, e.call.m, t, g, origin);
    } else {
      RedeemFrame(s, e.env, e.call.r, t);
      RedeemEffect(s, e.env, e.call.r, t);
      RedeemBalanced(s, e.call.r, t, g, origin);
    }
  }

  lemma AdminBalanced(s: State, env: Env, c: AdminCall, t: State, g: Gifts, origin: State)
    requires Balanced(s, g, origin) && AdminStep(s, env, c) == Ok(t)
    ensures Balanced(t, g, origin)
  {
    AdminFrame(s, env, c, t);
  }

  lemma StepBalanced(hash: Digest, s: State, e: Entry, t: State, g: Gifts, origin: State)
    requires Balanced(s, g, origin) && Step(hash, s, e) == Ok(t)
    ensures Balanced(t, Receive(g, e.call), origin)
  {
    if e.call.Send? {
      SendMoves(s, e.call, t);
      SendBalanced(s, e.call, t, g, origin);
    } else if e.call.Fund? || e.call.Reserve? {
      SyntheticBalanced(hash, s, e, t, g, origin);
    } else if e.call.Issue? || e.call.Exit? {
      RequestsBalanced(hash, s, e, t, g, origin);
    } else if e.call.Commit? {
      CommitBalanced(hash, s, e.env, e.call.keeper, e.call.claim, t, g, origin);
    } else if e.call.Bonding? {
      BondingBalanced(s, e.env, e.call.k, t, g, origin);
    } else {
      AdminBalanced(s, e.env, e.call.a, t, g, origin);
    }
  }

  /** In every reachable state every counter equals the sum of the accounts it counts, every vault holds
      its counter plus what outsiders sent it, and synthetic in circulation is the initial supply plus
      `total_synthetic`. */
  lemma {:induction false} LedgerBalanced(hash: Digest, s: State, run: seq<Entry>)
    requires Initial(s)
    ensures Balanced(Run(hash, s, run), GiftsOver(hash, s, run), s)
    decreases |run|
  {
    if run != [] {
      var prior, e := run[..|run| - 1], run[|run| - 1];
      LedgerBalanced(hash, s, prior);
      var before := Run(hash, s, prior);
      if Step(hash, before, e).Ok? {
        StepBalanced(hash, before, e, Step(hash, before, e).value, GiftsOver(hash, s, prior), s);
      }
    }
  }
}
