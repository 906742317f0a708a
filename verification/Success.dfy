/** For every call and every reachable state: exactly when the call goes through, and what it leaves. */
module Success {
  import opened Checked
  import opened TokenLedger
  import opened Accounts
  import opened Oracle
  import opened Proof
  import opened Protocol
  import opened Funding
  import opened Buffer
  import opened Mint
  import opened Redeem
  import opened Keepers
  import opened Admin
  import opened Solvency
  import opened Ledger
  import opened FundingSuccess
  import opened MintSuccess
  import opened RedeemSuccess
  import opened ControlSuccess
  import Backing
  import Conservation
  import Exits
  import Governance
  import ProofHistory

  /** What every reachable state satisfies. */
  ghost predicate Sound(hash: Digest, s: State, g: Gifts, origin: State) {
    && ValidParams(s.config.params) && Booked(s) && Balanced(s, g, origin) && Conservation.SupplyFits(s)
    && ProofHistory.Chained(hash, s) && ProofHistory.Counted(s)
  }

  lemma ReachableSound(hash: Digest, s: State, run: seq<Entry>)
    requires Initial(s)
    ensures Sound(hash, Run(hash, s, run), GiftsOver(hash, s, run), s)
  {
    Governance.RunGoverned(hash, s, run);
    RunBooked(hash, s, run);
    LedgerBalanced(hash, s, run);
    Conservation.RunSupplyFits(hash, s, run);
    ProofHistory.ProofsChained(hash, s, run);
  }

  lemma SoundVaults(hash: Digest, s: State, g: Gifts, origin: State)
    requires Sound(hash, s, g, origin)
    ensures Conservation.Contained(s) && Backing.Stocked(s) && Held(s.tokens.synthetic) <= U64_MAX
  {
  }

  // ---------------------------------------------------------------- when

  ghost predicate FundingAdmits(s: State, env: Env, c: FundingCall)
    requires ValidParams(s.config.params)
  {
    match c
    case SettleFunding(signer, amount) => CanSettle(s, signer, amount)
    case Stake(owner, amount) => CanStake(s, owner, amount)
    case RequestUnstake(owner, amount) => CanRequestUnstake(s, env, owner, amount)
    case Unstake(owner) => CanUnstake(s, env, owner)
    case ClaimFunding(owner) => Claimable(s, owner)
  }

  ghost predicate BufferAdmits(s: State, env: Env, c: BufferCall) {
    match c
    case BufferDeposit(depositor, amount) => CanDeposit(s, depositor, amount)
    case BufferWithdraw(signer, amount) => CanDraw(s, env, signer, amount)
  }

  ghost predicate MintAdmits(s: State, env: Env, c: MintCall)
    requires ValidParams(s.config.params)
  {
    match c
    case RequestMint(user, nonce, amount, _) => CanRequestMint(s, env, user, nonce, amount)
    case ConfirmMint(keeper, user, nonce, hedgeHash, venueId, filled) =>
      CanConfirmMint(s, env, keeper, user, nonce, hedgeHash, venueId, filled)
    case CancelMint(user, nonce) => CanCancelMint(s, env, user, nonce)
  }

  ghost predicate RedeemAdmits(s: State, env: Env, c: RedeemCall) {
    match c
    case RequestRedeem(user, nonce, amount, _) => CanRequestRedeem(s, env, user, nonce, amount)
    case ConfirmRedeem(keeper, user, nonce, unwindHash, unwound) =>
      CanConfirmRedeem(s, env, keeper, user, nonce, unwindHash, unwound)
    case CancelRedeem(user, nonce) => CanCancelRedeem(s, env, user, nonce)
  }

  ghost predicate KeeperAdmits(s: State, env: Env, c: KeeperCall) {
    match c
    case Register(keeper, amount) => CanRegister(s, keeper, amount)
    case AddBond(keeper, amount) => CanAddBond(s, keeper, amount)
    case Unbond(keeper, amount) => CanUnbond(s, env, keeper, amount)
    case Slash(signer, keeper, amount, reason, evidence) => CanSlash(s, signer, keeper, amount, reason, evidence)
  }

  ghost predicate AdminAdmits(s: State, env: Env, c: AdminCall) {
    match c
    case SetParams(signer, update) => CanSetParams(s, signer, update)
    case SetPaused(signer, mint, redeem) => CanSetPaused(s, signer, mint, redeem)
    case InitVaults(signer, group) => CanInitVaults(s, signer, group)
    case ReportVenueState(signer, venueId, netCarryBps, _) => CanReport(s, env, signer, venueId, netCarryBps)
  }

  function Wallet(t: Tokens, kind: MintKind): Balances {
    match kind
    case CollateralToken => t.collateral
    case SyntheticToken => t.synthetic
    case BondToken => t.bond
  }

  ghost predicate Admits(s: State, e: Entry) {
    && ValidParams(s.config.params)
    && match e.call
       case Fund(f) => FundingAdmits(s, e.env, f)
       case Reserve(b) => BufferAdmits(s, e.env, b)
       case Issue(m) => MintAdmits(s, e.env, m)
       case Exit(r) => RedeemAdmits(s, e.env, r)
       case Commit(keeper, claim) => CanCommit(s, e.env, keeper, claim)
       case Bonding(k) => KeeperAdmits(s, e.env, k)
       case Govern(a) => AdminAdmits(s, e.env, a)
       case Send(from, to, kind, amount) => amount <= Balance(Wallet(s.tokens, kind), User(from))
  }

  // ---------------------------------------------------------------- what

  ghost predicate FundingLeaves(s: State, env: Env, c: FundingCall, t: State)
    requires ValidParams(s.config.params)
  {
    match c
    case SettleFunding(signer, amount) => Settled(s, env, signer, amount, t)
    case Stake(owner, amount) => Staked(s, env, owner, amount, t)
    case RequestUnstake(owner, amount) => UnstakeRequested(s, env, owner, amount, t)
    case Unstake(owner) => Unstaked(s, env, owner, t)
    case ClaimFunding(owner) => Claimed(s, owner, t)
  }

  ghost predicate BufferLeaves(s: State, c: BufferCall, t: State) {
    match c
    case BufferDeposit(depositor, amount) => Deposited(s, depositor, amount, t)
    case BufferWithdraw(_, amount) => Drawn(s, amount, t)
  }

  ghost predicate MintLeaves(s: State, env: Env, c: MintCall, t: State)
    requires ValidParams(s.config.params)
  {
    match c
    case RequestMint(user, nonce, amount, minOut) => MintRequested(s, env, user, nonce, amount, minOut, t)
    case ConfirmMint(_, user, nonce, _, _, filled) => MintConfirmed(s, env, user, nonce, filled, t)
    case CancelMint(user, nonce) => MintCancelled(s, user, nonce, t)
  }

  ghost predicate RedeemLeaves(s: State, env: Env, c: RedeemCall, t: State) {
    match c
    case RequestRedeem(user, nonce, amount, minOut) => RedeemRequested(s, env, user, nonce, amount, minOut, t)
    case ConfirmRedeem(_, user, nonce, _, unwound) => RedeemConfirmed(s, env, user, nonce, unwound, t)
    case CancelRedeem(user, nonce) => RedeemCancelled(s, user, nonce, t)
  }

  ghost predicate KeeperLeaves(s: State, env: Env, c: KeeperCall, t: State) {
    match c
    case Register(keeper, amount) => Registered(s, env, keeper, amount, t)
    case AddBond(keeper, amount) => BondAdded(s, env, keeper, amount, t)
    case Unbond(keeper, amount) => Unbonded(s, keeper, amount, t)
    case Slash(_, keeper, amount, _, _) => Slashed(s, keeper, amount, t)
  }

  ghost predicate AdminLeaves(s: State, env: Env, c: AdminCall, t: State) {
    match c
    case SetParams(_, update) => ParamsSet(s, update, t)
    case SetPaused(_, mint, redeem) => PausedSet(s, mint, redeem, t)
    case InitVaults(_, group) => VaultsCreated(s, group, t)
    case ReportVenueState(_, venueId, netCarryBps, capacity) => ReportStored(s, env, venueId, netCarryBps, capacity, t)
  }

  ghost predicate Sends(s: State, from: Key, to: Holder, kind: MintKind, amount: u64, t: State) {
    && Moves(Wallet(s.tokens, kind), User(from), to, amount, Wallet(t.tokens, kind))
    && t == s.(tokens := t.tokens)
    && t.tokens.syntheticSupply == s.tokens.syntheticSupply
    && forall other :: other != kind ==> Wallet(t.tokens, other) == Wallet(s.tokens, other)
  }

  ghost predicate Leaves(hash: Digest, s: State, e: Entry, t: State) {
    && ValidParams(s.config.params)
    && match e.call
       case Fund(f) => FundingLeaves(s, e.env, f, t)
       case Reserve(b) => BufferLeaves(s, b, t)
       case Issue(m) => MintLeaves(s, e.env, m, t)
       case Exit(r) => RedeemLeaves(s, e.env, r, t)
       case Commit(keeper, claim) => Committed(hash, s, e.env, keeper, claim, t)
       case Bonding(k) => KeeperLeaves(s, e.env, k, t)
       case Govern(a) => AdminLeaves(s, e.env, a, t)
       case Send(from, to, kind, amount) => Sends(s, from, to, kind, amount, t)
  }

  // ---------------------------------------------------------------- group by group

  lemma FundingExactly(hash: Digest, s: State, env: Env, c: FundingCall, g: Gifts, origin: State)
    requires Sound(hash, s, g, origin)
    ensures FundingStep(s, env, c).Ok? <==> FundingAdmits(s, env, c)
    ensures FundingStep(s, env, c).Ok? ==> FundingLeaves(s, env, c, FundingStep(s, env, c).value)
  {
    SoundVaults(hash, s, g, origin);
    match c
    case SettleFunding(signer, amount) =>
      FundingSuccess.SettleExactly(s, env, signer, amount);
      if FundingStep(s, env, c).Ok? {
        SettleLeaves(s, env, signer, amount, FundingStep(s, env, c).value);
      }
    case Stake(owner, amount) =>
      StakeExactly(s, env, owner, amount, g);
      if FundingStep(s, env, c).Ok? {
        StakeLeaves(s, env, owner, amount, FundingStep(s, env, c).value);
      }
    case RequestUnstake(owner, amount) =>
      RequestUnstakeExactly(s, env, owner, amount, g);
      if FundingStep(s, env, c).Ok? {
        RequestUnstakeLeaves(s, env, owner, amount, FundingStep(s, env, c).value);
      }
    case Unstake(owner) =>
      Exits.UnstakeExactly(s, env, owner, g);
      if FundingStep(s, env, c).Ok? {
        UnstakeLeaves(s, env, owner, FundingStep(s, env, c).value);
      }
    case ClaimFunding(owner) =>
      ClaimExactly(s, owner);
      if FundingStep(s, env, c).Ok? {
        ClaimLeaves(s, owner, FundingStep(s, env, c).value);
      }
  }

  lemma BufferExactly(hash: Digest, s: State, env: Env, c: BufferCall, g: Gifts, origin: State)
    requires Sound(hash, s, g, origin)
    ensures BufferStep(s, env, c).Ok? <==> BufferAdmits(s, env, c)
    ensures BufferStep(s, env, c).Ok? ==> BufferLeaves(s, c, BufferStep(s, env, c).value)
  {
    SoundVaults(hash, s, g, origin);
    match c
    case BufferDeposit(depositor, amount) =>
      DepositExactly(s, depositor, amount);
      if BufferStep(s, env, c).Ok? {
        DepositLeaves(s, depositor, amount, BufferStep(s, env, c).value);
      }
    case BufferWithdraw(signer, amount) =>
      DrawExactly(s, env, signer, amount);
      if BufferStep(s, env, c).Ok? {
        DrawLeaves(s, env, signer, amount, BufferStep(s, env, c).value);
      }
  }

  lemma MintExactly(hash: Digest, s: State, env: Env, c: MintCall, g: Gifts, origin: State)
    requires Sound(hash, s, g, origin)
    ensures MintStep(s, env, c).Ok? <==> MintAdmits(s, env, c)
    ensures MintStep(s, env, c).Ok? ==> MintLeaves(s, env, c, MintStep(s, env, c).value)
  {
    match c
    case RequestMint(user, nonce, amount, minOut) =>
      RequestMintExactly(s, env, user, nonce, amount, minOut);
      if MintStep(s, env, c).Ok? {
        RequestMintLeaves(s, env, user, nonce, amount, minOut, MintStep(s, env, c).value);
      }
    case ConfirmMint(keeper, user, nonce, hedgeHash, venueId, filled) =>
      ConfirmMintExactly(s, env, keeper, user, nonce, hedgeHash, venueId, filled, g);
      if MintStep(s, env, c).Ok? {
        ConfirmMintLeaves(s, env, keeper, user, nonce, hedgeHash, venueId, filled, MintStep(s, env, c).value);
      }
    case CancelMint(user, nonce) =>
      Exits.CancelMintExactly(s, env, user, nonce, g);
      if MintStep(s, env, c).Ok? {
        CancelMintLeaves(s, env, user, nonce, MintStep(s, env, c).value);
      }
  }

  lemma RedeemExactly(hash: Digest, s: State, env: Env, c: RedeemCall, g: Gifts, origin: State)
    requires Sound(hash, s, g, origin)
    ensures RedeemStep(s, env, c).Ok? <==> RedeemAdmits(s, env, c)
    ensures RedeemStep(s, env, c).Ok? ==> RedeemLeaves(s, env, c, RedeemStep(s, env, c).value)
  {
    SoundVaults(hash, s, g, origin);
    match c
    case RequestRedeem(user, nonce, amount, minOut) =>
      RequestRedeemExactly(s, env, user, nonce, amount, minOut);
      if RedeemStep(s, env, c).Ok? {
        RequestRedeemLeaves(s, env, user, nonce, amount, minOut, RedeemStep(s, env, c).value);
      }
    case ConfirmRedeem(keeper, user, nonce, unwindHash, unwound) =>
      ConfirmRedeemExactly(s, env, keeper, user, nonce, unwindHash, unwound);
      if RedeemStep(s, env, c).Ok? {
        ConfirmRedeemLeaves(s, env, keeper, user, nonce, unwindHash, unwound, RedeemStep(s, env, c).value);
      }
    case CancelRedeem(user, nonce) =>
      Exits.CancelRedeemExactly(s, env, user, nonce, g);
      if RedeemStep(s, env, c).Ok? {
        CancelRedeemLeaves(s, env, user, nonce, RedeemStep(s, env, c).value);
      }
  }

  lemma KeeperExactly(hash: Digest, s: State, env: Env, c: KeeperCall, g: Gifts, origin: State)
    requires Sound(hash, s, g, origin)
    ensures KeeperStep(s, env, c).Ok? <==> KeeperAdmits(s, env, c)
    ensures KeeperStep(s, env, c).Ok? ==> KeeperLeaves(s, env, c, KeeperStep(s, env, c).value)
  {
    match c
    case Register(keeper, amount) =>
      RegisterExactly(s, env, keeper, amount);
      if KeeperStep(s, env, c).Ok? {
        RegisterLeaves(s, env, keeper, amount, KeeperStep(s, env, c).value);
      }
    case AddBond(keeper, amount) =>
      AddBondExactly(s, env, keeper, amount, g);
      if KeeperStep(s, env, c).Ok? {
        AddBondLeaves(s, env, keeper, amount, KeeperStep(s, env, c).value, g);
      }
    case Unbond(keeper, amount) =>
      UnbondExactly(s, env, keeper, amount, g);
      if KeeperStep(s, env, c).Ok? {
        UnbondLeaves(s, env, keeper, amount, KeeperStep(s, env, c).value, g);
      }
    case Slash(signer, keeper, amount, reason, evidence) =>
      SlashExactly(s, signer, keeper, amount, reason, evidence, g);
      if KeeperStep(s, env, c).Ok? {
        SlashLeaves(s, signer, keeper, amount, reason, evidence, KeeperStep(s, env, c).value, g);
      }
  }

  lemma AdminExactly(s: State, env: Env, c: AdminCall)
    ensures AdminStep(s, env, c).Ok? <==> AdminAdmits(s, env, c)
    ensures AdminStep(s, env, c).Ok? ==> AdminLeaves(s, env, c, AdminStep(s, env, c).value)
  {
    match c
    case SetParams(signer, update) =>
      SetParamsExactly(s, signer, update);
      if AdminStep(s, env, c).Ok? {
        SetParamsLeaves(s, signer, update, AdminStep(s, env, c).value);
      }
    case SetPaused(signer, mint, redeem) => SetPausedExactly(s, signer, mint, redeem);
    case InitVaults(signer, group) => InitVaultsExactly(s, signer, group);
    case ReportVenueState(signer, venueId, netCarryBps, capacity) =>
      ReportExactly(s, env, signer, venueId, netCarryBps, capacity);
  }

  lemma CommitExactlyLeaves(hash: Digest, s: State, env: Env, keeper: Key, claim: Claim, g: Gifts, origin: State)
    requires Sound(hash, s, g, origin)
    ensures CommitProofSpec(hash, s, env, keeper, claim).Ok? <==> CanCommit(s, env, keeper, claim)
    ensures CommitProofSpec(hash, s, env, keeper, claim).Ok? ==>
              Committed(hash, s, env, keeper, claim, CommitProofSpec(hash, s, env, keeper, claim).value)
  {
    CommitExactly(hash, s, env, keeper, claim);
    if CommitProofSpec(hash, s, env, keeper, claim).Ok? {
      CommitLeaves(hash, s, env, keeper, claim, CommitProofSpec(hash, s, env, keeper, claim).value);
    }
  }

  lemma SendExactly(s: State, from: Key, to: Holder, kind: MintKind, amount: u64)
    ensures var r := TokenTransferSpec(s, from, to, kind, amount);
            && (r.Ok? <==> amount <= Balance(Wallet(s.tokens, kind), User(from)))
            && (r.Ok? ==> Sends(s, from, to, kind, amount, r.value))
  {
    var r := TokenTransferSpec(s, from, to, kind, amount);
    if r.Ok? {
      Transferred(Wallet(s.tokens, kind), User(from), to, amount, Wallet(r.value.tokens, kind));
    }
  }

  // ---------------------------------------------------------------- every call

  /** In a sound state a call succeeds exactly when it is admitted, and leaves exactly what is stated. */
  ghost predicate Answers(hash: Digest, s: State, e: Entry) {
    var r := Step(hash, s, e);
    (r.Ok? <==> Admits(s, e)) && (r.Ok? ==> Leaves(hash, s, e, r.value))
  }

  lemma StepAnswers(hash: Digest, s: State, e: Entry, g: Gifts, origin: State)
    requires Sound(hash, s, g, origin)
    ensures Answers(hash, s, e)
  {
    match e.call
    case Fund(f) => FundingExactly(hash, s, e.env, f, g, origin);
    case Reserve(b) => BufferExactly(hash, s, e.env, b, g, origin);
    case Issue(m) => MintExactly(hash, s, e.env, m, g, origin);
    case Exit(r) => RedeemExactly(hash, s, e.env, r, g, origin);
    case Commit(keeper, claim) => CommitExactlyLeaves(hash, s, e.env, keeper, claim, g, origin);
    case Bonding(k) => KeeperExactly(hash, s, e.env, k, g, origin);
    case Govern(a) => AdminExactly(s, e.env, a);
    case Send(from, to, kind, amount) => SendExactly(s, from, to, kind, amount);
  }

  /** In every reachable state every call succeeds exactly under its plain conditions and with its plain effect. */
  lemma EveryCallAnswers(hash: Digest, s: State, run: seq<Entry>, e: Entry)
    requires Initial(s)
    ensures Answers(hash, Run(hash, s, run), e)
  {
    ReachableSound(hash, s, run);
    StepAnswers(hash, Run(hash, s, run), e, GiftsOver(hash, s, run), s);
  }

  lemma NoIssueWhilePaused(hash: Digest, s: State, run: seq<Entry>, e: Entry)
    requires Run(hash, s, run).config.gates.mintPaused
    ensures Exec(hash, Run(hash, s, run), e).config.book.totalSynthetic
            <= Run(hash, s, run).config.book.totalSynthetic
  {
    var before := Run(hash, s, run);
    if Step(hash, before, e).Ok? {
      PausedMintsNothing(hash, before, e, Step(hash, before, e).value);
    }
  }
}
