/** The instruction entry points over the stored accounts: an instruction either commits or reverts as a whole. */
module Runtime {
  import opened Checked
  import opened TokenLedger
  import opened Accounts
  import opened Oracle
  import opened Proof
  import opened Funding
  import opened Buffer
  import opened Mint
  import opened Redeem
  import opened Keepers
  import opened Admin
  import opened Protocol

  method RunFunding(p: Program, env: Env, c: FundingCall) returns (r: Result<()>)
    modifies p
    ensures Realizes(r, p.View(), FundingStep(old(p.View()), env, c))
  {
    match c
    case SettleFunding(signer, amount) => r := HandleSettleFunding(p, env, signer, amount);
    case Stake(owner, amount) => r := HandleStake(p, env, owner, amount);
    case RequestUnstake(owner, amount) => r := HandleRequestUnstake(p, env, owner, amount);
    case Unstake(owner) => r := HandleUnstake(p, env, owner);
    case ClaimFunding(owner) => r := HandleClaimFunding(p, owner);
  }

  method RunBuffer(p: Program, env: Env, c: BufferCall) returns (r: Result<()>)
    modifies p
    ensures Realizes(r, p.View(), BufferStep(old(p.View()), env, c))
  {
    match c
    case BufferDeposit(depositor, amount) => r := HandleBufferDeposit(p, depositor, amount);
    case BufferWithdraw(signer, amount) => r := HandleBufferWithdraw(p, env, signer, amount);
  }

  method RunMint(p: Program, env: Env, c: MintCall) returns (r: Result<()>)
    modifies p
    ensures Realizes(r, p.View(), MintStep(old(p.View()), env, c))
  {
    match c
    case RequestMint(user, nonce, amount, minOut) => r := HandleMintRequest(p, env, user, nonce, amount, minOut);
    case ConfirmMint(keeper, user, nonce, hedgeHash, venueId, filled) =>
      r := HandleMintConfirm(p, env, keeper, user, nonce, hedgeHash, venueId, filled);
    case CancelMint(user, nonce) => r := HandleMintCancel(p, env, user, nonce);
  }

  method RunRedeem(p: Program, env: Env, c: RedeemCall) returns (r: Result<()>)
    modifies p
    ensures Realizes(r, p.View(), RedeemStep(old(p.View()), env, c))
  {
    match c
    case RequestRedeem(user, nonce, amount, minOut) => r := HandleRedeemRequest(p, env, user, nonce, amount, minOut);
    case ConfirmRedeem(keeper, user, nonce, unwindHash, unwound) =>
      r := HandleRedeemConfirm(p, env, keeper, user, nonce, unwindHash, unwound);
    case CancelRedeem(user, nonce) => r := HandleRedeemCancel(p, env, user, nonce);
  }

  method RunKeeper(p: Program, env: Env, c: KeeperCall) returns (r: Result<()>)
    modifies p
    ensures Realizes(r, p.View(), KeeperStep(old(p.View()), env, c))
  {
    match c
    case Register(keeper, amount) => r := HandleKeeperRegister(p, env, keeper, amount);
    case AddBond(keeper, amount) => r := HandleKeeperBond(p, env, keeper, amount);
    case Unbond(keeper, amount) => r := HandleKeeperUnbond(p, env, keeper, amount);
    case Slash(signer, keeper, amount, reason, evidence) =>
      r := HandleKeeperSlash(p, signer, keeper, amount, reason, evidence);
  }

  method RunAdmin(p: Program, env: Env, c: AdminCall) returns (r: Result<()>)
    modifies p
    ensures Realizes(r, p.View(), AdminStep(old(p.View()), env, c))
  {
    match c
    case SetParams(signer, update) => r := HandleSetParams(p, signer, update);
    case SetPaused(signer, mintPaused, redeemPaused) => r := HandleSetPaused(p, signer, mintPaused, redeemPaused);
    case InitVaults(signer, group) => r := HandleInitVaults(p, signer, group);
    case ReportVenueState(signer, venueId, netCarryBps, capacity) =>
      r := HandleReportVenueState(p, env, signer, venueId, netCarryBps, capacity);
  }

  method RunTransfer(p: Program, from: Key, to: Holder, kind: MintKind, amount: u64) returns (r: Result<()>)
    modifies p
    ensures Realizes(r, p.View(), TokenTransferSpec(old(p.View()), from, to, kind, amount))
  {
    match kind
    case CollateralToken =>
      var b :- Transfer(p.tokens.collateral, User(from), to, amount);
      p.tokens := p.tokens.(collateral := b);
      return Ok(());
    case SyntheticToken =>
      var b :- Transfer(p.tokens.synthetic, User(from), to, amount);
      p.tokens := p.tokens.(synthetic := b);
      return Ok(());
    case BondToken =>
      var b :- Transfer(p.tokens.bond, User(from), to, amount);
      p.tokens := p.tokens.(bond := b);
      return Ok(());
  }

  method Dispatch(hash: Digest, p: Program, e: Entry) returns (r: Result<()>)
    modifies p
    ensures Realizes(r, p.View(), Step(hash, old(p.View()), e))
  {
    match e.call
    case Fund(f) => r := RunFunding(p, e.env, f);
    case Reserve(b) => r := RunBuffer(p, e.env, b);
    case Issue(m) => r := RunMint(p, e.env, m);
    case Exit(x) => r := RunRedeem(p, e.env, x);
    case Commit(keeper, claim) => r := HandleCommitProof(hash, p, e.env, keeper, claim);
    case Bonding(k) => r := RunKeeper(p, e.env, k);
    case Govern(a) => r := RunAdmin(p, e.env, a);
    case Send(from, to, kind, amount) => r := RunTransfer(p, from, to, kind, amount);
  }

  /** The accounts between instructions. */
  class Store {
    var accounts: State

    constructor (s: State)
      ensures accounts == s
    {
      accounts := s;
    }

    /** A handler works on loaded accounts; they are written back only when it succeeds. */
    method Execute(hash: Digest, e: Entry) returns (r: Result<()>)
      modifies this
      ensures accounts == Exec(hash, old(accounts), e)
      ensures r == Verdict(Step(hash, old(accounts), e))
    {
      var p := new Program(accounts);
      r := Dispatch(hash, p, e);
      if r.Ok? {
        accounts := p.View();
      }
    }
  }
}
