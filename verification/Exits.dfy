/** Nobody can be kept in: escrow comes back after its deadline, whatever the rest of the state is. */
module Exits {
  import opened Checked
  import opened TokenLedger
  import opened Accounts
  import opened Oracle
  import opened MapSums
  import opened Proof
  import opened Protocol
  import opened Frames
  import opened Effects
  import opened Funding
  import opened Mint
  import opened Redeem
  import opened Ledger

  // ---------------------------------------------------------------- exact conditions

  lemma CancelMintExactly(s: State, env: Env, user: Key, nonce: u64, g: Gifts)
    requires CollateralPart(s, g)
    ensures var id, r := RequestId(user, nonce), MintCancelSpec(s, env, user, nonce);
            && (r.Ok? <==> id in s.mints && env.now > s.mints[id].deadline)
            && (r.Ok? ==>
                  && r.value.mints == s.mints - {id}
                  && Balance(r.value.tokens.collateral, User(user))
                     == Balance(s.tokens.collateral, User(user)) + s.mints[id].collateralAmount)
  {
    SumAtLeast(s.mints, RequestId(user, nonce), EscrowOf);
  }

  lemma CancelRedeemExactly(s: State, env: Env, user: Key, nonce: u64, g: Gifts)
    requires RedeemPart(s) && SyntheticPart(s, g)
    ensures var id, r := RequestId(user, nonce), RedeemCancelSpec(s, env, user, nonce);
            && (r.Ok? <==> id in s.redeems && env.now > s.redeems[id].deadline)
            && (r.Ok? ==>
                  && r.value.redeems == s.redeems - {id}
                  && Balance(r.value.tokens.synthetic, User(user))
                     == Balance(s.tokens.synthetic, User(user)) + s.redeems[id].syntheticAmount)
  {
    SumAtLeast(s.redeems, RequestId(user, nonce), BurnOf);
  }

  lemma UnstakeExactly(s: State, env: Env, owner: Key, g: Gifts)
    requires SyntheticPart(s, g)
    ensures var r := UnstakeSpec(s, env, owner);
            && (r.Ok? <==> && owner in s.positions && s.positions[owner].pendingUnstake > 0
                           && env.now >= s.positions[owner].cooldownEnd)
            && (r.Ok? ==>
                  && r.value.positions[owner].pendingUnstake == 0
                  && Balance(r.value.tokens.synthetic, User(owner))
                     == Balance(s.tokens.synthetic, User(owner)) + s.positions[owner].pendingUnstake)
  {
    SumAtLeast(s.positions, owner, PrincipalOf);
  }

  // ---------------------------------------------------------------- reachable states

  /** In every reachable state a mint request can be cancelled if and only if its deadline has passed; the
      pause switches, parameters, price and venue do not matter, and the whole escrow comes back. */
  lemma MintEscrowReturns(hash: Digest, s: State, run: seq<Entry>, env: Env, user: Key, nonce: u64)
    requires Initial(s)
    ensures var id, t := RequestId(user, nonce), Run(hash, s, run);
            var out := Step(hash, t, Entry(Issue(CancelMint(user, nonce)), env));
            && (out.Ok? <==> id in t.mints && env.now > t.mints[id].deadline)
            && (out.Ok? ==> Balance(out.value.tokens.collateral, User(user))
                            == Balance(t.tokens.collateral, User(user)) + t.mints[id].collateralAmount)
  {
    LedgerBalanced(hash, s, run);
    CancelMintExactly(Run(hash, s, run), env, user, nonce, GiftsOver(hash, s, run));
  }

  lemma RedeemEscrowReturns(hash: Digest, s: State, run: seq<Entry>, env: Env, user: Key, nonce: u64)
    requires Initial(s)
    ensures var id, t := RequestId(user, nonce), Run(hash, s, run);
            var out := Step(hash, t, Entry(Exit(CancelRedeem(user, nonce)), env));
            && (out.Ok? <==> id in t.redeems && env.now > t.redeems[id].deadline)
            && (out.Ok? ==> Balance(out.value.tokens.synthetic, User(user))
                            == Balance(t.tokens.synthetic, User(user)) + t.redeems[id].syntheticAmount)
  {
    LedgerBalanced(hash, s, run);
    CancelRedeemExactly(Run(hash, s, run), env, user, nonce, GiftsOver(hash, s, run));
  }

  lemma StakeReturns(hash: Digest, s: State, run: seq<Entry>, env: Env, owner: Key)
    requires Initial(s)
    ensures var t := Run(hash, s, run);
            var out := Step(hash, t, Entry(Fund(Unstake(owner)), env));
            && (out.Ok? <==> && owner in t.positions && t.positions[owner].pendingUnstake > 0
                             && env.now >= t.positions[owner].cooldownEnd)
            && (out.Ok? ==> Balance(out.value.tokens.synthetic, User(owner))
                            == Balance(t.tokens.synthetic, User(owner)) + t.positions[owner].pendingUnstake)
  {
    LedgerBalanced(hash, s, run);
    UnstakeExactly(Run(hash, s, run), env, owner, GiftsOver(hash, s, run));
  }

  /** No moment lets a mint request be both confirmed and cancelled. */
  lemma MintWindowsDisjoint(s: State, env: Env, m: MintCall)
    requires m.ConfirmMint? && MintStep(s, env, m).Ok?
    ensures MintCancelSpec(s, env, m.user, m.nonce) == Err(RequestNotExpired)
  {
  }

  /** The same for a redeem request. */
  lemma RedeemWindowsDisjoint(s: State, env: Env, r: RedeemCall)
    requires r.ConfirmRedeem? && RedeemStep(s, env, r).Ok?
    ensures RedeemCancelSpec(s, env, r.user, r.nonce) == Err(RequestNotExpired)
  {
  }

  // ---------------------------------------------------------------- consumed once

  predicate Opens(e: Entry, id: RequestId) {
    e.call.Issue? && e.call.m.RequestMint? && RequestId(e.call.m.user, e.call.m.nonce) == id
  }

  predicate Closes(e: Entry, id: RequestId) {
    e.call.Issue? && !e.call.m.RequestMint? && RequestId(e.call.m.user, e.call.m.nonce) == id
  }

  function Opened(id: RequestId, w: MintRequest -> int): Measure {
    (before: State, e: Entry, after: State) => if Opens(e, id) then ValueAt(after.mints, id, w) else 0
  }

  function Closed(id: RequestId, w: MintRequest -> int): Measure {
    (before: State, e: Entry, after: State) => if Closes(e, id) then ValueAt(before.mints, id, w) else 0
  }

  lemma MintRequestFlow(hash: Digest, s: State, e: Entry, t: State, id: RequestId, w: MintRequest -> int)
    requires Step(hash, s, e) == Ok(t)
    ensures ValueAt(t.mints, id, w)
            == ValueAt(s.mints, id, w) + Opened(id, w)(s, e, t) - Closed(id, w)(s, e, t)
  {
    StepFramed(hash, s, e, t);
    if e.call.Issue? {
      MintEffect(s, e.env, e.call.m, t);
    }
  }

  /** Whatever is measured of a mint request when it is opened is exactly what is measured when it is
      confirmed or cancelled: a request never changes while open and is consumed exactly once. */
  lemma {:induction false} MintRequestsConsumedOnce(
    hash: Digest, s: State, run: seq<Entry>, id: RequestId, w: MintRequest -> int)
    requires Initial(s)
    ensures Tally(hash, s, run, Opened(id, w))
            == Tally(hash, s, run, Closed(id, w)) + ValueAt(Run(hash, s, run).mints, id, w)
    decreases |run|
  {
    if run != [] {
      var prior, e := run[..|run| - 1], run[|run| - 1];
      MintRequestsConsumedOnce(hash, s, prior, id, w);
      var before := Run(hash, s, prior);
      if Step(hash, before, e).Ok? {
        MintRequestFlow(hash, before, e, Step(hash, before, e).value, id, w);
      }
    }
  }

  predicate OpensExit(e: Entry, id: RequestId) {
    e.call.Exit? && e.call.r.RequestRedeem? && RequestId(e.call.r.user, e.call.r.nonce) == id
  }

  predicate ClosesExit(e: Entry, id: RequestId) {
    e.call.Exit? && !e.call.r.RequestRedeem? && RequestId(e.call.r.user, e.call.r.nonce) == id
  }

  function OpenedExit(id: RequestId, w: RedeemRequest -> int): Measure {
    (before: State, e: Entry, after: State) => if OpensExit(e, id) then ValueAt(after.redeems, id, w) else 0
  }

  function ClosedExit(id: RequestId, w: RedeemRequest -> int): Measure {
    (before: State, e: Entry, after: State) => if ClosesExit(e, id) then ValueAt(before.redeems, id, w) else 0
  }

  lemma RedeemRequestFlow(hash: Digest, s: State, e: Entry, t: State, id: RequestId, w: RedeemRequest -> int)
    requires Step(hash, s, e) == Ok(t)
    ensures ValueAt(t.redeems, id, w)
            == ValueAt(s.redeems, id, w) + OpenedExit(id, w)(s, e, t) - ClosedExit(id, w)(s, e, t)
  {
    StepFramed(hash, s, e, t);
    if e.call.Exit? {
      RedeemEffect(s, e.env, e.call.r, t);
    }
  }

  lemma {:induction false} RedeemRequestsConsumedOnce(
    hash: Digest, s: State, run: seq<Entry>, id: RequestId, w: RedeemRequest -> int)
    requires Initial(s)
    ensures Tally(hash, s, run, OpenedExit(id, w))
            == Tally(hash, s, run, ClosedExit(id, w)) + ValueAt(Run(hash, s, run).redeems, id, w)
    decreases |run|
  {
    if run != [] {
      var prior, e := run[..|run| - 1], run[|run| - 1];
      RedeemRequestsConsumedOnce(hash, s, prior, id, w);
      var before := Run(hash, s, prior);
      if Step(hash, before, e).Ok? {
        RedeemRequestFlow(hash, before, e, Step(hash, before, e).value, id, w);
      }
    }
  }
}
