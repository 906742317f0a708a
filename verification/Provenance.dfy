/** Everything in a reachable state can be traced to the call that put it there. */
module Provenance {
  import opened Checked
  import opened FixedPoint
  import opened Accounts
  import opened Oracle
  import opened Proof
  import opened Protocol
  import opened Frames
  import opened Effects
  import opened Mint
  import opened Redeem
  import opened Admin
  import opened Funding
  import Governance
  import Rates
  import Hedge

  /** The state call j of a run meets. */
  ghost function Before(hash: Digest, s: State, run: seq<Entry>, j: nat): State
    requires j <= |run|
  {
    Run(hash, s, run[..j])
  }

  ghost predicate Happened(hash: Digest, s: State, run: seq<Entry>, j: nat) {
    j < |run| && Step(hash, Before(hash, s, run, j), run[j]).Ok?
  }

  ghost function After(hash: Digest, s: State, run: seq<Entry>, j: nat): State
    requires Happened(hash, s, run, j)
  {
    Step(hash, Before(hash, s, run, j), run[j]).value
  }

  /** Appending a call does not change what happened before. */
  lemma Extend(hash: Digest, s: State, run: seq<Entry>, j: nat)
    requires run != [] && j < |run| - 1
    ensures Before(hash, s, run, j) == Before(hash, s, run[..|run| - 1], j)
    ensures run[..|run| - 1][j] == run[j]
  {
    assert run[..|run| - 1][..j] == run[..j];
  }

  // ---------------------------------------------------------------- mint requests

  ghost predicate RequestedAt(hash: Digest, s: State, run: seq<Entry>, j: nat, id: RequestId, r: MintRequest) {
    && Happened(hash, s, run, j)
    && run[j].call.Issue? && run[j].call.m.RequestMint?
    && RequestId(run[j].call.m.user, run[j].call.m.nonce) == id
    && id in After(hash, s, run, j).mints && After(hash, s, run, j).mints[id] == r
  }

  ghost predicate Requested(hash: Digest, s: State, run: seq<Entry>, id: RequestId, r: MintRequest) {
    exists j :: RequestedAt(hash, s, run, j, id, r)
  }

  lemma RequestedStill(hash: Digest, s: State, run: seq<Entry>, id: RequestId, r: MintRequest)
    requires run != [] && Requested(hash, s, run[..|run| - 1], id, r)
    ensures Requested(hash, s, run, id, r)
  {
    var j :| RequestedAt(hash, s, run[..|run| - 1], j, id, r);
    Extend(hash, s, run, j);
    assert RequestedAt(hash, s, run, j, id, r);
  }

  lemma StepRequests(hash: Digest, s: State, e: Entry, t: State, id: RequestId)
    requires Step(hash, s, e) == Ok(t) && id in t.mints
    ensures (id in s.mints && s.mints[id] == t.mints[id])
            || (e.call.Issue? && e.call.m.RequestMint? && RequestId(e.call.m.user, e.call.m.nonce) == id)
  {
    StepFramed(hash, s, e, t);
    if e.call.Issue? {
      MintEffect(s, e.env, e.call.m, t);
    }
  }

  lemma {:induction false} OpenMintsRequested(hash: Digest, s: State, run: seq<Entry>, id: RequestId)
    requires Initial(s) && id in Run(hash, s, run).mints
    ensures Requested(hash, s, run, id, Run(hash, s, run).mints[id])
    decreases |run|
  {
    if run != [] {
      var prior, e, j := run[..|run| - 1], run[|run| - 1], |run| - 1;
      var before, after := Run(hash, s, prior), Run(hash, s, run);
      if Step(hash, before, e).Ok? {
        StepRequests(hash, before, e, after, id);
      }
      if id in before.mints && before.mints[id] == after.mints[id] {
        OpenMintsRequested(hash, s, prior, id);
        RequestedStill(hash, s, run, id, after.mints[id]);
      } else {
        assert RequestedAt(hash, s, run, j, id, after.mints[id]);
      }
    }
  }

  /** The book is worth nothing or its deviation is inside the hard band at the given price. */
  predicate InsideHardBand(c: Config, feed: PriceUpdate) {
    var notional := BookNotional(c, c.book.totalCollateral, feed);
    || c.book.totalCollateral == 0
    || (notional.Ok? && (notional.value == 0
                         || Hedge.WithinBand(notional.value, c.book.hedgedNotional, c.params.deltaHardBps)))
  }

  lemma HardBandExactly(c: Config, feed: PriceUpdate)
    ensures HardBandGate(c, feed).Ok? <==> InsideHardBand(c, feed)
  {
    var notional := BookNotional(c, c.book.totalCollateral, feed);
    if notional.Ok? && notional.value > 0 {
      Hedge.WithinBandExactly(notional.value, c.book.hedgedNotional, c.params.deltaHardBps);
    }
  }

  /** Fresh venue state, carry above the floor, price trusted, book hedged, room under the ceiling. */
  predicate Admitted(c: Config, env: Env) {
    && !c.gates.mintPaused && c.venue.stateAt != 0
    && 0 <= env.now - c.venue.stateAt <= c.params.maxVenueStateAgeSec
    && c.venue.netCarryBps >= c.params.minNetCarryBps
    && Rates.Trusted(env, c.params)
    && InsideHardBand(c, env.feed)
    && WithinCeiling(c, c.book.totalSynthetic + 1)
  }

  /** The supply cap and the capacity share, as inequalities. */
  predicate WithinCeiling(c: Config, supply: int) {
    && supply <= c.params.maxSyntheticSupply
    && supply * BPS <= c.venue.capacity * c.params.maxSupplyVsCapacityBps
  }

  lemma CeilingExactly(c: Config, supply: nat)
    requires SupplyCeiling(c).Ok?
    ensures supply <= SupplyCeiling(c).value <==> WithinCeiling(c, supply)
  {
    var product := c.venue.capacity * c.params.maxSupplyVsCapacityBps;
    Rates.DivBounds(product, BPS);
  }

  lemma RequestAdmitted(s: State, env: Env, m: MintCall, t: State)
    requires m.RequestMint? && MintStep(s, env, m) == Ok(t)
    ensures Admitted(s.config, env)
    ensures t.mints[RequestId(m.user, m.nonce)].deadline == env.now + s.config.params.requestTtlSec
  {
    Rates.LoadPriceExactly(env, s.config.params);
    assert IssuanceGates(s.config, env.now, env.feed).Ok?;
    HardBandExactly(s.config, env.feed);
    CeilingExactly(s.config, s.config.book.totalSynthetic + 1);
  }

  /** Request j of the run is still in its window now and met every issuance gate when it was made. */
  ghost predicate Sanctions(hash: Digest, s: State, run: seq<Entry>, j: nat, id: RequestId, r: MintRequest, now: int) {
    && RequestedAt(hash, s, run, j, id, r)
    && Admitted(Before(hash, s, run, j).config, run[j].env)
    && now <= run[j].env.now + Before(hash, s, run, j).config.params.requestTtlSec
  }

  lemma RequestSanctions(hash: Digest, s: State, run: seq<Entry>, j: nat, id: RequestId, r: MintRequest, now: int)
    requires RequestedAt(hash, s, run, j, id, r) && now <= r.deadline
    ensures Sanctions(hash, s, run, j, id, r, now)
  {
    RequestAdmitted(Before(hash, s, run, j), run[j].env, run[j].call.m, After(hash, s, run, j));
  }

  lemma ConfirmInWindow(s: State, env: Env, m: MintCall)
    requires m.ConfirmMint? && MintStep(s, env, m).Ok?
    ensures var id := RequestId(m.user, m.nonce); id in s.mints && env.now <= s.mints[id].deadline
  {
  }

  ghost predicate Sanctioned(hash: Digest, s: State, run: seq<Entry>, id: RequestId, now: int) {
    && id in Run(hash, s, run).mints
    && exists j :: Sanctions(hash, s, run, j, id, Run(hash, s, run).mints[id], now)
  }

  /** Every issuance goes back to an unchanged request, no older than the ttl in force when it was made, at
      which the carry floor, venue freshness, hard band and supply ceiling all held. */
  lemma ConfirmSanctioned(hash: Digest, s: State, run: seq<Entry>, env: Env, m: MintCall)
    requires Initial(s) && m.ConfirmMint? && Step(hash, Run(hash, s, run), Entry(Issue(m), env)).Ok?
    ensures Sanctioned(hash, s, run, RequestId(m.user, m.nonce), env.now)
  {
    var id, t := RequestId(m.user, m.nonce), Run(hash, s, run);
    ConfirmInWindow(t, env, m);
    OpenMintsRequested(hash, s, run, id);
    var j :| RequestedAt(hash, s, run, j, id, t.mints[id]);
    RequestSanctions(hash, s, run, j, id, t.mints[id], env.now);
  }

  /** Only a mint confirmation raises the supply, at a trusted price, and it ends under both ceilings. */
  lemma SupplyRaisesUnderCeiling(hash: Digest, s: State, e: Entry, t: State)
    requires Step(hash, s, e) == Ok(t)
    requires t.config.book.totalSynthetic > s.config.book.totalSynthetic
    ensures e.call.Issue? && e.call.m.ConfirmMint?
    ensures Rates.Trusted(e.env, s.config.params) && WithinCeiling(t.config, t.config.book.totalSynthetic)
  {
    StepFramed(hash, s, e, t);
    if e.call.Exit? {
      RedeemEffect(s, e.env, e.call.r, t);
    } else {
      MintFrame(s, e.env, e.call.m, t);
      Rates.LoadPriceExactly(e.env, s.config.params);
      CeilingExactly(s.config, t.config.book.totalSynthetic);
    }
  }

  // ---------------------------------------------------------------- venue capacity

  ghost predicate ReportedAt(hash: Digest, s: State, run: seq<Entry>, j: nat, venue: Venue) {
    && Happened(hash, s, run, j)
    && Governance.IsReport(run[j].call)
    && After(hash, s, run, j).config.venue == venue
    && venue.stateAt == run[j].env.now && venue.lastVenueId == run[j].call.a.venueId
    && CappedCapacity(Before(hash, s, run, j).config.params, run[j].call.a.capacity, venue.capacity)
  }

  /** The smaller of what was reported and what may be reported. */
  predicate CappedCapacity(p: Params, reported: nat, stored: nat) {
    && stored <= p.maxReportableCapacity && stored <= reported
    && (stored == p.maxReportableCapacity || stored == reported)
  }

  ghost predicate Reported(hash: Digest, s: State, run: seq<Entry>, venue: Venue) {
    exists j :: ReportedAt(hash, s, run, j, venue)
  }

  lemma ReportedStill(hash: Digest, s: State, run: seq<Entry>, venue: Venue)
    requires run != [] && Reported(hash, s, run[..|run| - 1], venue)
    ensures Reported(hash, s, run, venue)
  {
    var i :| ReportedAt(hash, s, run[..|run| - 1], i, venue);
    Extend(hash, s, run, i);
    assert ReportedAt(hash, s, run, i, venue);
  }

  lemma ReportCapped(s: State, env: Env, a: AdminCall, t: State)
    requires a.ReportVenueState? && AdminStep(s, env, a) == Ok(t)
    ensures t.config.venue.stateAt == env.now && t.config.venue.lastVenueId == a.venueId
    ensures CappedCapacity(s.config.params, a.capacity, t.config.venue.capacity)
  {
  }

  lemma ReportedNow(hash: Digest, s: State, run: seq<Entry>)
    requires run != [] && Happened(hash, s, run, |run| - 1) && Governance.IsReport(run[|run| - 1].call)
    ensures Reported(hash, s, run, Run(hash, s, run).config.venue)
  {
    var j, e := |run| - 1, run[|run| - 1];
    var after := After(hash, s, run, j);
    ReportCapped(Before(hash, s, run, j), e.env, e.call.a, after);
    assert Run(hash, s, run) == after;
    assert ReportedAt(hash, s, run, j, after.config.venue);
  }

  lemma StepVenue(hash: Digest, s: State, e: Entry, t: State)
    requires Step(hash, s, e) == Ok(t) && !Governance.IsReport(e.call)
    ensures t.config.venue == s.config.venue
  {
    StepFramed(hash, s, e, t);
    if e.call.Govern? {
      AdminFrame(s, e.env, e.call.a, t);
    }
  }

  /** The stored capacity is nothing or was reported under the reporting ceiling of its moment. */
  lemma {:induction false} CapacityReported(hash: Digest, s: State, run: seq<Entry>)
    requires Initial(s)
    ensures Run(hash, s, run).config.venue.capacity == 0 || Reported(hash, s, run, Run(hash, s, run).config.venue)
    decreases |run|
  {
    if run != [] {
      var prior, e := run[..|run| - 1], run[|run| - 1];
      CapacityReported(hash, s, prior);
      var before, after := Run(hash, s, prior), Run(hash, s, run);
      if Step(hash, before, e).Ok? && Governance.IsReport(e.call) {
        ReportedNow(hash, s, run);
      } else {
        if Step(hash, before, e).Ok? {
          StepVenue(hash, before, e, after);
        }
        if Reported(hash, s, prior, before.config.venue) {
          ReportedStill(hash, s, run, before.config.venue);
        }
      }
    }
  }

  // ---------------------------------------------------------------- redeem requests

  ghost predicate ExitRequestedAt(hash: Digest, s: State, run: seq<Entry>, j: nat, id: RequestId, r: RedeemRequest) {
    && Happened(hash, s, run, j)
    && run[j].call.Exit? && run[j].call.r.RequestRedeem?
    && RequestId(run[j].call.r.user, run[j].call.r.nonce) == id
    && id in After(hash, s, run, j).redeems && After(hash, s, run, j).redeems[id] == r
  }

  ghost predicate ExitRequested(hash: Digest, s: State, run: seq<Entry>, id: RequestId, r: RedeemRequest) {
    exists j :: ExitRequestedAt(hash, s, run, j, id, r)
  }

  lemma ExitRequestedStill(hash: Digest, s: State, run: seq<Entry>, id: RequestId, r: RedeemRequest)
    requires run != [] && ExitRequested(hash, s, run[..|run| - 1], id, r)
    ensures ExitRequested(hash, s, run, id, r)
  {
    var j :| ExitRequestedAt(hash, s, run[..|run| - 1], j, id, r);
    Extend(hash, s, run, j);
    assert ExitRequestedAt(hash, s, run, j, id, r);
  }

  lemma StepExitRequests(hash: Digest, s: State, e: Entry, t: State, id: RequestId)
    requires Step(hash, s, e) == Ok(t) && id in t.redeems
    ensures (id in s.redeems && s.redeems[id] == t.redeems[id])
            || (e.call.Exit? && e.call.r.RequestRedeem? && RequestId(e.call.r.user, e.call.r.nonce) == id)
  {
    StepFramed(hash, s, e, t);
    if e.call.Exit? {
      RedeemEffect(s, e.env, e.call.r, t);
    }
  }

  lemma {:induction false} OpenExitsRequested(hash: Digest, s: State, run: seq<Entry>, id: RequestId)
    requires Initial(s) && id in Run(hash, s, run).redeems
    ensures ExitRequested(hash, s, run, id, Run(hash, s, run).redeems[id])
    decreases |run|
  {
    if run != [] {
      var prior, e, j := run[..|run| - 1], run[|run| - 1], |run| - 1;
      var before, after := Run(hash, s, prior), Run(hash, s, run);
      if Step(hash, before, e).Ok? {
        StepExitRequests(hash, before, e, after, id);
      }
      if id in before.redeems && before.redeems[id] == after.redeems[id] {
        OpenExitsRequested(hash, s, prior, id);
        ExitRequestedStill(hash, s, run, id, after.redeems[id]);
      } else {
        assert ExitRequestedAt(hash, s, run, j, id, after.redeems[id]);
      }
    }
  }

  /** Request j asked for this settlement, long enough ago and not too long ago. */
  ghost predicate ExitSanctions(
    hash: Digest, s: State, run: seq<Entry>, j: nat, id: RequestId, r: RedeemRequest, now: int, delay: nat)
  {
    && ExitRequestedAt(hash, s, run, j, id, r)
    && !Before(hash, s, run, j).config.gates.redeemPaused
    && run[j].env.now + delay <= now <= run[j].env.now + Before(hash, s, run, j).config.params.requestTtlSec
  }

  lemma ExitRequestTimes(s: State, env: Env, c: RedeemCall, t: State)
    requires c.RequestRedeem? && RedeemStep(s, env, c) == Ok(t)
    ensures var r := t.redeems[RequestId(c.user, c.nonce)];
            r.createdAt == env.now && r.deadline == env.now + s.config.params.requestTtlSec
    ensures !s.config.gates.redeemPaused
  {
  }

  lemma ExitRequestSanctions(
    hash: Digest, s: State, run: seq<Entry>, j: nat, id: RequestId, r: RedeemRequest, now: int, delay: nat)
    requires ExitRequestedAt(hash, s, run, j, id, r) && r.createdAt + delay <= now <= r.deadline
    ensures ExitSanctions(hash, s, run, j, id, r, now, delay)
  {
    ExitRequestTimes(Before(hash, s, run, j), run[j].env, run[j].call.r, After(hash, s, run, j));
  }

  lemma SettleInWindow(s: State, env: Env, c: RedeemCall)
    requires c.ConfirmRedeem? && RedeemStep(s, env, c).Ok?
    ensures var id := RequestId(c.user, c.nonce);
            && id in s.redeems
            && s.redeems[id].createdAt + s.config.params.minSettlementDelaySec <= env.now <= s.redeems[id].deadline
  {
  }

  ghost predicate ExitSanctioned(hash: Digest, s: State, run: seq<Entry>, id: RequestId, now: int, delay: nat) {
    && id in Run(hash, s, run).redeems
    && exists j :: ExitSanctions(hash, s, run, j, id, Run(hash, s, run).redeems[id], now, delay)
  }

  /** Every redemption paid out goes back to an unchanged request, no younger than the settlement delay in
      force now and no older than the ttl in force when it was made. */
  lemma SettlementSanctioned(hash: Digest, s: State, run: seq<Entry>, env: Env, c: RedeemCall)
    requires Initial(s) && c.ConfirmRedeem? && Step(hash, Run(hash, s, run), Entry(Exit(c), env)).Ok?
    ensures ExitSanctioned(hash, s, run, RequestId(c.user, c.nonce), env.now,
                           Run(hash, s, run).config.params.minSettlementDelaySec)
  {
    var id, t := RequestId(c.user, c.nonce), Run(hash, s, run);
    SettleInWindow(t, env, c);
    OpenExitsRequested(hash, s, run, id);
    var j :| ExitRequestedAt(hash, s, run, j, id, t.redeems[id]);
    ExitRequestSanctions(hash, s, run, j, id, t.redeems[id], env.now, t.config.params.minSettlementDelaySec);
  }

  // ---------------------------------------------------------------- unstaking

  /** Call j is an unstake request of the owner that sets this end of the cooldown. */
  ghost predicate UnstakeRequestedAt(hash: Digest, s: State, run: seq<Entry>, j: nat, owner: Key, cooldownEnd: int) {
    && Happened(hash, s, run, j)
    && run[j].call.Fund? && run[j].call.f.RequestUnstake? && run[j].call.f.owner == owner
    && cooldownEnd == run[j].env.now + Before(hash, s, run, j).config.params.unstakeCooldownSec
  }

  ghost predicate UnstakeRequested(hash: Digest, s: State, run: seq<Entry>, owner: Key, cooldownEnd: int) {
    exists j :: UnstakeRequestedAt(hash, s, run, j, owner, cooldownEnd)
  }

  lemma UnstakeRequestedStill(hash: Digest, s: State, run: seq<Entry>, owner: Key, cooldownEnd: int)
    requires run != [] && UnstakeRequested(hash, s, run[..|run| - 1], owner, cooldownEnd)
    ensures UnstakeRequested(hash, s, run, owner, cooldownEnd)
  {
    var j :| UnstakeRequestedAt(hash, s, run[..|run| - 1], j, owner, cooldownEnd);
    Extend(hash, s, run, j);
    assert UnstakeRequestedAt(hash, s, run, j, owner, cooldownEnd);
  }

  lemma FundingCooldown(s: State, env: Env, c: FundingCall, t: State, owner: Key)
    requires FundingStep(s, env, c) == Ok(t)
    requires PositionOf(t.positions, owner).pendingUnstake > 0
    ensures var p, q := PositionOf(s.positions, owner), PositionOf(t.positions, owner);
            || (c.RequestUnstake? && c.owner == owner && q.cooldownEnd == env.now + s.config.params.unstakeCooldownSec)
            || (p.pendingUnstake > 0 && q.cooldownEnd == p.cooldownEnd)
  {
  }

  /** Stake that is leaving was asked back by its owner, and waits out the cooldown in force at that moment. */
  lemma {:induction false} PendingUnstakeRequested(hash: Digest, s: State, run: seq<Entry>, owner: Key)
    requires Initial(s) && PositionOf(Run(hash, s, run).positions, owner).pendingUnstake > 0
    ensures UnstakeRequested(hash, s, run, owner, PositionOf(Run(hash, s, run).positions, owner).cooldownEnd)
    decreases |run|
  {
    if run != [] {
      var prior, e, j := run[..|run| - 1], run[|run| - 1], |run| - 1;
      var before, after := Run(hash, s, prior), Run(hash, s, run);
      var p, q := PositionOf(before.positions, owner), PositionOf(after.positions, owner);
      if Step(hash, before, e).Ok? {
        if e.call.Fund? {
          FundingCooldown(before, e.env, e.call.f, after, owner);
        } else {
          StepFramed(hash, before, e, after);
        }
      }
      if p.pendingUnstake > 0 && q.cooldownEnd == p.cooldownEnd {
        PendingUnstakeRequested(hash, s, prior, owner);
        UnstakeRequestedStill(hash, s, run, owner, q.cooldownEnd);
      } else {
        assert UnstakeRequestedAt(hash, s, run, j, owner, q.cooldownEnd);
      }
    }
  }
}
