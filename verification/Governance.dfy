/** What stays true of the parameters and the venue report, whatever the authority does. */
module Governance {
  import opened Checked
  import opened Accounts
  import opened Oracle
  import opened Proof
  import opened Buffer
  import opened Admin
  import opened Protocol
  import opened Frames

  // ---------------------------------------------------------------- parameters

  /** The parameters are in bounds and the identity of the config is the initial one. */
  ghost predicate Governed(s: State, origin: State) {
    && ValidParams(s.config.params)
    && s.config.key == origin.config.key
    && s.config.collateralDecimals == origin.config.collateralDecimals
    && s.config.syntheticDecimals == origin.config.syntheticDecimals
  }

  lemma StepGoverned(hash: Digest, s: State, e: Entry, t: State, origin: State)
    requires Governed(s, origin) && Step(hash, s, e) == Ok(t)
    ensures Governed(t, origin)
  {
    StepFramed(hash, s, e, t);
    if e.call.Govern? {
      AdminKeepsBounds(s, e.env, e.call.a, t);
    }
  }

  lemma AdminKeepsBounds(s: State, env: Env, a: AdminCall, t: State)
    requires ValidParams(s.config.params) && AdminStep(s, env, a) == Ok(t)
    ensures ValidParams(t.config.params)
  {
  }

  /** No sequence of calls leads out of the documented parameter bounds. */
  lemma {:induction false} RunGoverned(hash: Digest, s: State, run: seq<Entry>)
    requires Initial(s)
    ensures Governed(Run(hash, s, run), s)
    decreases |run|
  {
    if run != [] {
      var prior, e := run[..|run| - 1], run[|run| - 1];
      RunGoverned(hash, s, prior);
      var before := Run(hash, s, prior);
      if Step(hash, before, e).Ok? {
        StepGoverned(hash, before, e, Step(hash, before, e).value, s);
      }
    }
  }

  /** The bounds spelled out: the bands are nested, a fee leaves something, the ratio over-collateralises. */
  lemma ParamsBounded(p: Params)
    ensures ValidParams(p) <==>
              && 0 < p.deltaExitBps <= p.deltaBandBps <= p.deltaHardBps <= 2_000
              && 10_000 <= p.collateralRatioBps <= 50_000 && p.mintFeeBps <= 500 && p.redeemFeeBps <= 500
              && p.maxHedgeSlippageBps < 10_000 && p.bufferShareBps <= 10_000
              && 0 < p.bufferMaxDrawBps <= 10_000 && 0 < p.maxSupplyVsCapacityBps <= 10_000
              && 0 < p.maxConfBps < 10_000 && 0 < p.maxPriceAgeSec <= 3_600 && p.maxVenueStateAgeSec > 0
              && p.venueFlags != 0 && p.venueFlags & 0xE1 == 0
              && p.minKeeperBond > 0 && p.maxSyntheticSupply > 0 && p.requestTtlSec > 0
  {
    assert !VENUE_FLAGS_MASK == 0xE1;
  }

  predicate Updated<T(==)>(before: T, given: Option<T>, now: T) {
    now == if given.Some? then given.value else before
  }

  /** Each field of q is what the update gives for it, and what p had where the update gives nothing. */
  predicate UpdatedFieldwise(p: Params, u: UpdateParams, q: Params) {
    && Updated(p.maxPriceAgeSec, u.maxPriceAgeSec, q.maxPriceAgeSec)
    && Updated(p.requestTtlSec, u.requestTtlSec, q.requestTtlSec)
    && Updated(p.minSettlementDelaySec, u.minSettlementDelaySec, q.minSettlementDelaySec)
    && Updated(p.unbondCooldownSec, u.unbondCooldownSec, q.unbondCooldownSec)
    && Updated(p.bufferUnlockDelaySec, u.bufferUnlockDelaySec, q.bufferUnlockDelaySec)
    && Updated(p.unstakeCooldownSec, u.unstakeCooldownSec, q.unstakeCooldownSec)
    && Updated(p.maxVenueStateAgeSec, u.maxVenueStateAgeSec, q.maxVenueStateAgeSec)
    && Updated(p.minKeeperBond, u.minKeeperBond, q.minKeeperBond)
    && Updated(p.maxSyntheticSupply, u.maxSyntheticSupply, q.maxSyntheticSupply)
    && Updated(p.maxReportableCapacity, u.maxReportableCapacity, q.maxReportableCapacity)
    && Updated(p.minNetCarryBps, u.minNetCarryBps, q.minNetCarryBps)
    && Updated(p.maxConfBps, u.maxConfBps, q.maxConfBps)
    && Updated(p.collateralRatioBps, u.collateralRatioBps, q.collateralRatioBps)
    && Updated(p.mintFeeBps, u.mintFeeBps, q.mintFeeBps)
    && Updated(p.redeemFeeBps, u.redeemFeeBps, q.redeemFeeBps)
    && Updated(p.deltaBandBps, u.deltaBandBps, q.deltaBandBps)
    && Updated(p.deltaExitBps, u.deltaExitBps, q.deltaExitBps)
    && Updated(p.deltaHardBps, u.deltaHardBps, q.deltaHardBps)
    && Updated(p.maxHedgeSlippageBps, u.maxHedgeSlippageBps, q.maxHedgeSlippageBps)
    && Updated(p.bufferShareBps, u.bufferShareBps, q.bufferShareBps)
    && Updated(p.bufferMaxDrawBps, u.bufferMaxDrawBps, q.bufferMaxDrawBps)
    && Updated(p.maxSupplyVsCapacityBps, u.maxSupplyVsCapacityBps, q.maxSupplyVsCapacityBps)
    && Updated(p.venueFlags, u.venueFlags, q.venueFlags)
  }

  /** An update does exactly that, and no other parameter set does. */
  lemma MergeFaithful(p: Params, u: UpdateParams, q: Params)
    ensures UpdatedFieldwise(p, u, q) <==> q == Merge(p, u)
  {
  }

  /** Of two updates in a row the later one wins field by field. */
  lemma MergeComposes(p: Params, u: UpdateParams, v: UpdateParams)
    ensures Merge(Merge(p, u), v) == Merge(p, Over(u, v))
  {
  }

  /** The later of two updates where it gives a value, else the earlier one. */
  function Over(u: UpdateParams, v: UpdateParams): UpdateParams {
    UpdateParams(
      Later(u.maxPriceAgeSec, v.maxPriceAgeSec), Later(u.requestTtlSec, v.requestTtlSec),
      Later(u.minSettlementDelaySec, v.minSettlementDelaySec), Later(u.unbondCooldownSec, v.unbondCooldownSec),
      Later(u.bufferUnlockDelaySec, v.bufferUnlockDelaySec), Later(u.unstakeCooldownSec, v.unstakeCooldownSec),
      Later(u.maxVenueStateAgeSec, v.maxVenueStateAgeSec), Later(u.minKeeperBond, v.minKeeperBond),
      Later(u.maxSyntheticSupply, v.maxSyntheticSupply), Later(u.maxReportableCapacity, v.maxReportableCapacity),
      Later(u.minNetCarryBps, v.minNetCarryBps), Later(u.maxConfBps, v.maxConfBps),
      Later(u.collateralRatioBps, v.collateralRatioBps), Later(u.mintFeeBps, v.mintFeeBps),
      Later(u.redeemFeeBps, v.redeemFeeBps), Later(u.deltaBandBps, v.deltaBandBps),
      Later(u.deltaExitBps, v.deltaExitBps), Later(u.deltaHardBps, v.deltaHardBps),
      Later(u.maxHedgeSlippageBps, v.maxHedgeSlippageBps), Later(u.bufferShareBps, v.bufferShareBps),
      Later(u.bufferMaxDrawBps, v.bufferMaxDrawBps), Later(u.maxSupplyVsCapacityBps, v.maxSupplyVsCapacityBps),
      Later(u.venueFlags, v.venueFlags))
  }

  function Later<T>(earlier: Option<T>, later: Option<T>): Option<T> {
    if later.Some? then later else earlier
  }

  // ---------------------------------------------------------------- the pause switches

  /** Nothing is unpaused before every vault group exists. */
  ghost predicate Ready(s: State) {
    (s.config.gates.mintPaused && s.config.gates.redeemPaused) || s.config.gates.vaultFlags == VAULT_FLAGS_ALL
  }

  lemma AdminReady(s: State, env: Env, a: AdminCall, t: State)
    requires Ready(s) && AdminStep(s, env, a) == Ok(t)
    ensures Ready(t)
  {
    if a.InitVaults? && s.config.gates.vaultFlags == VAULT_FLAGS_ALL {
      FullFlags(a.group);
    }
  }

  lemma FullFlags(g: VaultGroup)
    ensures VAULT_FLAGS_ALL & VaultFlag(g) != 0
  {
  }

  lemma StepGates(hash: Digest, s: State, e: Entry, t: State)
    requires Step(hash, s, e) == Ok(t) && !e.call.Govern?
    ensures t.config.gates == s.config.gates
  {
    StepFramed(hash, s, e, t);
  }

  /** In every reachable state with minting or redeeming open, all four vault groups exist. */
  lemma {:induction false} OpenMeansReady(hash: Digest, s: State, run: seq<Entry>)
    requires Initial(s)
    ensures Ready(Run(hash, s, run))
    decreases |run|
  {
    if run != [] {
      var prior, e := run[..|run| - 1], run[|run| - 1];
      OpenMeansReady(hash, s, prior);
      var before := Run(hash, s, prior);
      if Step(hash, before, e).Ok? {
        if e.call.Govern? {
          AdminReady(before, e.env, e.call.a, Step(hash, before, e).value);
        } else {
          StepGates(hash, before, e, Step(hash, before, e).value);
        }
      }
    }
  }

  /** The authority signs no pause call of the run. */
  ghost predicate AuthorityAbsent(s: State, run: seq<Entry>) {
    forall i :: 0 <= i < |run| && run[i].call.Govern? && run[i].call.a.SetPaused? ==>
                  run[i].call.a.signer != s.config.authority
  }

  ghost predicate OnlyTighter(s: State, t: State) {
    && t.config.authority == s.config.authority
    && (s.config.gates.mintPaused ==> t.config.gates.mintPaused)
    && (s.config.gates.redeemPaused ==> t.config.gates.redeemPaused)
  }

  lemma PauseTightens(s: State, env: Env, a: AdminCall, t: State)
    requires AdminStep(s, env, a) == Ok(t) && (a.SetPaused? ==> a.signer != s.config.authority)
    ensures OnlyTighter(s, t)
  {
  }

  /** Without the authority, whatever the guardian and everybody else do, what is paused stays paused. */
  lemma {:induction false} GuardianOnlyPauses(hash: Digest, s: State, run: seq<Entry>)
    requires AuthorityAbsent(s, run)
    ensures OnlyTighter(s, Run(hash, s, run))
    decreases |run|
  {
    if run != [] {
      var prior, e := run[..|run| - 1], run[|run| - 1];
      assert AuthorityAbsent(s, prior) by {
        assert forall i :: 0 <= i < |prior| ==> prior[i] == run[i];
      }
      GuardianOnlyPauses(hash, s, prior);
      var before := Run(hash, s, prior);
      if Step(hash, before, e).Ok? {
        StepFramed(hash, before, e, Step(hash, before, e).value);
        if e.call.Govern? {
          PauseTightens(before, e.env, e.call.a, Step(hash, before, e).value);
        } else {
          StepGates(hash, before, e, Step(hash, before, e).value);
        }
      }
    }
  }

  // ---------------------------------------------------------------- the carry regime clock

  datatype Report = Report(time: int, carry: int)

  /** The accepted reports of a run, oldest first. */
  ghost function Reports(hash: Digest, s: State, run: seq<Entry>): seq<Report> {
    if run == [] then [] else
    var log, e := Reports(hash, s, run[..|run| - 1]), run[|run| - 1];
    if IsReport(e.call) && Step(hash, Run(hash, s, run[..|run| - 1]), e).Ok?
    then log + [Report(e.env.now, e.call.a.netCarryBps)] else log
  }

  predicate IsReport(c: Call) {
    c.Govern? && c.a.ReportVenueState?
  }

  /** Report i opens the negative regime that lasts to the end of the log. The clock cannot tell time 0
      from "not running", so a regime opened at time 0 counts from its next report. */
  ghost predicate OpensRegime(log: seq<Report>, i: int) {
    && 0 <= i < |log| && log[i].time > 0
    && (forall j :: i <= j < |log| ==> log[j].carry < 0)
    && (i == 0 || log[i - 1].carry >= 0 || log[i - 1].time == 0)
  }

  /** Zero exactly outside a negative regime, otherwise the time of the report that opened it. */
  ghost predicate ClockReads(log: seq<Report>, since: int) {
    && (since == 0 <==> log == [] || log[|log| - 1].carry >= 0 || log[|log| - 1].time == 0)
    && (since != 0 ==> exists i :: OpensRegime(log, i) && log[i].time == since)
  }

  ghost predicate Clocked(s: State, log: seq<Report>) {
    && ClockReads(log, s.config.venue.negativeSince)
    && s.config.venue.stateAt == (if log == [] then 0 else log[|log| - 1].time)
    && s.config.venue.netCarryBps == (if log == [] then 0 else log[|log| - 1].carry)
    && (forall i :: 0 <= i < |log| ==> log[i].time >= 0)
    && (forall i, j :: 0 <= i < j < |log| ==> log[i].time <= log[j].time)
  }

  lemma ClockTicks(log: seq<Report>, since: int, r: Report)
    requires ClockReads(log, since) && r.time >= 0
    requires forall i :: 0 <= i < |log| ==> 0 <= log[i].time <= r.time
    ensures ClockReads(log + [r], if r.carry >= 0 then 0 else if since == 0 then r.time else since)
  {
    var longer := log + [r];
    if r.carry < 0 && since == 0 {
      if r.time > 0 {
        assert OpensRegime(longer, |log|);
      }
    } else if r.carry < 0 {
      var i :| OpensRegime(log, i) && log[i].time == since;
      assert OpensRegime(longer, i);
    }
  }

  lemma ReportClocked(s: State, env: Env, a: AdminCall, t: State, log: seq<Report>)
    requires Clocked(s, log) && a.ReportVenueState? && AdminStep(s, env, a) == Ok(t)
    ensures Clocked(t, log + [Report(env.now, a.netCarryBps)])
  {
    ClockTicks(log, s.config.venue.negativeSince, Report(env.now, a.netCarryBps));
  }

  lemma StepClocked(hash: Digest, s: State, e: Entry, t: State, log: seq<Report>)
    requires Clocked(s, log) && Step(hash, s, e) == Ok(t)
    ensures Clocked(t, if IsReport(e.call) then log + [Report(e.env.now, e.call.a.netCarryBps)] else log)
  {
    if IsReport(e.call) {
      ReportClocked(s, e.env, e.call.a, t, log);
    } else {
      StepFramed(hash, s, e, t);
      if e.call.Govern? {
        AdminFrame(s, e.env, e.call.a, t);
      }
    }
  }

  /** `negative_funding_since` tells the start of the current unbroken run of negative reports. */
  lemma {:induction false} RegimeClockExact(hash: Digest, s: State, run: seq<Entry>)
    requires Initial(s)
    ensures Clocked(Run(hash, s, run), Reports(hash, s, run))
    decreases |run|
  {
    if run != [] {
      var prior, e := run[..|run| - 1], run[|run| - 1];
      RegimeClockExact(hash, s, prior);
      var before := Run(hash, s, prior);
      if Step(hash, before, e).Ok? {
        StepClocked(hash, before, e, Step(hash, before, e).value, Reports(hash, s, prior));
      }
    }
  }

  ghost predicate RegimeServed(log: seq<Report>, delay: nat, now: int) {
    exists i :: OpensRegime(log, i) && log[i].time + delay <= now
  }

  lemma DrawGated(s: State, env: Env, signer: Key, amount: u64, log: seq<Report>)
    requires Clocked(s, log) && BufferWithdrawSpec(s, env, signer, amount).Ok?
    ensures RegimeServed(log, s.config.params.bufferUnlockDelaySec, env.now)
  {
    assert RegimeGate(s.config, env.now).Ok?;
    var i :| OpensRegime(log, i) && log[i].time == s.config.venue.negativeSince;
  }

  /** A buffer draw is preceded by a wholly negative regime at least as long as the unlock delay. */
  lemma DrawsWaitOutTheRegime(hash: Digest, s: State, run: seq<Entry>, env: Env, signer: Key, amount: u64)
    requires Initial(s)
    requires Step(hash, Run(hash, s, run), Entry(Reserve(BufferWithdraw(signer, amount)), env)).Ok?
    ensures RegimeServed(Reports(hash, s, run), Run(hash, s, run).config.params.bufferUnlockDelaySec, env.now)
  {
    RegimeClockExact(hash, s, run);
    DrawGated(Run(hash, s, run), env, signer, amount, Reports(hash, s, run));
  }
}
