/** Bounds that a parameter change or a report can break under existing state: when they hold, and that they break. */
module ParameterCuts {
  import opened Checked
  import opened FixedPoint
  import opened TokenLedger
  import opened Accounts
  import opened Oracle
  import opened Proof
  import opened Protocol
  import opened Frames
  import opened Effects
  import opened Mint
  import opened Keepers
  import opened Admin
  import opened Provenance
  import opened KeeperLedger
  import opened Shortfall

  // ---------------------------------------------------------------- the supply cap and the ceiling

  function UnderCap(): State -> bool {
    (s: State) => s.config.book.totalSynthetic <= s.config.params.maxSyntheticSupply
  }

  /** An update keeps the cap at or above the supply. */
  function CapRespected(): (State, Entry) -> bool {
    (s: State, e: Entry) =>
      e.call.Govern? && e.call.a.SetParams? ==>
        s.config.book.totalSynthetic <= Merge(s.config.params, e.call.a.update).maxSyntheticSupply
  }

  function UnderCeiling(): State -> bool {
    (s: State) => WithinCeiling(s.config, s.config.book.totalSynthetic)
  }

  /** The config a governing call would leave. */
  function Governed(s: State, e: Entry): Config {
    var c := s.config;
    if e.call.Govern? && e.call.a.SetParams? then c.(params := Merge(c.params, e.call.a.update))
    else if e.call.Govern? && e.call.a.ReportVenueState? then
      c.(venue := c.venue.(capacity := Min(e.call.a.capacity, c.params.maxReportableCapacity)))
    else c
  }

  /** An update or a report keeps cap and capacity share at or above the supply. */
  function CeilingRespected(): (State, Entry) -> bool {
    (s: State, e: Entry) => WithinCeiling(Governed(s, e), s.config.book.totalSynthetic)
  }

  lemma AdminCuts(s: State, e: Entry, t: State)
    requires e.call.Govern? && AdminStep(s, e.env, e.call.a) == Ok(t)
    ensures t.config.params == Governed(s, e).params && t.config.venue.capacity == Governed(s, e).venue.capacity
    ensures t.config.book == s.config.book
  {
    AdminFrame(s, e.env, e.call.a, t);
    if e.call.a.SetParams? {
      SetParamsLeaves(s, e.call.a.signer, e.call.a.update, t);
    } else if e.call.a.ReportVenueState? {
      ReportLeaves(s, e.env, e.call.a, t);
    }
  }

  lemma ReportLeaves(s: State, env: Env, a: AdminCall, t: State)
    requires a.ReportVenueState? && AdminStep(s, env, a) == Ok(t)
    ensures t.config.venue.capacity == Min(a.capacity, s.config.params.maxReportableCapacity)
  {
  }

  lemma SetParamsLeaves(s: State, signer: Key, u: UpdateParams, t: State)
    requires SetParamsSpec(s, signer, u) == Ok(t)
    ensures t == s.(config := s.config.(params := Merge(s.config.params, u)))
  {
  }

  /** Apart from those, the supply moves down or up to the ceiling, and the ceiling does not move. */
  lemma OthersKeepCeiling(hash: Digest, s: State, e: Entry, t: State)
    requires Step(hash, s, e) == Ok(t) && !e.call.Govern?
    ensures t.config.params == s.config.params && t.config.venue == s.config.venue
    ensures t.config.book.totalSynthetic <= s.config.book.totalSynthetic
            || WithinCeiling(t.config, t.config.book.totalSynthetic)
  {
    StepFramed(hash, s, e, t);
    if t.config.book.totalSynthetic > s.config.book.totalSynthetic {
      SupplyRaisesUnderCeiling(hash, s, e, t);
    }
  }

  lemma CapDecided(hash: Digest)
    ensures Decides(hash, CapRespected(), UnderCap())
  {
    forall s, e | UnderCap()(s) && Step(hash, s, e).Ok?
      ensures CapRespected()(s, e) <==> UnderCap()(Step(hash, s, e).value)
    {
      if e.call.Govern? {
        AdminCuts(s, e, Step(hash, s, e).value);
      } else {
        OthersKeepCeiling(hash, s, e, Step(hash, s, e).value);
      }
    }
  }

  /** The supply stays at or below the cap throughout a run exactly when every successful update of the run leaves
      a cap at or above the supply of its moment. */
  lemma CapHeldExactly(hash: Digest, s: State, run: seq<Entry>)
    requires Initial(s)
    ensures Throughout(hash, s, run, UnderCap()) <==> Along(hash, s, run, CapRespected())
  {
    CapDecided(hash);
    ThroughoutExactly(hash, s, run, CapRespected(), UnderCap());
  }

  lemma CeilingCarries(c: Config, d: Config, supply: nat, less: nat)
    requires WithinCeiling(c, supply) && less <= supply
    requires d.params == c.params && d.venue.capacity == c.venue.capacity
    ensures WithinCeiling(d, less)
  {
  }

  lemma CeilingDecided(hash: Digest)
    ensures Decides(hash, CeilingRespected(), UnderCeiling())
  {
    forall s, e | UnderCeiling()(s) && Step(hash, s, e).Ok?
      ensures CeilingRespected()(s, e) <==> UnderCeiling()(Step(hash, s, e).value)
    {
      var t := Step(hash, s, e).value;
      if e.call.Govern? {
        AdminCuts(s, e, t);
      } else {
        OthersKeepCeiling(hash, s, e, t);
        if t.config.book.totalSynthetic <= s.config.book.totalSynthetic {
          CeilingCarries(s.config, t.config, s.config.book.totalSynthetic, t.config.book.totalSynthetic);
        }
      }
    }
  }

  /** The same for the whole ceiling, which venue reports can lower too. */
  lemma CeilingHeldExactly(hash: Digest, s: State, run: seq<Entry>)
    requires Initial(s)
    ensures Throughout(hash, s, run, UnderCeiling()) <==> Along(hash, s, run, CeilingRespected())
  {
    CeilingDecided(hash);
    ThroughoutExactly(hash, s, run, CeilingRespected(), UnderCeiling());
  }

  // ---------------------------------------------------------------- the minimum bond

  ghost function FlagsTrue(): State -> bool {
    (s: State) => ActiveMeansBonded(s)
  }

  /** An update moves the minimum past no keeper's bond. */
  ghost function FlagsRespected(): (State, Entry) -> bool {
    (s: State, e: Entry) =>
      e.call.Govern? && e.call.a.SetParams? ==>
        forall k :: k in s.keepers ==>
          (s.keepers[k].active <==> s.keepers[k].bonded >= Merge(s.config.params, e.call.a.update).minKeeperBond)
  }

  lemma AdminFlags(s: State, e: Entry, t: State)
    requires ActiveMeansBonded(s) && e.call.Govern? && AdminStep(s, e.env, e.call.a) == Ok(t)
    ensures FlagsRespected()(s, e) <==> ActiveMeansBonded(t)
  {
    AdminFrame(s, e.env, e.call.a, t);
    AdminCuts(s, e, t);
  }

  lemma FlagsDecided(hash: Digest)
    ensures Decides(hash, FlagsRespected(), FlagsTrue())
  {
    forall s, e | FlagsTrue()(s) && Step(hash, s, e).Ok?
      ensures FlagsRespected()(s, e) <==> FlagsTrue()(Step(hash, s, e).value)
    {
      var t := Step(hash, s, e).value;
      if e.call.Govern? {
        AdminFlags(s, e, t);
      } else {
        StepFramed(hash, s, e, t);
        StepActive(hash, s, e, t);
      }
    }
  }

  /** A keeper is active exactly when it holds the minimum, throughout a run, exactly when no successful update of
      the run moves the minimum past the bond of a keeper. */
  lemma ActiveHeldExactly(hash: Digest, s: State, run: seq<Entry>)
    requires Initial(s)
    ensures Throughout(hash, s, run, FlagsTrue()) <==> Along(hash, s, run, FlagsRespected())
  {
    FlagsDecided(hash);
    ThroughoutExactly(hash, s, run, FlagsRespected(), FlagsTrue());
  }

  // ---------------------------------------------------------------- confirmations and the issuance gates

  /** The market as the issuance gates see it: last report, apart from its capacity, and hedge. */
  function Remarked(s: State, venue: Venue, hedged: u64): State {
    s.(config := s.config.(venue := venue, book := s.config.book.(hedgedNotional := hedged)))
  }

  /** Whatever the report says and however the book is hedged, a confirmation has the same outcome, as long as the
      reported capacity is the same and the new hedge fits its counter. */
  lemma ConfirmIgnoresGates(s: State, env: Env, m: MintCall, venue: Venue, hedged: u64)
    requires m.ConfirmMint? && venue.capacity == s.config.venue.capacity
    requires hedged + m.filled <= U64_MAX && s.config.book.hedgedNotional + m.filled <= U64_MAX
    ensures var a, b := MintStep(s, env, m), MintStep(Remarked(s, venue, hedged), env, m);
            && (a.Ok? ==> b == Ok(Remarked(a.value, venue, hedged + m.filled)))
            && (a.Err? ==> b == a)
  {
    var id, t := RequestId(m.user, m.nonce), Remarked(s, venue, hedged);
    if id in s.mints {
      SettlementIgnoresMarket(s.config, t.config, env, s.mints[id], m.filled);
      CeilingIgnoresMarket(s.config, t.config);
      if MintStep(s, env, m).Ok? {
        assert MintStep(t, env, m).Ok?;
      }
    }
  }

  lemma CeilingIgnoresMarket(c: Config, d: Config)
    requires d.params == c.params && d.venue.capacity == c.venue.capacity
    ensures SupplyCeiling(d) == SupplyCeiling(c)
  {
  }

  lemma SettlementIgnoresMarket(c: Config, d: Config, env: Env, r: MintRequest, filled: u64)
    requires d.params == c.params
    requires d.collateralDecimals == c.collateralDecimals && d.syntheticDecimals == c.syntheticDecimals
    ensures MintSettlement(d, env, r, filled) == MintSettlement(c, env, r, filled)
  {
  }

  // ---------------------------------------------------------------- a run that breaks them all

  function Report(netCarryBps: i32): Entry {
    Entry(Govern(ReportVenueState(Person(0), 1, netCarryBps, 1_000)), ENV)
  }

  const REGISTER: Entry := Entry(Bonding(Register(Person(2), 5)), ENV)
  const REQUEST: Entry := Entry(Issue(RequestMint(Person(1), 0, 100, 0)), ENV)
  const CONFIRM: Entry := Entry(Issue(ConfirmMint(Person(2), Person(1), 0, Person(1).bytes, 1, 100)), ENV)

  const KEEP: UpdateParams := UpdateParams(
    None, None, None, None, None, None, None, None, None, None, None, None, None, None, None, None, None, None, None,
    None, None, None, None)

  /** A cap of 50 and a minimum bond of 10. */
  const CUTS: UpdateParams := KEEP.(maxSyntheticSupply := Some(50), minKeeperBond := Some(10))
  const CUT: Entry := Entry(Govern(SetParams(Person(0), CUTS)), ENV)

  const KEEPER: Keeper := Keeper(5, 0, 0, 1, 0, 0, 1, true)
  const ASKED: MintRequest := MintRequest(100, 100, 0, 1, 1, 61, 1, 0)
  const ID: RequestId := RequestId(Person(1), 0)

  /** The opened state with a bonded keeper, a report, a book and the open mint requests. */
  ghost predicate Bench(s: State, bonded: bool, venue: Venue, book: Book, mints: map<RequestId, MintRequest>) {
    && s.config == OPENED.config.(bonds := if bonded then Bonds(5, 0, 1) else Bonds(0, 0, 0),
                                  venue := venue, book := book)
    && s.keepers == (if bonded then map[][Person(2) := KEEPER] else map[])
    && s.mints == mints && s.tokens.syntheticSupply == 9
  }

  const QUIET: Venue := Venue(0, 0, 0, 0, 0)
  const EMPTY: Book := Book(0, 0, 0, 0, 0)

  lemma Registers(hash: Digest, s: State)
    requires Bench(s, false, QUIET, EMPTY, map[]) && Balance(s.tokens.bond, User(Person(2))) == 5
    ensures Bench(Exec(hash, s, REGISTER), true, QUIET, EMPTY, map[])
    ensures Exec(hash, s, REGISTER).tokens.collateral == s.tokens.collateral
  {
    var t := KeeperRegisterSpec(s, ENV, Person(2), 5);
    assert t.Ok? && t.value.keepers == map[][Person(2) := KEEPER];
  }

  lemma Reports(hash: Digest, s: State, venue: Venue, netCarryBps: i32, book: Book, mints: map<RequestId, MintRequest>)
    requires Bench(s, true, venue, book, mints)
    requires venue.stateAt <= 1 && Abs(netCarryBps) <= 10 && venue.negativeSince == 0
    ensures Bench(Exec(hash, s, Report(netCarryBps)), true,
                  Venue(1, 1_000, netCarryBps, if netCarryBps < 0 then 1 else 0, 1), book, mints)
    ensures Exec(hash, s, Report(netCarryBps)).tokens == s.tokens
  {
    FirstVenueEnabled();
    var t := ReportVenueStateSpec(s, ENV, Person(0), 1, netCarryBps, 1_000);
    assert t == Ok(s.(config := s.config.(venue := Venue(1, 1_000, netCarryBps, if netCarryBps < 0 then 1 else 0, 1))));
  }

  lemma OneToOne(c: Config, amount: u64)
    requires c.collateralDecimals == 6 && c.syntheticDecimals == 6 && c.params == PARAMS
    ensures LoadPrice(ENV, PARAMS) == Ok(ENV.feed) && BookNotional(c, amount, ENV.feed) == Ok(amount)
  {
    assert Pow10(0) == Ok(1);
    assert ConfidenceBps(0, 1) == Ok(0);
    assert amount * 1 * 1 == amount;
  }

  lemma Requests(hash: Digest, s: State)
    requires Bench(s, true, Venue(1, 1_000, 0, 0, 1), EMPTY, map[])
    requires Balance(s.tokens.collateral, User(Person(1))) == 100
    ensures Bench(Exec(hash, s, REQUEST), true, Venue(1, 1_000, 0, 0, 1), Book(0, 100, 0, 0, 0), map[][ID := ASKED])
  {
    OneToOne(s.config, 100);
    Ceiling(s.config);
  }

  const BOOKED: Book := Book(100, 0, 100, 0, 100)

  lemma Issues()
    ensures IssueTerms(PARAMS, 100) == Ok(Terms(100, 0, 100))
  {
    assert DivBpsFloor(100, 10_000) == Ok(100);
    assert MulBpsCeil(100, 0) == Ok(0);
  }

  lemma FillAccepted()
    ensures FillGate(100, 100, 100) == Ok(())
  {
    assert MulBpsFloor(100, 9_900) == Ok(99);
    assert MulBpsCeil(100, 10_100) == Ok(101);
  }

  lemma Values(c: Config)
    requires c.collateralDecimals == 6 && c.syntheticDecimals == 6 && c.params == PARAMS
    ensures EffectiveNotional(c, 100, 100, ENV.feed) == Ok(100)
  {
    OneToOne(c, 100);
  }

  lemma Settles(c: Config)
    requires c.collateralDecimals == 6 && c.syntheticDecimals == 6 && c.params == PARAMS
    ensures MintSettlement(c, ENV, ASKED, 100) == Ok(Terms(100, 0, 100))
  {
    OneToOne(c, 100);
    Values(c);
    Issues();
    FillAccepted();
  }

  lemma Ceiling(c: Config)
    requires c.params == PARAMS && c.venue.capacity == 1_000
    ensures SupplyCeiling(c) == Ok(1_000)
  {
  }

  lemma ProofGiven()
    ensures Person(1).bytes != ZERO_HASH
  {
    assert Person(1).bytes[0] == 1 && ZERO_HASH[0] == 0;
  }

  lemma FirstVenueEnabled()
    ensures VenueEnabled(PARAMS.venueFlags, 1)
  {
  }

  lemma Confirms(hash: Digest, s: State)
    requires Bench(s, true, Venue(1, 1_000, -5, 1, 1), Book(0, 100, 0, 0, 0), map[][ID := ASKED])
    ensures var t := Exec(hash, s, CONFIRM);
            t.config == s.config.(book := BOOKED) && t.keepers == s.keepers
    ensures Step(hash, s, CONFIRM).Ok?
  {
    Settles(s.config);
    Ceiling(s.config);
    ProofGiven();
    FirstVenueEnabled();
    assert KeeperGate(s.keepers, Person(2), 1) == Pass;
    var t := MintConfirmSpec(s, ENV, Person(2), Person(1), 0, Person(1).bytes, 1, 100);
    assert t.Ok?;
    assert Step(hash, s, CONFIRM) == t;
  }

  lemma CutsValid()
    ensures Merge(PARAMS, CUTS) == PARAMS.(maxSyntheticSupply := 50, minKeeperBond := 10)
    ensures ValidateParams(Merge(PARAMS, CUTS)) == Ok(())
  {
    assert 2 & !VENUE_FLAGS_MASK == 0;
  }

  lemma Cuts(hash: Digest, s: State)
    requires s.config.params == PARAMS && s.config.authority == Person(0)
    ensures Exec(hash, s, CUT)
            == s.(config := s.config.(params := PARAMS.(maxSyntheticSupply := 50, minKeeperBond := 10)))
  {
    CutsValid();
  }

  /** A confirmation goes through although no request would be admitted any more. */
  ghost predicate ConfirmsOutsideGates(hash: Digest, s: State) {
    Step(hash, s, CONFIRM).Ok? && IssuanceGates(s.config, ENV.now, ENV.feed) == Err(CarryBelowFloor)
  }

  /** More supply than the cap, and an active keeper below the minimum bond. */
  ghost predicate Overtaken(s: State) {
    && s.config.book.totalSynthetic == 100 && s.config.params.maxSyntheticSupply == 50
    && Person(2) in s.keepers && s.keepers[Person(2)].active
    && s.keepers[Person(2)].bonded == 5 && s.config.params.minKeeperBond == 10
  }

  lemma CarryStops(c: Config)
    requires c.params == PARAMS && c.venue == Venue(1, 1_000, -5, 1, 1)
    ensures IssuanceGates(c, 1, ENV.feed) == Err(CarryBelowFloor)
  {
  }

  /** One run from initialisation: a deposit is requested at carry 0 and confirmed at carry -5, below the floor; then
      one valid update cuts the cap below the supply and raises the minimum above the keeper's bond. */
  lemma BoundsBreak(hash: Digest) returns (before: seq<Entry>, after: seq<Entry>)
    ensures Initial(START)
    ensures ConfirmsOutsideGates(hash, Run(hash, START, before))
    ensures Overtaken(Run(hash, START, after))
  {
    StartIsInitial();
    PeopleDiffer(1, 2);
    before := Opens(hash);
    Registers(hash, Run(hash, START, before));
    before := OneMore(hash, START, before, REGISTER);
    Reports(hash, Run(hash, START, before), QUIET, 0, EMPTY, map[]);
    before := OneMore(hash, START, before, Report(0));
    Requests(hash, Run(hash, START, before));
    before := OneMore(hash, START, before, REQUEST);
    Reports(hash, Run(hash, START, before), Venue(1, 1_000, 0, 0, 1), -5, Book(0, 100, 0, 0, 0), map[][ID := ASKED]);
    before := OneMore(hash, START, before, Report(-5));
    Confirms(hash, Run(hash, START, before));
    CarryStops(Run(hash, START, before).config);
    after := OneMore(hash, START, before, CONFIRM);
    Cuts(hash, Run(hash, START, after));
    after := OneMore(hash, START, after, CUT);
  }
}
