/**
 When each call of the funding pallet is accepted and what it leaves behind, in the terms of the design:
 rounds started and ended, projects registered, whole units taxed, points counted by triangular numbers.
 */
module FundingCalls {
  import opened Prelude
  import opened Currency
  import opened QuadraticFunding
  import opened FundingRuns
  import opened FundingSums
  import opened FundingBooks
  import opened FundingTheorems

  const NO_PROJECT := Project(0, 0, 0, [], DEFAULT_ACCOUNT)

  function RoundOf(s: Storage, r: nat): Round {
    GetOr(s.rounds, r, NO_ROUND)
  }

  function ProjectOf(s: Storage, key: ProjectKey): Project {
    GetOr(s.projects, key, NO_PROJECT)
  }

  // ----- what has happened -----

  datatype Fact =
    | Started(startedRound: nat)
    | Ended(endedRound: nat)
    | Registered(key: ProjectKey, owner: AccountId, name: seq<u8>)

  /** The event that establishes a fact: rounds are started and ended by root. */
  predicate Establishes(e: Event, f: Fact) {
    e.Dispatch? &&
    match f
    case Started(r) => e.origin == Root && e.call.StartRound? && e.call.startedRound == r
    case Ended(r) => e.origin == Root && e.call.EndRound? && e.call.endedRound == r
    case Registered(key, owner, name) =>
      e.origin == Signed(owner) && e.call.RegisterProject?
      && (e.call.registeredRound, e.call.registeredHash) == key && e.call.name == name
  }

  predicate Happened(cfg: Config, balances: Ledger, events: seq<Event>, f: Fact) {
    events != [] &&
    (var prefix, e := events[..|events| - 1], events[|events| - 1];
     Happened(cfg, balances, prefix, f) || (Succeeds(cfg, Run(cfg, balances, prefix).st, e) && Establishes(e, f)))
  }

  predicate Holds(s: Storage, f: Fact) {
    match f
    case Started(r) => r in s.rounds
    case Ended(r) => r in s.rounds && !s.rounds[r].ongoing
    case Registered(key, owner, name) =>
      key in s.projects && s.projects[key].owner == owner && s.projects[key].name == name
  }

  lemma FactAfterEvent(cfg: Config, s: Storage, e: Event, f: Fact)
    requires Succeeds(cfg, s, e)
    ensures Holds(NextStorage(cfg, s, e), f) <==> Holds(s, f) || Establishes(e, f)
  {
    if e.Dispatch? {
      FactAfterStep(cfg, s, e.origin, e.call, f);
    }
  }

  lemma FactAfterStep(cfg: Config, s: Storage, o: Origin, c: Call, f: Fact)
    requires WellFormed(s, c) && Check(cfg, s, o, c).Accept?
    ensures Holds(Effect(cfg, s, o, c), f) <==> Holds(s, f) || Establishes(Dispatch(o, c), f)
  {
  }

  /** On every run the storage knows exactly the rounds that root started, which of them root ended, and the
      projects registered, each under its name for the signer who registered it. */
  lemma {:induction false} StorageKeepsFacts(cfg: Config, balances: Ledger, events: seq<Event>, f: Fact)
    ensures Holds(Run(cfg, balances, events).st, f) <==> Happened(cfg, balances, events, f)
  {
    if events != [] {
      var prefix, e := events[..|events| - 1], events[|events| - 1];
      StorageKeepsFacts(cfg, balances, prefix, f);
      if Succeeds(cfg, Run(cfg, balances, prefix).st, e) {
        FactAfterEvent(cfg, Run(cfg, balances, prefix).st, e, f);
      }
    }
  }

  predicate Running(cfg: Config, balances: Ledger, events: seq<Event>, r: nat) {
    Happened(cfg, balances, events, Started(r)) && !Happened(cfg, balances, events, Ended(r))
  }

  lemma RunningIsOngoing(cfg: Config, balances: Ledger, events: seq<Event>, r: nat)
    ensures Running(cfg, balances, events, r) <==> Ongoing(Run(cfg, balances, events).st, r)
  {
    StorageKeepsFacts(cfg, balances, events, Started(r));
    StorageKeepsFacts(cfg, balances, events, Ended(r));
  }

  // ----- rounds and projects -----

  /** A round can be started by root and nobody else, and only once, even after it has ended. */
  lemma StartAcceptedIff(cfg: Config, balances: Ledger, events: seq<Event>, o: Origin, r: u32)
    ensures Check(cfg, Run(cfg, balances, events).st, o, StartRound(r)).Accept?
            <==> o == Root && !Happened(cfg, balances, events, Started(r))
  {
    StorageKeepsFacts(cfg, balances, events, Started(r));
  }

  /** It starts with nothing in it, and no other round changes. */
  lemma StartedRound(cfg: Config, s: Storage, o: Origin, r: u32)
    requires Check(cfg, s, o, StartRound(r)).Accept?
    ensures var s' := Effect(cfg, s, o, StartRound(r));
            && r in s'.rounds && s'.rounds[r].ongoing && s'.rounds - {r} == s.rounds
            && s'.rounds[r].supportPool == s'.rounds[r].preTaxSupportPool == s'.rounds[r].totalTax == 0
            && s'.rounds[r].totalSupportArea == 0
            && s' == s.(rounds := s'.rounds)
  {
  }

  /** A round can be ended by root and nobody else, while it runs, if the final grants of each of its projects
      fit their type. */
  lemma EndAcceptedIff(cfg: Config, balances: Ledger, events: seq<Event>, o: Origin, r: u32, order: seq<Hash>)
    requires cfg.Valid() && Enumerates(Run(cfg, balances, events).st, r, order)
    ensures var s := Run(cfg, balances, events).st;
            Check(cfg, s, o, EndRound(r, order)).Accept?
            <==> && o == Root && Running(cfg, balances, events, r)
                 && forall key :: key in s.projects && key.0 == r ==> Fits(FinalGrants(s.projects[key], RoundOf(s, r)))
  {
    RunningIsOngoing(cfg, balances, events, r);
    EndRoundSucceedsIff(cfg, balances, events, r, order);
  }

  /** Ending a round touches nothing but its own flag and balances. */
  lemma EndedRound(cfg: Config, s: Storage, o: Origin, r: u32, order: seq<Hash>)
    requires WellFormed(s, EndRound(r, order)) && Check(cfg, s, o, EndRound(r, order)).Accept?
    ensures var s' := Effect(cfg, s, o, EndRound(r, order));
            && s'.projects == s.projects && s'.projectVotes == s.projectVotes && s'.rounds.Keys == s.rounds.Keys
            && forall j :: j in s.rounds ==> s'.rounds[j] == s.rounds[j].(ongoing := s.rounds[j].ongoing && j != r)
  {
  }

  ghost predicate RegisteredBefore(cfg: Config, balances: Ledger, events: seq<Event>, key: ProjectKey) {
    exists owner, name :: Happened(cfg, balances, events, Registered(key, owner, name))
  }

  lemma RegisteredIsStored(cfg: Config, balances: Ledger, events: seq<Event>, key: ProjectKey)
    ensures RegisteredBefore(cfg, balances, events, key) <==> key in Run(cfg, balances, events).st.projects
  {
    var s := Run(cfg, balances, events).st;
    if key in s.projects {
      StorageKeepsFacts(cfg, balances, events, Registered(key, s.projects[key].owner, s.projects[key].name));
    }
    if RegisteredBefore(cfg, balances, events, key) {
      var owner, name :| Happened(cfg, balances, events, Registered(key, owner, name));
      StorageKeepsFacts(cfg, balances, events, Registered(key, owner, name));
    }
  }

  /** A project can be registered by any signer, once in each round, under a name of allowed length. */
  lemma RegisterAcceptedIff(cfg: Config, balances: Ledger, events: seq<Event>, o: Origin, r: u32, hash: Hash, name: seq<u8>)
    ensures Check(cfg, Run(cfg, balances, events).st, o, RegisterProject(r, hash, name)).Accept?
            <==> && o.Signed? && cfg.nameMinLength <= |name| <= cfg.nameMaxLength
                 && !RegisteredBefore(cfg, balances, events, (r, hash))
  {
    RegisteredIsStored(cfg, balances, events, (r, hash));
  }

  /** It starts without votes, grants and area, and nothing else changes. */
  lemma RegisteredProject(cfg: Config, s: Storage, o: Origin, r: u32, hash: Hash, name: seq<u8>)
    requires Check(cfg, s, o, RegisterProject(r, hash, name)).Accept?
    ensures var s' := Effect(cfg, s, o, RegisterProject(r, hash, name));
            && (r, hash) in s'.projects && s'.projects - {(r, hash)} == s.projects
            && var p := s'.projects[(r, hash)];
               && p.totalVotes == p.grants == p.supportArea == 0 && o == Signed(p.owner) && p.name == name
               && s' == s.(projects := s'.projects)
  {
  }

  // ----- donations -----

  function WholeUnits(cfg: Config, amount: nat): nat
    requires cfg.numberOfUnitPerVote > 0
  {
    amount / cfg.numberOfUnitPerVote
  }

  function FeeOn(cfg: Config, units: nat): nat {
    cfg.feeRatioPerVote * units
  }

  /** The round's figures after a donation fit. */
  predicate GiftFits(rnd: Round, amount: nat, fee: nat) {
    Fits(rnd.preTaxSupportPool + amount) && Fits(rnd.totalTax + fee) && Fits(rnd.supportPool + amount - fee)
  }

  /** A donation of q whole units is accepted if and only if it is signed, the round runs, the amount exceeds the
      price of one point, and the round's new figures fit. */
  lemma DonateAcceptedIff(cfg: Config, balances: Ledger, events: seq<Event>, o: Origin, r: u32, amount: u128, q: nat)
    requires cfg.Valid()
    requires q * cfg.numberOfUnitPerVote <= amount < q * cfg.numberOfUnitPerVote + cfg.numberOfUnitPerVote
    ensures var s := Run(cfg, balances, events).st;
            Check(cfg, s, o, Donate(r, amount)).Accept?
            <==> && o.Signed? && Running(cfg, balances, events, r)
                 && cfg.unitOfVote * cfg.numberOfUnitPerVote < amount
                 && GiftFits(RoundOf(s, r), amount, FeeOn(cfg, q))
  {
    RunningIsOngoing(cfg, balances, events, r);
    DonationVerdict(cfg, Run(cfg, balances, events).st, r, amount, q);
  }

  lemma DonationVerdict(cfg: Config, s: Storage, r: u32, amount: u128, q: nat)
    requires cfg.Valid()
    requires q * cfg.numberOfUnitPerVote <= amount < q * cfg.numberOfUnitPerVote + cfg.numberOfUnitPerVote
    ensures var price, fee := cfg.unitOfVote * cfg.numberOfUnitPerVote, FeeOn(cfg, q);
            && (DonateCheck(cfg, s, r, amount).Accept?
                <==> Ongoing(s, r) && price < amount && GiftFits(RoundOf(s, r), amount, fee))
            && (DonateCheck(cfg, s, r, amount).Trap?
                <==> Ongoing(s, r) && (!Fits(price) || (price < amount && !GiftFits(RoundOf(s, r), amount, fee))))
  {
    DonationPrice(cfg, amount, q);
    DonationFigures(cfg, s, r, amount, CalAmount(cfg, 1), DonationFee(cfg, amount));
  }

  lemma DonationFigures(cfg: Config, s: Storage, r: u32, amount: u128, price: nat, fee: nat)
    requires cfg.numberOfUnitPerVote > 0 && price == CalAmount(cfg, 1) && fee == DonationFee(cfg, amount) <= amount
    requires AmountFits(cfg, 1) <==> Fits(price)
    ensures DonateCheck(cfg, s, r, amount).Accept?
            <==> Ongoing(s, r) && price < amount && GiftFits(RoundOf(s, r), amount, fee)
    ensures DonateCheck(cfg, s, r, amount).Trap?
            <==> Ongoing(s, r) && (!Fits(price) || (price < amount && !GiftFits(RoundOf(s, r), amount, fee)))
  {
  }

  lemma DonationPrice(cfg: Config, amount: u128, q: nat)
    requires cfg.Valid()
    requires q * cfg.numberOfUnitPerVote <= amount < q * cfg.numberOfUnitPerVote + cfg.numberOfUnitPerVote
    ensures 0 <= DonationFee(cfg, amount) == cfg.feeRatioPerVote * q <= amount
    ensures 0 <= CalAmount(cfg, 1) == cfg.unitOfVote * cfg.numberOfUnitPerVote
    ensures AmountFits(cfg, 1) <==> Fits(CalAmount(cfg, 1))
  {
    FeeOnWholeUnits(cfg, amount, q);
    FeesNeverExceedAmounts(cfg, amount, 0);
  }

  /** If a point has no units, every donation panics or is rejected. */
  lemma DonationsNeedUnits(cfg: Config, s: Storage, o: Origin, r: u32, amount: u128)
    requires cfg.numberOfUnitPerVote == 0
    ensures !Check(cfg, s, o, Donate(r, amount)).Accept?
  {
  }

  /** What a donation of q whole units adds to the round: the amount before tax, the fee ratio per unit to the
      tax, the rest to the pool. No other round changes, and no project and no vote. */
  lemma DonatedRound(cfg: Config, s: Storage, o: Origin, r: u32, amount: u128, q: nat)
    requires Check(cfg, s, o, Donate(r, amount)).Accept?
    requires q * cfg.numberOfUnitPerVote <= amount < q * cfg.numberOfUnitPerVote + cfg.numberOfUnitPerVote
    ensures var s' := Effect(cfg, s, o, Donate(r, amount));
            && s'.rounds.Keys == s.rounds.Keys
            && (forall j :: j in s.rounds && j != r ==> s'.rounds[j] == s.rounds[j])
            && s'.projects == s.projects && s'.projectVotes == s.projectVotes
            && var a, b := s.rounds[r], s'.rounds[r];
               && b.preTaxSupportPool == a.preTaxSupportPool + amount
               && b.totalTax == a.totalTax + cfg.feeRatioPerVote * q
               && b.supportPool == a.supportPool + amount - cfg.feeRatioPerVote * q
               && b.totalSupportArea == a.totalSupportArea && b.ongoing
  {
    FeeOnWholeUnits(cfg, amount, q);
  }

  // ----- votes -----

  /** Everything a vote computes fits: with v votes so far, b more, at a cost of c points. */
  predicate VoteFits(cfg: Config, p: Project, rnd: Round, v: nat, b: nat, c: nat) {
    && Fits(b * (b + 1)) && Fits(b * v) && Fits(c) && Fits(cfg.unitOfVote * cfg.numberOfUnitPerVote * c)
    && Fits(p.totalVotes + b)
    && Fits(rnd.totalSupportArea + b * (p.totalVotes - v))
    && Fits(p.grants + (cfg.unitOfVote * cfg.numberOfUnitPerVote * c - cfg.unitOfVote * cfg.feeRatioPerVote * c))
    && Fits(rnd.totalTax + cfg.unitOfVote * cfg.feeRatioPerVote * c)
  }

  lemma CostIsDifference(v: nat, b: nat, c: nat)
    requires 2 * c == (v + b) * (v + b + 1) - v * (v + 1)
    ensures CalCost(v, b) == c
  {
    CostIsTriangleStep(v, b);
    TwiceTriangle(v);
    TwiceTriangle(v + b);
  }

  lemma FactorFits(x: nat, y: nat)
    requires 0 < y && Fits(x * y)
    ensures Fits(x)
  {
    TimesMonotone(1, y, x);
  }

  lemma VoteCosts(b: nat, v: nat)
    requires 0 < b
    ensures 0 < CalCost(v, b) && 0 <= b * v && b <= b * (b + 1)
  {
    CostIsTriangleStep(v, b);
    TriangleGrows(v, b);
    TimesMonotone(0, b, v);
    TimesMonotone(1, b + 1, b);
  }

  lemma {:induction false} TriangleGrows(v: nat, b: nat)
    requires 0 < b
    ensures Triangle(v) < Triangle(v + b)
  {
    if b > 1 {
      TriangleGrows(v, b - 1);
    }
  }

  /** The figures of one vote fit if and only if the largest of them do. */
  lemma VotePanicsIff(cfg: Config, p: Project, rnd: Round, v: nat, b: nat)
    requires cfg.Valid() && 0 < b && v <= p.totalVotes && p.supportArea <= rnd.totalSupportArea
    ensures VotePanics(cfg, p, rnd, v, b) <==> !VoteFits(cfg, p, rnd, v, b, CalCost(v, b))
  {
    var c, gained := CalCost(v, b), b * (p.totalVotes - v);
    VoteCosts(b, v);
    AmountLessFee(cfg, c);
    TimesMonotone(0, b, p.totalVotes - v);
    if Fits(CalAmount(cfg, c)) {
      FactorFits(cfg.unitOfVote * cfg.numberOfUnitPerVote, c);
      TimesMonotone(cfg.feeRatioPerVote, cfg.numberOfUnitPerVote, cfg.unitOfVote);
    }
  }

  /** What the books say about a project that is voted on and its round. */
  lemma VotedFigures(cfg: Config, balances: Ledger, events: seq<Event>, who: AccountId, r: nat, hash: Hash)
    requires cfg.Valid() && (r, hash) in Run(cfg, balances, events).st.projects && r in Run(cfg, balances, events).st.rounds
    ensures var w, key := Run(cfg, balances, events), (r, hash);
            && VotesBy(w.st, key, who) == Cumulative(w.log, (key, who)) <= w.st.projects[key].totalVotes
            && w.st.projects[key].supportArea <= w.st.rounds[r].totalSupportArea
  {
    var w := Run(cfg, balances, events);
    RunsKeepLog(cfg, balances, events);
    assert VoterOk(w, ((r, hash), who));
    PairwiseSupportArea(cfg, balances, events, (r, hash));
    RoundConservation(cfg, balances, events, r);
    RoundSumRemove(w.st.projects, r, Area, (r, hash));
  }

  lemma VoteCheckIff(cfg: Config, balances: Ledger, events: seq<Event>, who: AccountId, r: nat, hash: Hash, b: nat, c: nat)
    requires cfg.Valid() && 0 < b
    requires var v := Cumulative(Run(cfg, balances, events).log, ((r, hash), who));
             2 * c == (v + b) * (v + b + 1) - v * (v + 1)
    ensures var w := Run(cfg, balances, events);
            VoteCheck(cfg, w.st, who, r, hash, b).Accept?
            <==> && (r, hash) in w.st.projects && Ongoing(w.st, r)
                 && VoteFits(cfg, ProjectOf(w.st, (r, hash)), RoundOf(w.st, r), Cumulative(w.log, ((r, hash), who)), b, c)
  {
    var w := Run(cfg, balances, events);
    if (r, hash) in w.st.projects && Ongoing(w.st, r) {
      var v := Cumulative(w.log, ((r, hash), who));
      VotedFigures(cfg, balances, events, who, r, hash);
      CostIsDifference(v, b, c);
      VotePanicsIff(cfg, w.st.projects[(r, hash)], w.st.rounds[r], v, b);
    }
  }

  /** A vote of b on top of v votes, which costs the difference of two triangular numbers, is accepted if and only
      if it is signed, it is not empty, the project is registered, the round runs, and all figures fit. */
  lemma VoteAcceptedIff(cfg: Config, balances: Ledger, events: seq<Event>, o: Origin, r: u32, hash: Hash, b: u128, c: nat)
    requires cfg.Valid()
    requires var v := if o.Signed? then Cumulative(Run(cfg, balances, events).log, ((r, hash), o.who)) else 0;
             2 * c == (v + b) * (v + b + 1) - v * (v + 1)
    ensures var w := Run(cfg, balances, events);
            Check(cfg, w.st, o, Vote(r, hash, b)).Accept?
            <==> && o.Signed? && 0 < b && RegisteredBefore(cfg, balances, events, (r, hash))
                 && Running(cfg, balances, events, r)
                 && VoteFits(cfg, ProjectOf(w.st, (r, hash)), RoundOf(w.st, r), Cumulative(w.log, ((r, hash), o.who)), b, c)
  {
    RegisteredIsStored(cfg, balances, events, (r, hash));
    RunningIsOngoing(cfg, balances, events, r);
    if o.Signed? && 0 < b {
      VoteCheckIff(cfg, balances, events, o.who, r, hash, b, c);
    }
  }

  /** A vote changes one voter's votes, one project's figures and one round's figures, and nothing else. */
  lemma OthersStayAfterVote(cfg: Config, s: Storage, o: Origin, r: u32, hash: Hash, b: u128)
    requires Check(cfg, s, o, Vote(r, hash, b)).Accept?
    ensures var s', key := Effect(cfg, s, o, Vote(r, hash, b)), (r, hash);
            && s'.projectVotes == s.projectVotes[(key, o.who) := VotesBy(s, key, o.who) + b]
            && s'.projects.Keys == s.projects.Keys && s'.rounds.Keys == s.rounds.Keys
            && (forall k :: k in s.projects && k != key ==> s'.projects[k] == s.projects[k])
            && (forall j :: j in s.rounds && j != r ==> s'.rounds[j] == s.rounds[j])
            && s'.projects[key].owner == s.projects[key].owner && s'.projects[key].name == s.projects[key].name
            && s'.rounds[r].ongoing && s'.rounds[r].supportPool == s.rounds[r].supportPool
            && s'.rounds[r].preTaxSupportPool == s.rounds[r].preTaxSupportPool
  {
  }

  // ----- the ranking -----

  lemma UnitsAreWhole(cfg: Config, x: nat, q: nat)
    requires cfg.unitOfVote > 0
    ensures InUnits(cfg, x) == q <==> q * cfg.unitOfVote <= x < q * cfg.unitOfVote + cfg.unitOfVote
  {
    QuotientUnique(x, cfg.unitOfVote, q);
  }

  /** A line of the ranking names the project, its votes, the whole units in its grants so far, and the whole
      units in its matching share, in this order. */
  lemma RowColumns(cfg: Config, hash: Hash, p: Project, rnd: Round)
    requires RowFits(cfg, p, rnd)
    ensures var (id, votes, grants, share) := Row(cfg, hash, p, rnd);
            && id == hash && votes == p.totalVotes
            && grants * cfg.unitOfVote <= p.grants < grants * cfg.unitOfVote + cfg.unitOfVote
            && share * cfg.unitOfVote <= MatchingShare(p, rnd) < share * cfg.unitOfVote + cfg.unitOfVote
  {
    UnitsAreWhole(cfg, p.grants, InUnits(cfg, p.grants));
    UnitsAreWhole(cfg, MatchingShare(p, rnd), InUnits(cfg, MatchingShare(p, rnd)));
  }

  lemma UnitsFit(cfg: Config, x: nat, limit: nat)
    requires cfg.unitOfVote > 0
    ensures InUnits(cfg, x) < limit <==> x < limit * cfg.unitOfVote
  {
    var q := InUnits(cfg, x);
    UnitsAreWhole(cfg, x, q);
    if q < limit {
      TimesMonotone(q + 1, limit, cfg.unitOfVote);
    } else {
      TimesMonotone(limit, q, cfg.unitOfVote);
    }
  }

  /** A line can be shown if and only if there is a unit, the share fits 128 bits, the votes are less than 2^32, and
      grants and share less than 2^32 units. */
  lemma RowFitsIff(cfg: Config, p: Project, rnd: Round)
    ensures RowFits(cfg, p, rnd)
            <==> && cfg.unitOfVote > 0 && MatchingShare(p, rnd) < U128_LIMIT && p.totalVotes < 0x1_0000_0000
                 && p.grants < 0x1_0000_0000 * cfg.unitOfVote && MatchingShare(p, rnd) < 0x1_0000_0000 * cfg.unitOfVote
  {
    if cfg.unitOfVote > 0 {
      UnitsFit(cfg, p.grants, 0x1_0000_0000);
      UnitsFit(cfg, MatchingShare(p, rnd), 0x1_0000_0000);
    }
  }

  // ----- errors -----

  /** What each error says about the call and the storage. */
  predicate ErrorHolds(cfg: Config, s: Storage, o: Origin, c: Call, e: Error) {
    match e
    case BadOrigin => if c.StartRound? || c.EndRound? then o != Root else o == Root
    case RoundExisted => c.StartRound? && c.startedRound in s.rounds
    case RoundNotExist =>
      || (c.Donate? && c.donatedRound !in s.rounds) || (c.EndRound? && c.endedRound !in s.rounds)
      || (c.Vote? && c.votedRound !in s.rounds)
    case RoundHasEnded =>
      || (c.Donate? && Holds(s, Ended(c.donatedRound))) || (c.EndRound? && Holds(s, Ended(c.endedRound)))
      || (c.Vote? && Holds(s, Ended(c.votedRound)))
    case DonationTooSmall => c.Donate? && c.amount <= cfg.unitOfVote * cfg.numberOfUnitPerVote
    case ProjectNameTooShort => c.RegisterProject? && |c.name| < cfg.nameMinLength
    case ProjectNameTooLong => c.RegisterProject? && cfg.nameMaxLength < |c.name|
    case DuplicateProject => c.RegisterProject? && (c.registeredRound as nat, c.registeredHash) in s.projects
    case ProjectNotExist => c.Vote? && (c.votedRound as nat, c.votedHash) !in s.projects
    case InvalidBallot => c.Vote? && c.ballot == 0
  }

  /** No rejection gives a false reason. */
  lemma RejectionsAreTrue(cfg: Config, s: Storage, o: Origin, c: Call)
    requires WellFormed(s, c) && Check(cfg, s, o, c).Reject?
    ensures ErrorHolds(cfg, s, o, c, Check(cfg, s, o, c).error)
  {
  }

  /** The order in which a call looks for its errors. */
  function Rank(e: Error): nat {
    match e
    case BadOrigin => 0
    case RoundExisted => 1
    case ProjectNameTooShort => 1
    case ProjectNameTooLong => 2
    case DuplicateProject => 3
    case ProjectNotExist => 1
    case InvalidBallot => 2
    case RoundNotExist => 3
    case RoundHasEnded => 4
    case DonationTooSmall => 5
  }

  /** Of several errors the first is returned. */
  lemma FirstErrorIsReturned(cfg: Config, s: Storage, o: Origin, c: Call, e: Error)
    requires WellFormed(s, c) && Check(cfg, s, o, c).Reject? && ErrorHolds(cfg, s, o, c, e)
    ensures Rank(Check(cfg, s, o, c).error) <= Rank(e)
  {
  }

  // ----- panics -----

  /** When a call panics: points without units, or figures that do not fit their types. */
  ghost predicate PanicHolds(cfg: Config, s: Storage, o: Origin, c: Call) {
    match c
    case Donate(r, amount) =>
      o.Signed? && Ongoing(s, r)
      && (|| cfg.numberOfUnitPerVote == 0 || !Fits(cfg.unitOfVote * cfg.numberOfUnitPerVote)
          || (&& cfg.unitOfVote * cfg.numberOfUnitPerVote < amount
              && !GiftFits(RoundOf(s, r), amount, FeeOn(cfg, WholeUnits(cfg, amount)))))
    case EndRound(r, _) =>
      o == Root && Ongoing(s, r)
      && exists key :: key in s.projects && key.0 == r && !Fits(FinalGrants(s.projects[key], RoundOf(s, r)))
    case Vote(r, hash, b) =>
      o.Signed? && (r as nat, hash) in s.projects && 0 < b && Ongoing(s, r)
      && !VoteFits(cfg, ProjectOf(s, (r, hash)), RoundOf(s, r), VotesBy(s, (r, hash), o.who), b,
                   CalCost(VotesBy(s, (r, hash), o.who), b))
    case _ => false
  }

  lemma DonatePanicsIff(cfg: Config, s: Storage, o: Origin, r: u32, amount: u128)
    requires cfg.Valid() && o.Signed?
    ensures DonateCheck(cfg, s, r, amount).Trap? <==> PanicHolds(cfg, s, o, Donate(r, amount))
  {
    if cfg.numberOfUnitPerVote > 0 {
      QuotientBounds(amount, cfg.numberOfUnitPerVote);
      DonationVerdict(cfg, s, r, amount, WholeUnits(cfg, amount));
    }
  }

  lemma EndPanicsIff(cfg: Config, balances: Ledger, events: seq<Event>, r: u32, order: seq<Hash>)
    requires cfg.Valid() && Enumerates(Run(cfg, balances, events).st, r, order)
    ensures EndRoundCheck(Run(cfg, balances, events).st, r, order).Trap?
            <==> PanicHolds(cfg, Run(cfg, balances, events).st, Root, EndRound(r, order))
  {
    EndRoundSucceedsIff(cfg, balances, events, r, order);
  }

  lemma VotePanicsOnRunIff(cfg: Config, balances: Ledger, events: seq<Event>, who: AccountId, r: u32, hash: Hash, b: u128)
    requires cfg.Valid()
    ensures VoteCheck(cfg, Run(cfg, balances, events).st, who, r, hash, b).Trap?
            <==> PanicHolds(cfg, Run(cfg, balances, events).st, Signed(who), Vote(r, hash, b))
  {
    var s := Run(cfg, balances, events).st;
    if (r, hash) in s.projects && 0 < b && Ongoing(s, r) {
      VotedFigures(cfg, balances, events, who, r, hash);
      VotePanicsIff(cfg, s.projects[(r, hash)], s.rounds[r], VotesBy(s, (r, hash), who), b);
    }
  }

  /** On every run a call panics exactly then; in particular no subtraction underflows. */
  lemma PanicsIff(cfg: Config, balances: Ledger, events: seq<Event>, o: Origin, c: Call)
    requires cfg.Valid() && WellFormed(Run(cfg, balances, events).st, c)
    ensures Check(cfg, Run(cfg, balances, events).st, o, c).Trap?
            <==> PanicHolds(cfg, Run(cfg, balances, events).st, o, c)
  {
    if c.Donate? && o.Signed? {
      DonatePanicsIff(cfg, Run(cfg, balances, events).st, o, c.donatedRound, c.amount);
    } else if c.EndRound? && o.Root? {
      EndPanicsIff(cfg, balances, events, c.endedRound, c.order);
    } else if c.Vote? && o.Signed? {
      VotePanicsOnRunIff(cfg, balances, events, o.who, c.votedRound, c.votedHash, c.ballot);
    }
  }
}
