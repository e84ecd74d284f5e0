/**
 The books of the funding pallet: what its incremental updates keep equal to the closed forms, in
 every state that any run can reach.
 */
module FundingBooks {
  import opened Prelude
  import opened Currency
  import opened QuadraticFunding
  import opened FundingRuns
  import opened FundingSums

  type Votes = map<VoteKey, nat>
  type Projects = map<ProjectKey, Project>

  /** Votes are positive, on registered projects of rounds that were started. */
  ghost predicate VotesOk(s: Storage) {
    forall k :: k in s.projectVotes ==> k.0 in s.projects && k.0.0 in s.rounds && 0 < s.projectVotes[k]
  }

  /** What `points` cost the voters, and what of it reaches the project. */
  function GrossPrice(cfg: Config, points: nat): int {
    Times(cfg.unitOfVote * cfg.numberOfUnitPerVote, points)
  }

  function NetPrice(cfg: Config, points: nat): int {
    Times(cfg.unitOfVote * (cfg.numberOfUnitPerVote - cfg.feeRatioPerVote), points)
  }

  ghost predicate ProjectEquations(p: Project, votes: nat, squares: int, price: int) {
    && p.totalVotes == votes
    && 2 * p.supportArea == Squared(votes) - squares
    && p.grants == price
  }

  /** A project's totals, as functions of the cumulative votes of its voters. */
  ghost predicate ProjectOk(cfg: Config, votes: Votes, key: ProjectKey, p: Project) {
    ProjectEquations(p, ProjectSum(votes, key, Count), ProjectSum(votes, key, Square),
                     NetPrice(cfg, ProjectSum(votes, key, Points)))
  }

  ghost predicate RoundEquations(rnd: Round, area: int, grants: int, price: int) {
    && rnd.totalSupportArea == area
    && rnd.preTaxSupportPool + price == rnd.supportPool + grants + rnd.totalTax
  }

  /** A round's totals: the area of its projects, and where all the money that came in went. */
  ghost predicate RoundOk(cfg: Config, votes: Votes, projects: Projects, r: nat, rnd: Round) {
    RoundEquations(rnd, AreaOf(projects, r), GrantsOf(projects, r), GrossPrice(cfg, RoundPoints(votes, r)))
  }

  ghost predicate ProjectsOk(cfg: Config, s: Storage) {
    forall key {:trigger ProjectOk(cfg, s.projectVotes, key, s.projects[key])} ::
      key in s.projects ==> ProjectOk(cfg, s.projectVotes, key, s.projects[key])
  }

  ghost predicate RoundsOk(cfg: Config, s: Storage) {
    forall r {:trigger RoundOk(cfg, s.projectVotes, s.projects, r, s.rounds[r])} ::
      r in s.rounds ==> RoundOk(cfg, s.projectVotes, s.projects, r, s.rounds[r])
  }

  ghost predicate BooksOk(cfg: Config, s: Storage) {
    VotesOk(s) && ProjectsOk(cfg, s) && RoundsOk(cfg, s)
  }

  // ----- one vote -----

  lemma PricesAdd(cfg: Config, x: nat, y: nat)
    ensures NetPrice(cfg, x + y) == NetPrice(cfg, x) + NetPrice(cfg, y)
    ensures GrossPrice(cfg, x + y) == GrossPrice(cfg, x) + GrossPrice(cfg, y)
  {
    TimesAdds(cfg.unitOfVote * (cfg.numberOfUnitPerVote - cfg.feeRatioPerVote), x, y);
    TimesAdds(cfg.unitOfVote * cfg.numberOfUnitPerVote, x, y);
  }

  lemma PriceAlgebra(u: nat, n: nat, f: nat, cost: nat)
    requires f <= n
    ensures u * n * cost - u * f * cost == u * (n - f) * cost
    ensures u * f * cost <= u * n * cost
  {
    var net := u * (n - f);
    assert u * n == net + u * f;
    assert (net + u * f) * cost == net * cost + u * f * cost;
    TimesMonotone(f, n, u);
    TimesMonotone(u * f, u * n, cost);
  }

  /** The amount is the gross price, the fee is never more, and the rest is the net price. */
  lemma AmountLessFee(cfg: Config, cost: nat)
    requires cfg.Valid()
    ensures CalFee(cfg, cost) <= CalAmount(cfg, cost) == GrossPrice(cfg, cost)
    ensures CalAmount(cfg, cost) - CalFee(cfg, cost) == NetPrice(cfg, cost)
  {
    PriceAlgebra(cfg.unitOfVote, cfg.numberOfUnitPerVote, cfg.feeRatioPerVote, cost);
    TimesIsProduct(cfg.unitOfVote * cfg.numberOfUnitPerVote, cost);
    TimesIsProduct(cfg.unitOfVote * (cfg.numberOfUnitPerVote - cfg.feeRatioPerVote), cost);
  }

  /** The cross products gained by b more votes of one voter. */
  lemma AreaAlgebra(area: int, total: nat, squares: int, v: nat, b: nat)
    requires 2 * area == Squared(total) - squares
    ensures 2 * (area + b * (total - v)) == Squared(total + b) - (squares + Squared(v + b) - Squared(v))
  {
    SquaredIsProduct(total);
    SquaredIsProduct(total + b);
    SquaredIsProduct(v);
    SquaredIsProduct(v + b);
    assert (total + b) * (total + b) == total * total + 2 * (b * total) + b * b;
    assert (v + b) * (v + b) == v * v + 2 * (b * v) + b * b;
    assert b * (total - v) == b * total - b * v;
  }

  lemma VotedEquations(p: Project, voted: nat, ballot: nat, amount: nat, fee: nat, votes: nat, squares: int, price: int)
    requires ProjectEquations(p, votes, squares, price) && voted <= p.totalVotes && fee <= amount
    ensures ProjectEquations(VotedProject(p, voted, ballot, amount, fee), votes + ballot,
                             squares + Squared(voted + ballot) - Squared(voted), price + (amount - fee))
  {
    AreaAlgebra(p.supportArea, p.totalVotes, squares, voted, ballot);
  }

  lemma VoteKeepsProject(cfg: Config, votes: Votes, p: Project, k: VoteKey, ballot: nat, amount: nat, fee: nat)
    requires ProjectOk(cfg, votes, k.0, p)
    requires VotesOf(votes, k) <= p.totalVotes && fee <= amount
    requires amount - fee == NetPrice(cfg, CalCost(VotesOf(votes, k), ballot))
    ensures ProjectOk(cfg, votes[k := VotesOf(votes, k) + ballot], k.0,
                      VotedProject(p, VotesOf(votes, k), ballot, amount, fee))
  {
    var voted := VotesOf(votes, k);
    var count, squares := ProjectSum(votes, k.0, Count), ProjectSum(votes, k.0, Square);
    VotedEquations(p, voted, ballot, amount, fee, count, squares, NetPrice(cfg, ProjectSum(votes, k.0, Points)));
    SumsAfterVote(votes, k, ballot);
    PriceAfterVote(cfg, votes, k, ballot);
  }

  lemma PriceAfterVote(cfg: Config, votes: Votes, k: VoteKey, ballot: nat)
    ensures NetPrice(cfg, ProjectSum(votes[k := VotesOf(votes, k) + ballot], k.0, Points))
            == NetPrice(cfg, ProjectSum(votes, k.0, Points)) + NetPrice(cfg, CalCost(VotesOf(votes, k), ballot))
  {
    CostIsPointsAdded(votes, k, ballot);
    PricesAdd(cfg, ProjectSum(votes, k.0, Points), CalCost(VotesOf(votes, k), ballot));
  }

  lemma SumsAfterVote(votes: Votes, k: VoteKey, ballot: nat)
    ensures var voted := VotesOf(votes, k);
            var votes' := votes[k := voted + ballot];
            && ProjectSum(votes', k.0, Count) == ProjectSum(votes, k.0, Count) + ballot
            && ProjectSum(votes', k.0, Square)
               == ProjectSum(votes, k.0, Square) + Squared(voted + ballot) - Squared(voted)
  {
    ProjectSumAfterVote(votes, k, VotesOf(votes, k) + ballot, k.0, Count);
    ProjectSumAfterVote(votes, k, VotesOf(votes, k) + ballot, k.0, Square);
  }

  lemma RoundPriceAfterVote(cfg: Config, votes: Votes, k: VoteKey, ballot: nat)
    ensures GrossPrice(cfg, RoundPoints(votes[k := VotesOf(votes, k) + ballot], k.0.0))
            == GrossPrice(cfg, RoundPoints(votes, k.0.0)) + GrossPrice(cfg, CalCost(VotesOf(votes, k), ballot))
  {
    CostIsPointsAdded(votes, k, ballot);
    PricesAdd(cfg, RoundPoints(votes, k.0.0), CalCost(VotesOf(votes, k), ballot));
  }

  lemma VoteKeepsRound(cfg: Config, votes: Votes, projects: Projects, rnd: Round, k: VoteKey, ballot: nat,
                       p: Project, rnd': Round)
    requires k.0 in projects && RoundOk(cfg, votes, projects, k.0.0, rnd)
    requires rnd'.totalSupportArea - rnd.totalSupportArea == p.supportArea - projects[k.0].supportArea
    requires rnd'.preTaxSupportPool == rnd.preTaxSupportPool && rnd'.supportPool == rnd.supportPool
    requires (p.grants - projects[k.0].grants) + (rnd'.totalTax - rnd.totalTax)
             == GrossPrice(cfg, CalCost(VotesOf(votes, k), ballot))
    ensures RoundOk(cfg, votes[k := VotesOf(votes, k) + ballot], projects[k.0 := p], k.0.0, rnd')
  {
    RoundPriceAfterVote(cfg, votes, k, ballot);
    RoundSumsAfterUpdate(projects, k.0, p, k.0.0);
  }

  /** A vote concerns no other project .. */
  lemma VoteKeepsOtherProjects(cfg: Config, votes: Votes, projects: Projects, k: VoteKey, v: nat, key: ProjectKey)
    requires key in projects && key != k.0 && ProjectOk(cfg, votes, key, projects[key])
    ensures ProjectOk(cfg, votes[k := v], key, projects[key])
  {
    OtherProjectSums(votes, k, v, key);
  }

  /** .. and no other round. */
  lemma VoteKeepsOtherRounds(cfg: Config, votes: Votes, projects: Projects, k: VoteKey, v: nat, p: Project, r: nat,
                             rnd: Round)
    requires r != k.0.0 && RoundOk(cfg, votes, projects, r, rnd)
    ensures RoundOk(cfg, votes[k := v], projects[k.0 := p], r, rnd)
  {
    OtherRoundSums(votes, projects, k, v, p, r);
  }

  lemma VoteKeepsProjects(cfg: Config, s: Storage, s': Storage, k: VoteKey, v: nat, p: Project)
    requires ProjectsOk(cfg, s) && s'.projectVotes == s.projectVotes[k := v] && s'.projects == s.projects[k.0 := p]
    requires ProjectOk(cfg, s'.projectVotes, k.0, p)
    ensures ProjectsOk(cfg, s')
  {
    forall key | key in s'.projects
      ensures ProjectOk(cfg, s'.projectVotes, key, s'.projects[key])
    {
      if key != k.0 {
        assert ProjectOk(cfg, s.projectVotes, key, s.projects[key]);
        VoteKeepsOtherProjects(cfg, s.projectVotes, s.projects, k, v, key);
      }
    }
  }

  lemma VoteKeepsRounds(cfg: Config, s: Storage, s': Storage, k: VoteKey, v: nat, p: Project, rnd: Round)
    requires RoundsOk(cfg, s) && s'.projectVotes == s.projectVotes[k := v] && s'.projects == s.projects[k.0 := p]
    requires s'.rounds == s.rounds[k.0.0 := rnd] && RoundOk(cfg, s'.projectVotes, s'.projects, k.0.0, rnd)
    ensures RoundsOk(cfg, s')
  {
    forall r | r in s'.rounds
      ensures RoundOk(cfg, s'.projectVotes, s'.projects, r, s'.rounds[r])
    {
      if r != k.0.0 {
        assert RoundOk(cfg, s.projectVotes, s.projects, r, s.rounds[r]);
        VoteKeepsOtherRounds(cfg, s.projectVotes, s.projects, k, v, p, r, s.rounds[r]);
      }
    }
  }

  /** What an accepted vote does to the books. */
  ghost predicate Voted(cfg: Config, s: Storage, s': Storage, k: VoteKey, ballot: nat, amount: nat, fee: nat) {
    && k.0 in s.projects && k.0.0 in s.rounds && 0 < ballot
    && var voted, p := VotesOf(s.projectVotes, k), s.projects[k.0];
    && voted <= p.totalVotes
    && fee <= amount == GrossPrice(cfg, CalCost(voted, ballot))
    && amount - fee == NetPrice(cfg, CalCost(voted, ballot))
    && s'.projectVotes == s.projectVotes[k := voted + ballot]
    && s'.projects == s.projects[k.0 := VotedProject(p, voted, ballot, amount, fee)]
    && s'.rounds == s.rounds[k.0.0 := VotedRound(s.rounds[k.0.0], p, voted, ballot, fee)]
  }

  lemma VoteEffectIsVoted(cfg: Config, s: Storage, who: AccountId, r: nat, hash: Hash, ballot: nat)
    requires cfg.Valid() && VoteCheck(cfg, s, who, r, hash, ballot).Accept?
    ensures var cost := CalCost(VotesBy(s, (r, hash), who), ballot);
            Voted(cfg, s, VoteEffect(cfg, s, who, r, hash, ballot), ((r, hash), who), ballot,
                  CalAmount(cfg, cost), CalFee(cfg, cost))
  {
    AmountLessFee(cfg, CalCost(VotesBy(s, (r, hash), who), ballot));
  }

  lemma VotedProjectOk(cfg: Config, s: Storage, s': Storage, k: VoteKey, ballot: nat, amount: nat, fee: nat)
    requires Voted(cfg, s, s', k, ballot, amount, fee) && ProjectsOk(cfg, s)
    ensures ProjectOk(cfg, s'.projectVotes, k.0, s'.projects[k.0])
  {
    assert ProjectOk(cfg, s.projectVotes, k.0, s.projects[k.0]);
    VoteKeepsProject(cfg, s.projectVotes, s.projects[k.0], k, ballot, amount, fee);
  }

  lemma VoteKeepsOwnRound(cfg: Config, votes: Votes, projects: Projects, rnd: Round, k: VoteKey, ballot: nat,
                          amount: nat, fee: nat)
    requires k.0 in projects && RoundOk(cfg, votes, projects, k.0.0, rnd)
    requires VotesOf(votes, k) <= projects[k.0].totalVotes
    requires fee <= amount == GrossPrice(cfg, CalCost(VotesOf(votes, k), ballot))
    ensures RoundOk(cfg, votes[k := VotesOf(votes, k) + ballot],
                    projects[k.0 := VotedProject(projects[k.0], VotesOf(votes, k), ballot, amount, fee)], k.0.0,
                    VotedRound(rnd, projects[k.0], VotesOf(votes, k), ballot, fee))
  {
    var voted, p := VotesOf(votes, k), projects[k.0];
    VoteKeepsRound(cfg, votes, projects, rnd, k, ballot, VotedProject(p, voted, ballot, amount, fee),
                   VotedRound(rnd, p, voted, ballot, fee));
  }

  lemma VotedRoundOk(cfg: Config, s: Storage, s': Storage, k: VoteKey, ballot: nat, amount: nat, fee: nat)
    requires Voted(cfg, s, s', k, ballot, amount, fee) && RoundsOk(cfg, s)
    ensures RoundOk(cfg, s'.projectVotes, s'.projects, k.0.0, s'.rounds[k.0.0])
  {
    assert RoundOk(cfg, s.projectVotes, s.projects, k.0.0, s.rounds[k.0.0]);
    VoteKeepsOwnRound(cfg, s.projectVotes, s.projects, s.rounds[k.0.0], k, ballot, amount, fee);
  }

  lemma VotedKeepsBooks(cfg: Config, s: Storage, s': Storage, k: VoteKey, ballot: nat, amount: nat, fee: nat)
    requires BooksOk(cfg, s) && Voted(cfg, s, s', k, ballot, amount, fee)
    ensures BooksOk(cfg, s')
  {
    var v := VotesOf(s.projectVotes, k) + ballot;
    VotedProjectOk(cfg, s, s', k, ballot, amount, fee);
    VotedRoundOk(cfg, s, s', k, ballot, amount, fee);
    VoteKeepsProjects(cfg, s, s', k, v, s'.projects[k.0]);
    VoteKeepsRounds(cfg, s, s', k, v, s'.projects[k.0], s'.rounds[k.0.0]);
  }

  lemma VoteKeepsBooks(cfg: Config, s: Storage, who: AccountId, r: nat, hash: Hash, ballot: nat)
    requires cfg.Valid() && BooksOk(cfg, s) && VoteCheck(cfg, s, who, r, hash, ballot).Accept?
    ensures BooksOk(cfg, VoteEffect(cfg, s, who, r, hash, ballot))
  {
    var cost := CalCost(VotesBy(s, (r, hash), who), ballot);
    VoteEffectIsVoted(cfg, s, who, r, hash, ballot);
    VotedKeepsBooks(cfg, s, VoteEffect(cfg, s, who, r, hash, ballot), ((r, hash), who), ballot,
                    CalAmount(cfg, cost), CalFee(cfg, cost));
  }

  // ----- the other calls -----

  lemma NoVotesNoSums(cfg: Config, votes: Votes, key: ProjectKey)
    requires forall k :: k in votes ==> k.0 != key
    ensures ProjectSum(votes, key, Count) == ProjectSum(votes, key, Square) == 0
    ensures NetPrice(cfg, ProjectSum(votes, key, Points)) == 0
  {
    assert OnProject(votes, key) == map[];
  }

  /** A round that was never started has no votes, hence neither area nor grants nor points. */
  lemma UnstartedRoundIsEmpty(cfg: Config, s: Storage, r: nat)
    requires BooksOk(cfg, s) && r !in s.rounds
    ensures AreaOf(s.projects, r) == 0 && GrantsOf(s.projects, r) == 0
    ensures GrossPrice(cfg, RoundPoints(s.projectVotes, r)) == 0
  {
    assert InRound(s.projectVotes, r) == map[];
    forall key | key in s.projects && key.0 == r
      ensures s.projects[key].supportArea == 0 && s.projects[key].grants == 0
    {
      assert ProjectOk(cfg, s.projectVotes, key, s.projects[key]);
      NoVotesNoSums(cfg, s.projectVotes, key);
    }
    RoundSumOfZeros(s.projects, r, Area);
    RoundSumOfZeros(s.projects, r, Grants);
  }

  lemma RegisterKeepsBooks(cfg: Config, s: Storage, key: ProjectKey, p: Project)
    requires BooksOk(cfg, s) && key !in s.projects
    requires p.totalVotes == p.grants == p.supportArea == 0
    ensures BooksOk(cfg, s.(projects := s.projects[key := p]))
  {
    NoVotesNoSums(cfg, s.projectVotes, key);
    var projects := s.projects[key := p];
    forall r | r in s.rounds
      ensures RoundOk(cfg, s.projectVotes, projects, r, s.rounds[r])
    {
      assert RoundOk(cfg, s.projectVotes, s.projects, r, s.rounds[r]);
      RoundSumsAfterUpdate(s.projects, key, p, r);
    }
  }

  /** Changes to one round's record, or to the ledger, that keep the round's equations. */
  lemma RoundChangeKeepsBooks(cfg: Config, s: Storage, s': Storage, r: nat, rnd: Round)
    requires BooksOk(cfg, s)
    requires s' == s.(rounds := s.rounds[r := rnd], balances := s'.balances)
    requires RoundOk(cfg, s.projectVotes, s.projects, r, rnd)
    ensures BooksOk(cfg, s')
  {
  }

  lemma StepKeepsBooks(cfg: Config, s: Storage, o: Origin, c: Call)
    requires cfg.Valid() && BooksOk(cfg, s) && WellFormed(s, c) && Check(cfg, s, o, c).Accept?
    ensures BooksOk(cfg, Effect(cfg, s, o, c))
  {
    var s' := Effect(cfg, s, o, c);
    match c
    case Donate(r, amount) =>
      assert RoundOk(cfg, s.projectVotes, s.projects, r, s.rounds[r]);
      RoundChangeKeepsBooks(cfg, s, s', r, s'.rounds[r]);
    case StartRound(r) =>
      UnstartedRoundIsEmpty(cfg, s, r);
      RoundChangeKeepsBooks(cfg, s, s', r, FRESH_ROUND);
    case EndRound(r, _) =>
      assert RoundOk(cfg, s.projectVotes, s.projects, r, s.rounds[r]);
      RoundChangeKeepsBooks(cfg, s, s', r, s'.rounds[r]);
    case RegisterProject(r, hash, name) =>
      RegisterKeepsBooks(cfg, s, (r, hash), Project(0, 0, 0, name, o.who));
    case Vote(r, hash, ballot) =>
      VoteKeepsBooks(cfg, s, o.who, r, hash, ballot);
  }

  lemma {:induction false} RunsKeepBooks(cfg: Config, balances: Ledger, events: seq<Event>)
    requires cfg.Valid()
    ensures BooksOk(cfg, Run(cfg, balances, events).st)
  {
    if events != [] {
      var prefix, e := events[..|events| - 1], events[|events| - 1];
      RunsKeepBooks(cfg, balances, prefix);
      if Succeeds(cfg, Run(cfg, balances, prefix).st, e) && e.Dispatch? {
        StepKeepsBooks(cfg, Run(cfg, balances, prefix).st, e.origin, e.call);
      }
    }
  }

  // ----- the log -----

  ghost predicate VoterOk(w: World, k: VoteKey) {
    VotesOf(w.st.projectVotes, k) == Cumulative(w.log, k) && Charged(w.log, k) == Triangle(Cumulative(w.log, k))
  }

  /** The register holds what was cast, and what was charged for it is a triangular number. */
  ghost predicate LogOk(w: World) {
    forall k :: VoterOk(w, k)
  }

  lemma LogAppended(log: seq<Cast>, c: Cast, k: VoteKey)
    ensures Cumulative(log + [c], k) == Cumulative(log, k) + if c.Key() == k then c.ballot else 0
    ensures Charged(log + [c], k) == Charged(log, k) + if c.Key() == k then c.cost else 0
  {
    assert (log + [c])[..|log|] == log;
  }

  lemma NextKeepsVoter(cfg: Config, w: World, e: Event, k: VoteKey)
    requires VoterOk(w, k)
    ensures VoterOk(Next(cfg, w, e), k)
  {
    if Succeeds(cfg, w.st, e) && e.Dispatch? && e.call.Vote? {
      var w' := Next(cfg, w, e);
      LogAppended(w.log, w'.log[|w.log|], k);
      assert w'.log == w.log + [w'.log[|w.log|]];
      CostIsTriangleStep(VotesOf(w.st.projectVotes, k), e.call.ballot);
    }
  }

  lemma {:induction false} RunsKeepLog(cfg: Config, balances: Ledger, events: seq<Event>)
    ensures LogOk(Run(cfg, balances, events))
  {
    if events != [] {
      RunsKeepLog(cfg, balances, events[..|events| - 1]);
      forall k
        ensures VoterOk(Run(cfg, balances, events), k)
      {
        NextKeepsVoter(cfg, Run(cfg, balances, events[..|events| - 1]), events[|events| - 1], k);
      }
    }
  }
}
