/**
 What the code does not give. A donation or a vote is accepted whether or not its transfer goes
 through; after enough of that a running round cannot be ended. And a project can be registered in a round
 that does not exist.
 */
module FundingLimits {
  import opened Prelude
  import opened Currency
  import opened QuadraticFunding
  import opened FundingRuns
  import opened FundingBooks
  import opened FundingSolvency

  // ----- single steps -----

  /** One event that succeeds. */
  lemma RunStep(cfg: Config, balances: Ledger, events: seq<Event>, o: Origin, c: Call, s: Storage)
    requires s == Run(cfg, balances, events).st && o != Signed(cfg.account) && WellFormed(s, c)
    requires Check(cfg, s, o, c).Accept?
    ensures Run(cfg, balances, events + [Dispatch(o, c)]).st == Effect(cfg, s, o, c)
  {
    RunSnoc(cfg, balances, events, Dispatch(o, c));
  }

  lemma StartStep(cfg: Config, s: Storage, r: u32)
    requires s.rounds == map[] && s.projects == map[] && s.projectVotes == map[]
    ensures Check(cfg, s, Root, StartRound(r)).Accept?
    ensures Effect(cfg, s, Root, StartRound(r)) == s.(rounds := map[r := FRESH_ROUND])
  {
  }

  lemma RegisterFirstStep(cfg: Config, s: Storage, a: AccountId, r: u32, hash: Hash)
    requires cfg.nameMinLength == 0 && s.projects == map[]
    ensures Check(cfg, s, Signed(a), RegisterProject(r, hash, [])).Accept?
    ensures Effect(cfg, s, Signed(a), RegisterProject(r, hash, []))
            == s.(projects := map[(r, hash) := Project(0, 0, 0, [], a)])
  {
  }

  /** The account starts with the existential deposit and owes nothing. */
  lemma FreshSurplus(cfg: Config, balances: Ledger)
    requires cfg.Valid()
    ensures Surplus(cfg, Run(cfg, balances, []).st) == 0
  {
    SurplusOfRun(cfg, balances, []);
  }

  // ----- a donation without money -----

  lemma StartedIsReached(cfg: Config, balances: Ledger, r: u32)
    requires cfg.Valid()
    ensures var s, s1 := Run(cfg, balances, []).st, Run(cfg, balances, [] + [Dispatch(Root, StartRound(r))]).st;
            s1 == s.(rounds := map[r := FRESH_ROUND]) && Surplus(cfg, s1) == Surplus(cfg, s)
  {
    var s := Run(cfg, balances, []).st;
    StartStep(cfg, s, r);
    RunStep(cfg, balances, [], Root, StartRound(r), s);
    RunsKeepBooks(cfg, balances, []);
    SurplusAfterStart(cfg, s, r);
    assert s.rounds[r := FRESH_ROUND] == map[r := FRESH_ROUND];
  }

  lemma DonateStep(cfg: Config, s: Storage, r: u32)
    requires cfg.unitOfVote == 1 && cfg.numberOfUnitPerVote == 1000 && cfg.feeRatioPerVote == 60
    requires s.rounds == map[r := FRESH_ROUND]
    ensures DonateCheck(cfg, s, r, 2000).Accept?
    ensures Donated(cfg, FRESH_ROUND, 2000) == Round(true, 1880, 2000, 0, 120)
  {
    assert DonationFee(cfg, 2000) == 120;
  }

  /** An account that has nothing donates to a fresh round. */
  lemma UnfundedDonationStep(cfg: Config, s: Storage, a: AccountId, r: u32)
    requires cfg.unitOfVote == 1 && cfg.numberOfUnitPerVote == 1000 && cfg.feeRatioPerVote == 60
    requires s.rounds == map[r := FRESH_ROUND] && Surplus(cfg, s) == 0
    requires a != cfg.account && Free(s.balances, a) == 0
    ensures DonateCheck(cfg, s, r, 2000).Accept?
    ensures var s' := DonateEffect(cfg, s, a, r, 2000);
            s'.rounds == map[r := Round(true, 1880, 2000, 0, 120)] && !Solvent(cfg, s')
  {
    DonateStep(cfg, s, r);
    SurplusAfterDonate(cfg, s, a, r, 2000);
  }

  lemma DonateEvent(cfg: Config, balances: Ledger, events: seq<Event>, s: Storage, a: AccountId, r: u32, amount: u128)
    requires s == Run(cfg, balances, events).st && a != cfg.account && DonateCheck(cfg, s, r, amount).Accept?
    ensures Run(cfg, balances, events + [Dispatch(Signed(a), Donate(r, amount))]).st == DonateEffect(cfg, s, a, r, amount)
  {
    RunStep(cfg, balances, events, Signed(a), Donate(r, amount), s);
  }

  /** The same as the next event of a run. */
  lemma UnfundedDonationAfter(cfg: Config, balances: Ledger, events: seq<Event>, s: Storage, a: AccountId, r: u32)
    requires cfg.unitOfVote == 1 && cfg.numberOfUnitPerVote == 1000 && cfg.feeRatioPerVote == 60
    requires s == Run(cfg, balances, events).st && s.rounds == map[r := FRESH_ROUND] && Surplus(cfg, s) == 0
    requires a != cfg.account && Free(s.balances, a) == 0
    ensures var s' := Run(cfg, balances, events + [Dispatch(Signed(a), Donate(r, 2000))]).st;
            s'.rounds == map[r := Round(true, 1880, 2000, 0, 120)] && !Solvent(cfg, s')
  {
    UnfundedDonationStep(cfg, s, a, r);
    DonateEvent(cfg, balances, events, s, a, r, 2000);
  }

  /** The donation is booked in full, and the pallet's account does not cover the round. */
  lemma UnfundedDonationIsAccepted(cfg: Config, balances: Ledger, a: AccountId, r: u32)
    requires cfg.unitOfVote == 1 && cfg.numberOfUnitPerVote == 1000 && cfg.feeRatioPerVote == 60
    requires a != cfg.account && Free(balances, a) == 0
    ensures var s := Run(cfg, balances, [] + [Dispatch(Root, StartRound(r))] + [Dispatch(Signed(a), Donate(r, 2000))]).st;
            s.rounds == map[r := Round(true, 1880, 2000, 0, 120)] && !Solvent(cfg, s)
  {
    var events := [] + [Dispatch(Root, StartRound(r))];
    FreshSurplus(cfg, balances);
    StartedIsReached(cfg, balances, r);
    UnfundedDonationAfter(cfg, balances, events, Run(cfg, balances, events).st, a, r);
  }

  // ----- a vote without money -----

  lemma RegisteredIsReached(cfg: Config, balances: Ledger, a: AccountId, r: u32, hash: Hash)
    requires cfg.Valid() && cfg.nameMinLength == 0 && a != cfg.account
    ensures var s := Run(cfg, balances, []).st;
            var s2 := Run(cfg, balances, [] + [Dispatch(Root, StartRound(r))]
                                         + [Dispatch(Signed(a), RegisterProject(r, hash, []))]).st;
            && s2 == s.(rounds := map[r := FRESH_ROUND], projects := map[(r, hash) := Project(0, 0, 0, [], a)])
            && Surplus(cfg, s2) == 0
  {
    FreshSurplus(cfg, balances);
    StartedIsReached(cfg, balances, r);
    var s1 := Run(cfg, balances, [] + [Dispatch(Root, StartRound(r))]).st;
    RegisterFirstStep(cfg, s1, a, r, hash);
    RunStep(cfg, balances, [] + [Dispatch(Root, StartRound(r))], Signed(a), RegisterProject(r, hash, []), s1);
    SurplusAfterRegister(cfg, s1, (r, hash), Project(0, 0, 0, [], a));
    assert s1.projects[(r, hash) := Project(0, 0, 0, [], a)] == map[(r, hash) := Project(0, 0, 0, [], a)];
  }

  /** Where a first vote costs 1000, an account that has nothing can still cast it. */
  lemma UnfundedVoteStep(cfg: Config, s: Storage, who: AccountId, r: nat, hash: Hash)
    requires cfg.unitOfVote == 1 && cfg.numberOfUnitPerVote == 1000 && cfg.feeRatioPerVote == 60
    requires r in s.rounds && s.rounds[r] == FRESH_ROUND
    requires (r, hash) in s.projects && s.projects[(r, hash)] == Project(0, 0, 0, [], who)
    requires VotesBy(s, (r, hash), who) == 0 && who != cfg.account && Free(s.balances, who) == 0
    requires Surplus(cfg, s) == 0
    ensures VoteCheck(cfg, s, who, r, hash, 1).Accept?
    ensures var s' := VoteEffect(cfg, s, who, r, hash, 1);
            VotesBy(s', (r, hash), who) == 1 && !Solvent(cfg, s')
  {
    assert CalCost(0, 1) == 1;
    assert VoteCheck(cfg, s, who, r, hash, 1).Accept?;
    SurplusAfterVote(cfg, s, who, r, hash, 1);
  }

  lemma VoteEvent(cfg: Config, balances: Ledger, events: seq<Event>, s: Storage, who: AccountId, r: u32, hash: Hash,
                  ballot: u128)
    requires s == Run(cfg, balances, events).st && who != cfg.account
    requires VoteCheck(cfg, s, who, r, hash, ballot).Accept?
    ensures Run(cfg, balances, events + [Dispatch(Signed(who), Vote(r, hash, ballot))]).st
            == VoteEffect(cfg, s, who, r, hash, ballot)
  {
    RunStep(cfg, balances, events, Signed(who), Vote(r, hash, ballot), s);
  }

  /** The same as the next event of a run. */
  lemma UnfundedVoteAfter(cfg: Config, balances: Ledger, events: seq<Event>, s: Storage, who: AccountId, r: u32, hash: Hash)
    requires cfg.unitOfVote == 1 && cfg.numberOfUnitPerVote == 1000 && cfg.feeRatioPerVote == 60
    requires s == Run(cfg, balances, events).st && Surplus(cfg, s) == 0
    requires r in s.rounds && s.rounds[r] == FRESH_ROUND
    requires (r, hash) in s.projects && s.projects[(r, hash)] == Project(0, 0, 0, [], who)
    requires VotesBy(s, (r, hash), who) == 0 && who != cfg.account && Free(s.balances, who) == 0
    ensures var s' := Run(cfg, balances, events + [Dispatch(Signed(who), Vote(r, hash, 1))]).st;
            VotesBy(s', (r, hash), who) == 1 && !Solvent(cfg, s')
  {
    UnfundedVoteStep(cfg, s, who, r, hash);
    VoteEvent(cfg, balances, events, s, who, r, hash, 1);
  }

  /** An account that has nothing registers a project and votes for it; the vote is booked in full, and the
      account does not cover the round. */
  lemma UnfundedVoteIsAccepted(cfg: Config, balances: Ledger, a: AccountId, r: u32, hash: Hash)
    requires cfg.unitOfVote == 1 && cfg.numberOfUnitPerVote == 1000 && cfg.feeRatioPerVote == 60
    requires cfg.nameMinLength == 0 && a != cfg.account && Free(balances, a) == 0
    ensures var s := Run(cfg, balances, [] + [Dispatch(Root, StartRound(r))]
                                        + [Dispatch(Signed(a), RegisterProject(r, hash, []))]
                                        + [Dispatch(Signed(a), Vote(r, hash, 1))]).st;
            VotesBy(s, (r, hash), a) == 1 && !Solvent(cfg, s)
  {
    var events := [] + [Dispatch(Root, StartRound(r))] + [Dispatch(Signed(a), RegisterProject(r, hash, []))];
    RegisteredIsReached(cfg, balances, a, r, hash);
    var s := Run(cfg, balances, events).st;
    UnfundedVoteAfter(cfg, balances, events, s, a, r, hash);
  }

  // ----- a round that cannot be ended -----

  /** Votes at the price of one unit, free of fees. */
  predicate Cheap(cfg: Config) {
    cfg.unitOfVote == 1 && cfg.numberOfUnitPerVote == 1 && cfg.feeRatioPerVote == 0 && cfg.nameMinLength == 0
  }

  const MOST: u128 := U128_LIMIT - 1

  lemma DonateMostStep(cfg: Config, s: Storage, a: AccountId, r: nat)
    requires Cheap(cfg) && s.rounds == map[r := FRESH_ROUND]
    ensures DonateCheck(cfg, s, r, MOST).Accept?
    ensures var s' := DonateEffect(cfg, s, a, r, MOST);
            s'.rounds == map[r := Round(true, MOST, MOST, 0, 0)]
            && s'.projects == s.projects && s'.projectVotes == s.projectVotes
  {
    assert DonationFee(cfg, MOST) == 0;
  }

  /** The first vote of an account on a project that at most one other account voted for. */
  lemma CheapVoteStep(cfg: Config, s: Storage, who: AccountId, r: nat, hash: Hash)
    requires Cheap(cfg) && Ongoing(s, r) && (r, hash) in s.projects && VotesBy(s, (r, hash), who) == 0
    requires s.projects[(r, hash)].totalVotes <= 1 && s.projects[(r, hash)].grants <= 1
    requires s.projects[(r, hash)].supportArea == 0 && s.rounds[r].totalSupportArea == 0 && s.rounds[r].totalTax == 0
    ensures VoteCheck(cfg, s, who, r, hash, 1).Accept?
    ensures var p, s' := s.projects[(r, hash)], VoteEffect(cfg, s, who, r, hash, 1);
            && s'.projects == s.projects[(r, hash) := p.(totalVotes := p.totalVotes + 1, grants := p.grants + 1,
                                                         supportArea := p.totalVotes)]
            && s'.rounds == s.rounds[r := s.rounds[r].(totalSupportArea := p.totalVotes)]
            && forall b :: b != who ==> VotesBy(s', (r, hash), b) == VotesBy(s, (r, hash), b)
  {
    assert CalCost(0, 1) == 1;
  }

  /** One project, with these figures, in the only round. */
  ghost predicate Stage(s: Storage, r: nat, hash: Hash, rnd: Round, p: Project) {
    s.rounds == map[r := rnd] && s.projects == map[(r, hash) := p]
  }

  lemma BothVotesStep(cfg: Config, s: Storage, a: AccountId, b: AccountId, r: nat, hash: Hash)
    requires Cheap(cfg) && a != b && s.projectVotes == map[]
    requires Stage(s, r, hash, Round(true, MOST, MOST, 0, 0), Project(0, 0, 0, [], a))
    ensures VoteCheck(cfg, s, a, r, hash, 1).Accept?
    ensures var s1 := VoteEffect(cfg, s, a, r, hash, 1);
            VoteCheck(cfg, s1, b, r, hash, 1).Accept?
            && Stage(VoteEffect(cfg, s1, b, r, hash, 1), r, hash, Round(true, MOST, MOST, 1, 0), Project(2, 2, 1, [], a))
  {
    CheapVoteStep(cfg, s, a, r, hash);
    CheapVoteStep(cfg, VoteEffect(cfg, s, a, r, hash, 1), b, r, hash);
  }

  lemma StageTraps(s: Storage, r: nat, hash: Hash, a: AccountId)
    requires Stage(s, r, hash, Round(true, MOST, MOST, 1, 0), Project(2, 2, 1, [], a))
    ensures Enumerates(s, r, [hash]) && EndRoundCheck(s, r, [hash]).Trap?
  {
    assert [hash][0] == hash;
    assert PerArea(MOST, 1) == MOST;
    assert !PayoutFits(s.projects[(r, [hash][0])], s.rounds[r]);
  }

  lemma DonatedMost(cfg: Config, balances: Ledger, a: AccountId, r: u32)
    requires Cheap(cfg) && a != cfg.account
    ensures var s := Run(cfg, balances, [] + [Dispatch(Root, StartRound(r))] + [Dispatch(Signed(a), Donate(r, MOST))]).st;
            s.rounds == map[r := Round(true, MOST, MOST, 0, 0)] && s.projects == map[] && s.projectVotes == map[]
  {
    var s := Run(cfg, balances, []).st;
    StartStep(cfg, s, r);
    RunStep(cfg, balances, [], Root, StartRound(r), s);
    var s1 := Effect(cfg, s, Root, StartRound(r));
    DonateMostStep(cfg, s1, a, r);
    DonateEvent(cfg, balances, [] + [Dispatch(Root, StartRound(r))], s1, a, r, MOST);
  }

  lemma RegisteredWithMost(cfg: Config, balances: Ledger, a: AccountId, r: u32, hash: Hash)
    requires Cheap(cfg) && a != cfg.account
    ensures var s := Run(cfg, balances, [] + [Dispatch(Root, StartRound(r))] + [Dispatch(Signed(a), Donate(r, MOST))]
                                        + [Dispatch(Signed(a), RegisterProject(r, hash, []))]).st;
            Stage(s, r, hash, Round(true, MOST, MOST, 0, 0), Project(0, 0, 0, [], a)) && s.projectVotes == map[]
  {
    DonatedMost(cfg, balances, a, r);
    var events := [] + [Dispatch(Root, StartRound(r))] + [Dispatch(Signed(a), Donate(r, MOST))];
    var s := Run(cfg, balances, events).st;
    RegisterFirstStep(cfg, s, a, r, hash);
    RunStep(cfg, balances, events, Signed(a), RegisterProject(r, hash, []), s);
  }

  /** Whatever the balances: a donation of 2^128 - 1 and one vote each by two accounts leave a running round that
      cannot be ended. */
  lemma UnfundedRoundCannotEnd(cfg: Config, balances: Ledger, a: AccountId, b: AccountId, r: u32, hash: Hash)
    requires Cheap(cfg) && a != b && a != cfg.account && b != cfg.account
    ensures var s := Run(cfg, balances, [] + [Dispatch(Root, StartRound(r))] + [Dispatch(Signed(a), Donate(r, MOST))]
                                        + [Dispatch(Signed(a), RegisterProject(r, hash, []))]
                                        + [Dispatch(Signed(a), Vote(r, hash, 1))]
                                        + [Dispatch(Signed(b), Vote(r, hash, 1))]).st;
            Ongoing(s, r) && Enumerates(s, r, [hash]) && EndRoundCheck(s, r, [hash]).Trap?
  {
    var events := [] + [Dispatch(Root, StartRound(r))] + [Dispatch(Signed(a), Donate(r, MOST))]
                  + [Dispatch(Signed(a), RegisterProject(r, hash, []))];
    RegisteredWithMost(cfg, balances, a, r, hash);
    var s := Run(cfg, balances, events).st;
    BothVotesStep(cfg, s, a, b, r, hash);
    VoteEvent(cfg, balances, events, s, a, r, hash, 1);
    var s1 := VoteEffect(cfg, s, a, r, hash, 1);
    VoteEvent(cfg, balances, events + [Dispatch(Signed(a), Vote(r, hash, 1))], s1, b, r, hash, 1);
    StageTraps(VoteEffect(cfg, s1, b, r, hash, 1), r, hash, a);
  }

  // ----- a project without a round -----

  /** No round was ever started, and a project is registered in one. */
  lemma RegistrationNeedsNoRound(cfg: Config, balances: Ledger, a: AccountId, r: u32, hash: Hash)
    requires cfg.nameMinLength == 0 && a != cfg.account
    ensures var s := Run(cfg, balances, [] + [Dispatch(Signed(a), RegisterProject(r, hash, []))]).st;
            (r, hash) in s.projects && r !in s.rounds
  {
    RegisterFirstStep(cfg, Run(cfg, balances, []).st, a, r, hash);
    RunStep(cfg, balances, [], Signed(a), RegisterProject(r, hash, []), Run(cfg, balances, []).st);
  }

  /** Registration never looks at the rounds: its verdict and its effect are the same whatever they are. */
  lemma RegistrationIgnoresRounds(cfg: Config, s: Storage, rounds: map<nat, Round>, o: Origin, r: u32, hash: Hash,
                                  name: seq<u8>)
    ensures Check(cfg, s.(rounds := rounds), o, RegisterProject(r, hash, name))
            == Check(cfg, s, o, RegisterProject(r, hash, name))
    ensures Step(cfg, s.(rounds := rounds), o, RegisterProject(r, hash, name)).projects
            == Step(cfg, s, o, RegisterProject(r, hash, name)).projects
  {
  }
}
