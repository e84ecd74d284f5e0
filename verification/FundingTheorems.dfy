/**
 The guarantees of quadratic funding, over whole runs: any events, any signers, any number of rounds.
 */
module FundingTheorems {
  import opened Prelude
  import opened Sums
  import opened Currency
  import opened QuadraticFunding
  import opened FundingRuns
  import opened FundingSums
  import opened FundingBooks
  import opened FundingDonations
  import opened FundingSolvency

  // ----- support area -----

  lemma VotedMapIsPositive(s: Storage, key: ProjectKey)
    requires VotesOk(s)
    ensures forall k :: k in OnProject(s.projectVotes, key) ==> 0 < OnProject(s.projectVotes, key)[k]
  {
  }

  /** The support area, which is only ever updated incrementally, is the sum over all pairs of
      different voters of the product of their votes; the total is the sum of all votes, so that
      taking off one voter's votes never underflows. */
  lemma PairwiseSupportArea(cfg: Config, balances: Ledger, events: seq<Event>, key: ProjectKey)
    requires cfg.Valid() && key in Run(cfg, balances, events).st.projects
    ensures var s := Run(cfg, balances, events).st;
            var p := s.projects[key];
            && 2 * p.supportArea == CrossSum(OnProject(s.projectVotes, key))
            && p.totalVotes == SumMap(OnProject(s.projectVotes, key))
            && forall who :: VotesBy(s, key, who) <= p.totalVotes
  {
    RunsKeepBooks(cfg, balances, events);
    var s := Run(cfg, balances, events).st;
    assert ProjectOk(cfg, s.projectVotes, key, s.projects[key]);
    CrossSumAndSquares(OnProject(s.projectVotes, key));
    ScoreSumsAreSums(OnProject(s.projectVotes, key));
    forall who
      ensures VotesBy(s, key, who) <= s.projects[key].totalVotes
    {
      VoteAtMostTotal(s.projectVotes, (key, who));
    }
  }

  predicate VotedOn(s: Storage, key: ProjectKey, who: AccountId) {
    VotesBy(s, key, who) > 0
  }

  ghost predicate TwoVoters(s: Storage, key: ProjectKey) {
    exists a: AccountId, b: AccountId :: a != b && VotedOn(s, key, a) && VotedOn(s, key, b)
  }

  lemma VotersAreEntries(s: Storage, key: ProjectKey)
    requires TwoVoters(s, key)
    ensures TwoEntries(OnProject(s.projectVotes, key))
  {
    var a: AccountId, b: AccountId :| a != b && VotedOn(s, key, a) && VotedOn(s, key, b);
    assert (key, a) in OnProject(s.projectVotes, key) && (key, b) in OnProject(s.projectVotes, key);
  }

  lemma EntriesAreVoters(s: Storage, key: ProjectKey)
    requires VotesOk(s) && TwoEntries(OnProject(s.projectVotes, key))
    ensures TwoVoters(s, key)
  {
    var i, j :| i in OnProject(s.projectVotes, key) && j in OnProject(s.projectVotes, key) && i != j;
    assert i == (key, i.1) && j == (key, j.1);
    assert VotedOn(s, key, i.1) && VotedOn(s, key, j.1);
  }

  /** A project earns support area exactly when two different accounts voted for it. */
  lemma AreaNeedsTwoVoters(cfg: Config, balances: Ledger, events: seq<Event>, key: ProjectKey)
    requires cfg.Valid() && key in Run(cfg, balances, events).st.projects
    ensures var s := Run(cfg, balances, events).st;
            s.projects[key].supportArea > 0 <==> TwoVoters(s, key)
  {
    RunsKeepBooks(cfg, balances, events);
    PairwiseSupportArea(cfg, balances, events, key);
    var s := Run(cfg, balances, events).st;
    VotedMapIsPositive(s, key);
    CrossSumZeroIff(OnProject(s.projectVotes, key));
    if TwoVoters(s, key) {
      VotersAreEntries(s, key);
    } else if TwoEntries(OnProject(s.projectVotes, key)) {
      EntriesAreVoters(s, key);
    }
  }

  ghost predicate SameVotes(w: World, w': World, key: ProjectKey) {
    forall who :: Cumulative(w.log, (key, who)) == Cumulative(w'.log, (key, who))
  }

  lemma SameVotesSameRegister(w: World, w': World, key: ProjectKey)
    requires VotesOk(w.st) && VotesOk(w'.st) && LogOk(w) && LogOk(w') && SameVotes(w, w', key)
    ensures OnProject(w.st.projectVotes, key) == OnProject(w'.st.projectVotes, key)
  {
    forall k: VoteKey | k.0 == key
      ensures VotesOf(w.st.projectVotes, k) == VotesOf(w'.st.projectVotes, k)
    {
      assert k == (key, k.1);
      assert VoterOk(w, (key, k.1)) && VoterOk(w', (key, k.1));
    }
  }

  /** Neither the order of the ballots nor how a voter splits them makes any difference: in any two runs
      that end with the same cumulative votes, a project has the same votes, area and grants. */
  lemma BallotOrderIrrelevant(cfg: Config, balances: Ledger, events: seq<Event>, balances': Ledger, events': seq<Event>,
                              key: ProjectKey)
    requires cfg.Valid()
    requires key in Run(cfg, balances, events).st.projects && key in Run(cfg, balances', events').st.projects
    requires SameVotes(Run(cfg, balances, events), Run(cfg, balances', events'), key)
    ensures var p, p' := Run(cfg, balances, events).st.projects[key], Run(cfg, balances', events').st.projects[key];
            p.totalVotes == p'.totalVotes && p.supportArea == p'.supportArea && p.grants == p'.grants
  {
    RunsKeepBooks(cfg, balances, events);
    RunsKeepBooks(cfg, balances', events');
    RunsKeepLog(cfg, balances, events);
    RunsKeepLog(cfg, balances', events');
    var w, w' := Run(cfg, balances, events), Run(cfg, balances', events');
    SameVotesSameRegister(w, w', key);
    assert ProjectOk(cfg, w.st.projectVotes, key, w.st.projects[key]);
    assert ProjectOk(cfg, w'.st.projectVotes, key, w'.st.projects[key]);
  }

  // ----- prices -----

  /** All the points a voter was ever charged on a project are 1 + 2 + .. + v for the v votes the voter
      has there, in however many ballots they were cast. */
  lemma TriangularCost(cfg: Config, balances: Ledger, events: seq<Event>, key: ProjectKey, who: AccountId)
    ensures var w := Run(cfg, balances, events);
            && VotesBy(w.st, key, who) == Cumulative(w.log, (key, who))
            && Charged(w.log, (key, who)) == Triangle(VotesBy(w.st, key, who))
            && 2 * Charged(w.log, (key, who)) == VotesBy(w.st, key, who) * (VotesBy(w.st, key, who) + 1)
  {
    RunsKeepLog(cfg, balances, events);
    var w := Run(cfg, balances, events);
    assert VoterOk(w, (key, who));
    TwiceTriangle(VotesBy(w.st, key, who));
  }

  /** A project's grants are the net price of the triangular numbers of its voters' votes. */
  lemma GrantsAreNetPrice(cfg: Config, balances: Ledger, events: seq<Event>, key: ProjectKey)
    requires cfg.Valid() && key in Run(cfg, balances, events).st.projects
    ensures var s := Run(cfg, balances, events).st;
            s.projects[key].grants == cfg.unitOfVote * (cfg.numberOfUnitPerVote - cfg.feeRatioPerVote)
                                      * ProjectSum(s.projectVotes, key, Points)
  {
    RunsKeepBooks(cfg, balances, events);
    var s := Run(cfg, balances, events).st;
    assert ProjectOk(cfg, s.projectVotes, key, s.projects[key]);
    TimesIsProduct(cfg.unitOfVote * (cfg.numberOfUnitPerVote - cfg.feeRatioPerVote),
                   ProjectSum(s.projectVotes, key, Points));
  }

  /** The fee is never more than the amount, for a donation or for a vote. */
  lemma FeesNeverExceedAmounts(cfg: Config, amount: nat, points: nat)
    requires cfg.Valid() && cfg.numberOfUnitPerVote > 0
    ensures DonationFee(cfg, amount) <= amount
    ensures CalFee(cfg, points) <= CalAmount(cfg, points)
  {
    AmountLessFee(cfg, points);
    FractionAtMostWhole(cfg.feeRatioPerVote, cfg.numberOfUnitPerVote, amount);
  }

  lemma FractionAtMostWhole(f: nat, n: nat, amount: nat)
    requires f <= n && n > 0
    ensures f * (amount / n) <= amount
  {
    QuotientBounds(amount, n);
    TimesMonotone(f, n, amount / n);
  }

  // ----- rounds -----

  /** Everything donated to a round and everything its voters paid is in its pool, its projects' grants
      or its tax; and its total area is the sum of its projects' areas. */
  lemma RoundConservation(cfg: Config, balances: Ledger, events: seq<Event>, r: nat)
    requires cfg.Valid() && r in Run(cfg, balances, events).st.rounds
    ensures var s := Run(cfg, balances, events).st;
            var rnd := s.rounds[r];
            && rnd.preTaxSupportPool + cfg.unitOfVote * cfg.numberOfUnitPerVote * RoundPoints(s.projectVotes, r)
               == rnd.supportPool + GrantsOf(s.projects, r) + rnd.totalTax
            && rnd.totalSupportArea == AreaOf(s.projects, r)
  {
    RunsKeepBooks(cfg, balances, events);
    var s := Run(cfg, balances, events).st;
    assert RoundOk(cfg, s.projectVotes, s.projects, r, s.rounds[r]);
    TimesIsProduct(cfg.unitOfVote * cfg.numberOfUnitPerVote, RoundPoints(s.projectVotes, r));
  }

  lemma {:induction false} FeesAreOnUnits(cfg: Config, gifts: seq<Gift>, r: nat)
    requires cfg.numberOfUnitPerVote > 0
    ensures GivenFees(cfg, gifts, r) == cfg.feeRatioPerVote * UnitsGiven(gifts, r, cfg.numberOfUnitPerVote)
  {
    if gifts != [] {
      var g, prefix := gifts[|gifts| - 1], gifts[..|gifts| - 1];
      FeesAreOnUnits(cfg, prefix, r);
      FeeOnWholeUnits(cfg, g.amount, g.amount / cfg.numberOfUnitPerVote);
      Distribute(cfg.feeRatioPerVote, UnitsGiven(prefix, r, cfg.numberOfUnitPerVote), g.amount / cfg.numberOfUnitPerVote);
    }
  }

  /** Only whole units are taxed: the fee is the fee ratio for each of the q units that the amount contains. */
  lemma FeeOnWholeUnits(cfg: Config, amount: nat, q: nat)
    requires cfg.numberOfUnitPerVote > 0
    requires q == amount / cfg.numberOfUnitPerVote
             || q * cfg.numberOfUnitPerVote <= amount < q * cfg.numberOfUnitPerVote + cfg.numberOfUnitPerVote
    ensures DonationFee(cfg, amount) == cfg.feeRatioPerVote * q
  {
    QuotientUnique(amount, cfg.numberOfUnitPerVote, q);
  }

  /** A round's pool is what was donated to it less the fee ratio for each whole unit of each donation; its tax is
      that and the fee on every point its voters bought. */
  lemma PoolAndTaxByDonation(cfg: Config, balances: Ledger, events: seq<Event>, r: nat)
    requires cfg.Valid() && cfg.numberOfUnitPerVote > 0 && r in Run(cfg, balances, events).st.rounds
    ensures var w := Run(cfg, balances, events);
            var rnd := w.st.rounds[r];
            && rnd.preTaxSupportPool == Given(w.gifts, r)
            && rnd.supportPool == Given(w.gifts, r)
                                  - cfg.feeRatioPerVote * UnitsGiven(w.gifts, r, cfg.numberOfUnitPerVote)
            && rnd.totalTax == cfg.feeRatioPerVote * UnitsGiven(w.gifts, r, cfg.numberOfUnitPerVote)
                               + cfg.unitOfVote * cfg.feeRatioPerVote * RoundPoints(w.st.projectVotes, r)
  {
    RunsKeepGifts(cfg, balances, events);
    var w := Run(cfg, balances, events);
    assert RoundGiftsOk(cfg, w, r);
    FeesAreOnUnits(cfg, w.gifts, r);
    TimesIsProduct(cfg.unitOfVote * cfg.feeRatioPerVote, RoundPoints(w.st.projectVotes, r));
  }

  /** In whatever order the projects come, the matching shares hand out exactly the pool less the
      remainder of dividing it by the area; with no area, nothing. */
  lemma ExactMatchingSplit(cfg: Config, balances: Ledger, events: seq<Event>, r: nat, order: seq<Hash>)
    requires cfg.Valid() && r in Run(cfg, balances, events).st.rounds
    requires Enumerates(Run(cfg, balances, events).st, r, order)
    ensures var s := Run(cfg, balances, events).st;
            var rnd := s.rounds[r];
            SumSeq(Shares(s, r, order))
            == if rnd.totalSupportArea > 0 then rnd.supportPool - rnd.supportPool % rnd.totalSupportArea else 0
  {
    RoundConservation(cfg, balances, events, r);
    SharesAddUp(Run(cfg, balances, events).st, r, order);
  }

  /** No matching share exceeds the pool, and every pool fits its type, so that multiplying a project's
      area by the pool per area never overflows. */
  lemma SharesNeverOverflow(cfg: Config, balances: Ledger, events: seq<Event>, key: ProjectKey)
    requires cfg.Valid()
    requires key in Run(cfg, balances, events).st.projects && key.0 in Run(cfg, balances, events).st.rounds
    ensures var s := Run(cfg, balances, events).st;
            MatchingShare(s.projects[key], s.rounds[key.0]) <= s.rounds[key.0].supportPool
    ensures Fits(Run(cfg, balances, events).st.rounds[key.0].supportPool)
  {
    RoundConservation(cfg, balances, events, key.0);
    ShareAtMostPool(Run(cfg, balances, events).st, key.0, key);
    PoolsFit(cfg, balances, events);
  }

  lemma {:induction false} PoolsFit(cfg: Config, balances: Ledger, events: seq<Event>)
    ensures forall r :: r in Run(cfg, balances, events).st.rounds ==>
              Fits(Run(cfg, balances, events).st.rounds[r].supportPool)
  {
    if events != [] {
      PoolsFit(cfg, balances, events[..|events| - 1]);
    }
  }

  lemma {:induction false} GrantsFit(cfg: Config, balances: Ledger, events: seq<Event>)
    ensures forall key :: key in Run(cfg, balances, events).st.projects ==>
              Fits(Run(cfg, balances, events).st.projects[key].grants)
  {
    if events != [] {
      GrantsFit(cfg, balances, events[..|events| - 1]);
    }
  }

  /** On every run, funded or not, ending a round succeeds if and only if it is running and the final grants of
      each of its projects fit their type. */
  lemma EndRoundSucceedsIff(cfg: Config, balances: Ledger, events: seq<Event>, r: nat, order: seq<Hash>)
    requires cfg.Valid() && Enumerates(Run(cfg, balances, events).st, r, order)
    ensures var s := Run(cfg, balances, events).st;
            EndRoundCheck(s, r, order).Accept?
            <==> Ongoing(s, r) && forall key :: key in s.projects && key.0 == r ==>
                                    Fits(FinalGrants(s.projects[key], s.rounds[r]))
  {
    var s := Run(cfg, balances, events).st;
    GrantsFit(cfg, balances, events);
    if Ongoing(s, r) {
      forall key | key in s.projects && key.0 == r
        ensures Fits(FinalGrants(s.projects[key], s.rounds[r])) <==> PayoutFits(s.projects[key], s.rounds[r])
      {
        SharesNeverOverflow(cfg, balances, events, key);
      }
      forall key | key in s.projects && key.0 == r
        ensures exists i :: 0 <= i < |order| && key == (r, order[i])
      {
        assert key == (r, key.1);
      }
    }
  }

  // ----- solvency -----

  /** The account always holds the existential deposit, plus pool, grants and tax of every round that is
      running, plus what every ended round did not distribute. */
  lemma MultiRoundSolvency(cfg: Config, balances: Ledger, events: seq<Event>)
    requires cfg.Valid() && FundedRun(cfg, balances, events)
    ensures var s := Run(cfg, balances, events).st;
            cfg.existentialDeposit + Reserves(s.rounds, s.projects) <= Free(s.balances, cfg.account)
  {
    RunsKeepSolvent(cfg, balances, events);
  }

  /** Funded or not, a run leaves the account solvent if and only if what others credited to it and what
      ended rounds could not pay out make up for the donations and votes that came without their money. */
  lemma SolventIff(cfg: Config, balances: Ledger, events: seq<Event>)
    requires cfg.Valid()
    ensures Surplus(cfg, Run(cfg, balances, events).st) == SurplusChanges(cfg, balances, events)
    ensures Solvent(cfg, Run(cfg, balances, events).st) <==> 0 <= SurplusChanges(cfg, balances, events)
  {
    SurplusOfRun(cfg, balances, events);
  }

  /** A running round can always be ended, in whatever order its projects come; and each payout fails
      at most on the receiver's side, never for want of funds or to keep the account alive. */
  lemma EndRoundNeverFails(cfg: Config, balances: Ledger, events: seq<Event>, r: nat, order: seq<Hash>)
    requires cfg.Valid() && FundedRun(cfg, balances, events)
    requires Ongoing(Run(cfg, balances, events).st, r) && Enumerates(Run(cfg, balances, events).st, r, order)
    ensures var s := Run(cfg, balances, events).st;
            && EndRoundCheck(s, r, order).Accept?
            && forall n :: 0 <= n < |order| ==>
                 var p, l := s.projects[(r, order[n])], PayAll(cfg, s, r, order[..n]);
                 && PayoutAffordable(cfg, s, r, order, n)
                 && (Transferable(cfg.existentialDeposit, l, cfg.account, p.owner, FinalGrants(p, s.rounds[r]),
                                  KeepAlive)
                     <==> FinalGrants(p, s.rounds[r]) == 0 || p.owner == cfg.account
                          || Receivable(cfg.existentialDeposit, l, p.owner, FinalGrants(p, s.rounds[r])))
  {
    RunsKeepSolvent(cfg, balances, events);
    RoundConservation(cfg, balances, events, r);
    forall n: nat | n < |order|
      ensures PayoutAffordable(cfg, Run(cfg, balances, events).st, r, order, n)
      ensures PayoutFits(Run(cfg, balances, events).st.projects[(r, order[n])], Run(cfg, balances, events).st.rounds[r])
    {
      EveryPayoutAffordable(cfg, Run(cfg, balances, events).st, r, order, n);
    }
  }

  // ----- who is paid what -----

  /** What one owner is due from the projects in `order`. */
  function OwnedFinals(s: Storage, r: nat, order: seq<Hash>, a: AccountId): nat
    requires r in s.rounds && forall i :: 0 <= i < |order| ==> (r, order[i]) in s.projects
  {
    if order == [] then 0
    else
      var n := |order| - 1;
      var p := s.projects[(r, order[n])];
      OwnedFinals(s, r, order[..n], a) + if p.owner == a then FinalGrants(p, s.rounds[r]) else 0
  }

  ghost predicate AllReceived(cfg: Config, s: Storage, r: nat, order: seq<Hash>)
    requires r in s.rounds && forall i :: 0 <= i < |order| ==> (r, order[i]) in s.projects
  {
    forall n :: 0 <= n < |order| ==>
      Transferable(cfg.existentialDeposit, PayAll(cfg, s, r, order[..n]), cfg.account, s.projects[(r, order[n])].owner,
                   FinalGrants(s.projects[(r, order[n])], s.rounds[r]), KeepAlive)
  }

  /** When every payout is received, every owner has the grants and matching shares of all its projects,
      whatever the order, and nobody else's balance changes. */
  lemma {:induction false} OwnersArePaidInFull(cfg: Config, s: Storage, r: nat, order: seq<Hash>, a: AccountId)
    requires r in s.rounds && forall i :: 0 <= i < |order| ==> (r, order[i]) in s.projects
    requires AllReceived(cfg, s, r, order) && a != cfg.account
    ensures Free(PayAll(cfg, s, r, order), a) == Free(s.balances, a) + OwnedFinals(s, r, order, a)
  {
    if order != [] {
      var n := |order| - 1;
      assert forall i :: 0 <= i <= n ==> order[..n][..i] == order[..i];
      assert order[..n] == order[..|order| - 1];
      OwnersArePaidInFull(cfg, s, r, order[..n], a);
    }
  }

  // ----- ended rounds -----

  ghost predicate Ended(s: Storage, r: nat) {
    r in s.rounds && !s.rounds[r].ongoing
  }

  /** What an ended round fixes: its record and the projects it has. */
  ghost predicate Frozen(s: Storage, s': Storage, r: nat)
    requires Ended(s, r)
  {
    && r in s'.rounds && s'.rounds[r] == s.rounds[r]
    && forall key :: key in s.projects && key.0 == r ==> key in s'.projects && s'.projects[key] == s.projects[key]
  }

  lemma NextKeepsEnded(cfg: Config, w: World, e: Event, r: nat)
    requires Ended(w.st, r)
    ensures Ended(Next(cfg, w, e).st, r) && Frozen(w.st, Next(cfg, w, e).st, r)
  {
  }

  /** An ended round is never reopened, donated to, voted in or paid out again. */
  lemma {:induction false} EndedRoundsAreFrozen(cfg: Config, balances: Ledger, events: seq<Event>, more: seq<Event>, r: nat)
    requires Ended(Run(cfg, balances, events).st, r)
    ensures Frozen(Run(cfg, balances, events).st, Run(cfg, balances, events + more).st, r)
    decreases |more|
  {
    if more == [] {
      assert events + more == events;
    } else {
      var prefix, e := more[..|more| - 1], more[|more| - 1];
      assert events + more == (events + prefix) + [e];
      RunSnoc(cfg, balances, events + prefix, e);
      EndedRoundsAreFrozen(cfg, balances, events, prefix, r);
      NextKeepsEnded(cfg, Run(cfg, balances, events + prefix), e, r);
    }
  }

  // ----- currency -----

  lemma {:induction false} PayAllConservesCurrency(cfg: Config, s: Storage, r: nat, order: seq<Hash>)
    requires r in s.rounds && forall i :: 0 <= i < |order| ==> (r, order[i]) in s.projects
    ensures TotalIssuance(PayAll(cfg, s, r, order)) == TotalIssuance(s.balances)
  {
    if order != [] {
      var n := |order| - 1;
      var p := s.projects[(r, order[n])];
      PayAllConservesCurrency(cfg, s, r, order[..n]);
      TransferConservesIssuance(cfg.existentialDeposit, PayAll(cfg, s, r, order[..n]), cfg.account, p.owner,
                                FinalGrants(p, s.rounds[r]), KeepAlive);
    }
  }

  /** The pallet creates and destroys no currency. */
  lemma DispatchConservesCurrency(cfg: Config, s: Storage, o: Origin, c: Call)
    requires WellFormed(s, c)
    ensures TotalIssuance(Step(cfg, s, o, c).balances) == TotalIssuance(s.balances)
  {
    if Check(cfg, s, o, c).Accept? {
      match c
      case Donate(_, amount) =>
        TransferConservesIssuance(cfg.existentialDeposit, s.balances, o.who, cfg.account, amount, KeepAlive);
      case Vote(r, hash, ballot) =>
        TransferConservesIssuance(cfg.existentialDeposit, s.balances, o.who, cfg.account,
                                  CalAmount(cfg, CalCost(VotesBy(s, (r, hash), o.who), ballot)), KeepAlive);
      case EndRound(r, order) => PayAllConservesCurrency(cfg, s, r, order);
      case _ =>
    }
  }
}
