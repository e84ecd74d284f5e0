/**
 The donations: a round's pool and tax as sums over what was donated to it, one gift at a time.
 */
module FundingDonations {
  import opened Prelude
  import opened Currency
  import opened QuadraticFunding
  import opened FundingRuns
  import opened FundingSums
  import opened FundingBooks

  function FeePrice(cfg: Config, points: nat): int {
    Times(cfg.unitOfVote * cfg.feeRatioPerVote, points)
  }

  /** What a round's record should be, given its donations and the points its voters bought. */
  ghost predicate GiftEquations(rnd: Round, given: int, fees: int, voteFees: int) {
    && rnd.preTaxSupportPool == given
    && rnd.supportPool == given - fees
    && rnd.totalTax == fees + voteFees
  }

  ghost predicate GiftOk(cfg: Config, gifts: seq<Gift>, votes: Votes, r: nat, rnd: Round)
    requires cfg.numberOfUnitPerVote > 0
  {
    GiftEquations(rnd, Given(gifts, r), GivenFees(cfg, gifts, r), FeePrice(cfg, RoundPoints(votes, r)))
  }

  ghost predicate RoundGiftsOk(cfg: Config, w: World, r: nat)
    requires cfg.numberOfUnitPerVote > 0
  {
    if r in w.st.rounds then GiftOk(cfg, w.gifts, w.st.projectVotes, r, w.st.rounds[r])
    else Given(w.gifts, r) == 0 && GivenFees(cfg, w.gifts, r) == 0
  }

  ghost predicate GiftsOk(cfg: Config, w: World)
    requires cfg.numberOfUnitPerVote > 0
  {
    forall r: nat :: RoundGiftsOk(cfg, w, r)
  }

  lemma GiftAppended(cfg: Config, gifts: seq<Gift>, g: Gift, r: nat)
    requires cfg.numberOfUnitPerVote > 0
    ensures Given(gifts + [g], r) == Given(gifts, r) + if g.round == r then g.amount else 0
    ensures GivenFees(cfg, gifts + [g], r)
            == GivenFees(cfg, gifts, r) + if g.round == r then DonationFee(cfg, g.amount) else 0
  {
    assert (gifts + [g])[..|gifts|] == gifts;
  }

  /** The fee of a vote is the fee price of its cost. */
  lemma FeePricesAdd(cfg: Config, x: nat, cost: nat)
    ensures FeePrice(cfg, x + cost) == FeePrice(cfg, x) + CalFee(cfg, cost)
  {
    TimesAdds(cfg.unitOfVote * cfg.feeRatioPerVote, x, cost);
    TimesIsProduct(cfg.unitOfVote * cfg.feeRatioPerVote, cost);
  }

  lemma VoteKeepsGift(cfg: Config, gifts: seq<Gift>, votes: Votes, k: VoteKey, ballot: nat, rnd: Round, rnd': Round)
    requires cfg.numberOfUnitPerVote > 0 && GiftOk(cfg, gifts, votes, k.0.0, rnd)
    requires rnd'.preTaxSupportPool == rnd.preTaxSupportPool && rnd'.supportPool == rnd.supportPool
    requires rnd'.totalTax == rnd.totalTax + CalFee(cfg, CalCost(VotesOf(votes, k), ballot))
    ensures GiftOk(cfg, gifts, votes[k := VotesOf(votes, k) + ballot], k.0.0, rnd')
  {
    CostIsPointsAdded(votes, k, ballot);
    FeePricesAdd(cfg, RoundPoints(votes, k.0.0), CalCost(VotesOf(votes, k), ballot));
  }

  lemma NoVotesNoFees(cfg: Config, votes: Votes, r: nat)
    requires forall k :: k in votes ==> k.0.0 != r
    ensures FeePrice(cfg, RoundPoints(votes, r)) == 0
  {
    assert InRound(votes, r) == map[];
  }

  lemma VoteKeepsOwnGifts(cfg: Config, w: World, who: AccountId, r: u32, hash: Hash, ballot: u128)
    requires cfg.numberOfUnitPerVote > 0 && VoteCheck(cfg, w.st, who, r, hash, ballot).Accept?
    requires GiftOk(cfg, w.gifts, w.st.projectVotes, r, w.st.rounds[r])
    ensures var s' := VoteEffect(cfg, w.st, who, r, hash, ballot);
            GiftOk(cfg, w.gifts, s'.projectVotes, r, s'.rounds[r])
  {
    var s', k := VoteEffect(cfg, w.st, who, r, hash, ballot), ((r, hash), who);
    VoteKeepsGift(cfg, w.gifts, w.st.projectVotes, k, ballot, w.st.rounds[r], s'.rounds[r]);
  }

  lemma VoteKeepsRoundGifts(cfg: Config, w: World, who: AccountId, voted: u32, hash: Hash, ballot: u128, r: nat)
    requires cfg.numberOfUnitPerVote > 0 && RoundGiftsOk(cfg, w, r) && who != cfg.account
    requires VoteCheck(cfg, w.st, who, voted, hash, ballot).Accept?
    ensures RoundGiftsOk(cfg, Next(cfg, w, Dispatch(Signed(who), Vote(voted, hash, ballot))), r)
  {
    if voted == r {
      VoteKeepsOwnGifts(cfg, w, who, voted, hash, ballot);
    } else {
      var k := ((voted, hash), who);
      RoundPointsAfterVote(w.st.projectVotes, k, VotesOf(w.st.projectVotes, k) + ballot, r);
    }
  }

  lemma NextKeepsRoundGifts(cfg: Config, w: World, e: Event, r: nat)
    requires cfg.numberOfUnitPerVote > 0 && RoundGiftsOk(cfg, w, r) && VotesOk(w.st) && Succeeds(cfg, w.st, e)
    ensures RoundGiftsOk(cfg, Next(cfg, w, e), r)
  {
    if e.Dispatch? && e.call.Donate? {
      GiftAppended(cfg, w.gifts, Gift(e.call.donatedRound, e.call.amount), r);
    } else if e.Dispatch? && e.call.Vote? {
      VoteKeepsRoundGifts(cfg, w, e.origin.who, e.call.votedRound, e.call.votedHash, e.call.ballot, r);
    } else if r !in w.st.rounds {
      NoVotesNoFees(cfg, w.st.projectVotes, r);
    }
  }

  lemma {:induction false} RunsKeepGifts(cfg: Config, balances: Ledger, events: seq<Event>)
    requires cfg.Valid() && cfg.numberOfUnitPerVote > 0
    ensures GiftsOk(cfg, Run(cfg, balances, events))
  {
    if events != [] {
      var prefix := events[..|events| - 1];
      RunsKeepGifts(cfg, balances, prefix);
      RunsKeepBooks(cfg, balances, prefix);
      var w, e := Run(cfg, balances, prefix), events[|events| - 1];
      if Succeeds(cfg, w.st, e) {
        forall r: nat
          ensures RoundGiftsOk(cfg, Next(cfg, w, e), r)
        {
          NextKeepsRoundGifts(cfg, w, e, r);
        }
      }
    }
  }
}
