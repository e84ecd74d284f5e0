/**
 What the ragequit lock is for. Until a proposal is processed, every YES vote on it is backed by shares that
 its voter still holds, so that its YES tally never exceeds the shares that exist.
 */
module MolochBacking {
  import opened Prelude
  import opened Sums
  import opened Currency
  import opened Moloch
  import opened MolochRuns
  import opened MolochShares
  import opened MolochSchedule
  import opened MolochVoting
  import opened MolochInvariant
  import opened MolochPayments
  import opened MolochTheorems

  ghost predicate BackedVote(w: World, i: nat, k: VoteKey) {
    YesBallot(w, i, k) ==> w.log.ballots[k].weight <= MemberOf(w.st.members, k.1).shares
  }

  ghost predicate VotesBacked(w: World) {
    forall i: nat, k :: i < |w.st.proposalQueue| && !w.st.proposalQueue[i].processed ==> BackedVote(w, i, k)
  }

  /** Nobody who voted YES on an unprocessed proposal can burn shares. */
  lemma LockKeepsBacked(cfg: Config, w: World, who: AccountId, burn: u128, i: nat, k: VoteKey)
    requires Live(cfg, w) && RagequitCheck(cfg, w.st, who, burn).Accept?
    requires i < |w.st.proposalQueue| && !w.st.proposalQueue[i].processed && YesBallot(w, i, k)
    ensures k.1 != who
  {
    LockIsExact(w, who);
    assert k == (i, k.1);
  }

  lemma HolderKeepsShares(cfg: Config, w: World, who: AccountId, c: Call, i: nat, k: VoteKey)
    requires Live(cfg, w) && !c.Summon? && Check(cfg, w.st, who, c).Accept?
    requires i < |w.st.proposalQueue| && !w.st.proposalQueue[i].processed && YesBallot(w, i, k)
    ensures MemberOf(w.st.members, k.1).shares <= MemberOf(Effect(cfg, w.st, who, c).members, k.1).shares
  {
    SharesMoveOnlyByMintAndBurn(cfg, w.st, who, c, k.1);
    if c.Ragequit? {
      LockKeepsBacked(cfg, w, who, c.sharesToBurn, i, k);
    }
  }

  lemma StepKeepsVoteBacked(cfg: Config, w: World, who: AccountId, c: Call, i: nat, k: VoteKey)
    requires Live(cfg, w) && !c.Summon?
    requires Possible(cfg, w.st, Dispatch(who, c)) && Check(cfg, w.st, who, c).Accept?
    requires i < |w.st.proposalQueue| && !w.st.proposalQueue[i].processed && BackedVote(w, i, k)
    ensures BackedVote(Next(cfg, w, Dispatch(who, c)), i, k)
  {
    if YesBallot(w, i, k) {
      HolderKeepsShares(cfg, w, who, c, i, k);
    }
  }

  lemma NewProposalHasNoVotes(cfg: Config, w: World, who: AccountId, c: Call, i: nat, k: VoteKey)
    requires Live(cfg, w) && Possible(cfg, w.st, Dispatch(who, c)) && Check(cfg, w.st, who, c).Accept?
    requires |w.st.proposalQueue| <= i
    ensures !YesBallot(Next(cfg, w, Dispatch(who, c)), i, k)
  {
  }

  lemma StepKeepsBacked(cfg: Config, w: World, who: AccountId, c: Call)
    requires Live(cfg, w) && VotesBacked(w) && !c.Summon?
    requires Possible(cfg, w.st, Dispatch(who, c)) && Check(cfg, w.st, who, c).Accept?
    ensures VotesBacked(Next(cfg, w, Dispatch(who, c)))
  {
    var w' := Next(cfg, w, Dispatch(who, c));
    forall i: nat, k | i < |w'.st.proposalQueue| && !w'.st.proposalQueue[i].processed
      ensures BackedVote(w', i, k)
    {
      if i < |w.st.proposalQueue| {
        assert BackedVote(w, i, k);
        StepKeepsVoteBacked(cfg, w, who, c, i, k);
      } else {
        NewProposalHasNoVotes(cfg, w, who, c, i, k);
      }
    }
  }

  lemma SameVotesSameBacking(w: World, w': World)
    requires VotesBacked(w)
    requires w'.st.proposalQueue == w.st.proposalQueue && w'.st.members == w.st.members
    requires w'.st.proposalVotes == w.st.proposalVotes && w'.log == w.log
    ensures VotesBacked(w')
  {
    forall i: nat, k | i < |w'.st.proposalQueue| && !w'.st.proposalQueue[i].processed
      ensures BackedVote(w', i, k)
    {
      assert BackedVote(w, i, k);
    }
  }

  lemma NextKeepsBacked(cfg: Config, w: World, e: Event)
    requires Inv(cfg, w) && Next(cfg, w, e).log.summons <= 1 && VotesBacked(w)
    ensures VotesBacked(Next(cfg, w, e))
  {
    if e.Dispatch? && Possible(cfg, w.st, e) && Check(cfg, w.st, e.who, e.call).Accept? {
      if w.log.summons == 1 {
        StepKeepsBacked(cfg, w, e.who, e.call);
      } else {
        EarlyQueueIsEmpty(cfg, w, e.who, e.call);
      }
    } else {
      SameVotesSameBacking(w, Next(cfg, w, e));
    }
  }

  lemma EarlyQueueIsEmpty(cfg: Config, w: World, who: AccountId, c: Call)
    requires Unsummoned(w) && Check(cfg, w.st, who, c).Accept?
    ensures Effect(cfg, w.st, who, c).proposalQueue == []
  {
  }

  lemma {:induction false} RunsKeepBacked(cfg: Config, balances: Ledger, events: seq<Event>)
    requires cfg.Valid() && Run(cfg, balances, events).log.summons <= 1
    ensures VotesBacked(Run(cfg, balances, events))
  {
    if events != [] {
      var prefix, e := events[..|events| - 1], events[|events| - 1];
      SummonsGrow(cfg, Run(cfg, balances, prefix), e);
      RunsKeepInv(cfg, balances, prefix);
      RunsKeepBacked(cfg, balances, prefix);
      NextKeepsBacked(cfg, Run(cfg, balances, prefix), e);
    }
  }

  // ----- a sum of votes is at most a sum of shares -----

  /** The votes on one proposal, each at most its voter's shares, add up to at most all shares. */
  lemma {:induction false} VotesAtMostShares(votes: map<VoteKey, nat>, shares: map<AccountId, nat>, i: nat)
    requires forall k :: k in votes ==> k.0 == i && k.1 in shares && votes[k] <= shares[k.1]
    ensures SumMap(votes) <= SumMap(shares)
    decreases |votes|
  {
    if votes != map[] {
      var k :| k in votes;
      SumMapRemove(votes, k);
      SumMapRemove(shares, k.1);
      VotesAtMostShares(votes - {k}, shares - {k.1}, i);
    }
  }

  /** .. and whoever has not voted yet adds at most its own. */
  lemma YesTallyLeavesRoom(cfg: Config, w: World, i: nat, voter: AccountId)
    requires Live(cfg, w) && VotesBacked(w) && i < |w.st.proposalQueue| && !w.st.proposalQueue[i].processed
    requires (i, voter) !in w.st.proposalVotes && voter in w.st.members
    ensures w.st.proposalQueue[i].yesVotes + MemberOf(w.st.members, voter).shares <= w.st.totalShares
  {
    var votes := Cast(w.st.proposalVotes, w.log.ballots, i, YES);
    var weight := MemberOf(w.st.members, voter).shares;
    SumMapUpdate(votes, (i, voter), weight);
    forall k | k in votes
      ensures k.1 in w.st.members && votes[k] <= w.st.members[k.1].shares
    {
      assert BackedVote(w, i, k);
    }
    VotesAtMostShares(votes[(i, voter) := weight], ShareMap(w.st.members), i);
    assert TallyOk(w, i);
  }

  lemma YesTallyAtMostTotal(cfg: Config, w: World, i: nat)
    requires Live(cfg, w) && VotesBacked(w) && i < |w.st.proposalQueue| && !w.st.proposalQueue[i].processed
    ensures w.st.proposalQueue[i].yesVotes <= w.st.totalShares
  {
    var votes := Cast(w.st.proposalVotes, w.log.ballots, i, YES);
    forall k | k in votes
      ensures k.1 in w.st.members && votes[k] <= w.st.members[k.1].shares
    {
      assert BackedVote(w, i, k);
    }
    VotesAtMostShares(votes, ShareMap(w.st.members), i);
    assert TallyOk(w, i);
  }

  /** Until a proposal is processed, each YES vote on it weighs no more than what its voter holds now, and all
      of them together no more than all shares, which are within the cap. */
  lemma YesVotesAreBacked(cfg: Config, balances: Ledger, events: seq<Event>, i: nat)
    requires SingleSummon(cfg, balances, events)
    requires i < |Run(cfg, balances, events).st.proposalQueue| && !Run(cfg, balances, events).st.proposalQueue[i].processed
    ensures var w := Run(cfg, balances, events);
            && (forall k :: BackedVote(w, i, k))
            && w.st.proposalQueue[i].yesVotes <= w.st.totalShares <= cfg.maxShares
  {
    RunsKeepInv(cfg, balances, events);
    RunsKeepBacked(cfg, balances, events);
    YesTallyAtMostTotal(cfg, Run(cfg, balances, events), i);
    PendingNonNegative(Run(cfg, balances, events).st.proposalQueue);
  }

  /** The guards of a vote up to the first look at the voting window. */
  predicate ReachesWindow(s: Storage, who: AccountId, i: nat) {
    && who in s.addressOfDelegates && MemberOf(s.members, DelegateOf(s, who)).shares > 0
    && i < |s.proposalQueue| && s.proposalQueue[i].startingPeriod <= Period(s)
  }

  lemma YesVoteFits(cfg: Config, w: World, who: AccountId, i: nat)
    requires Live(cfg, w) && VotesBacked(w) && ReachesWindow(w.st, who, i)
    requires Period(w.st) < w.st.rules.votingPeriodLength + w.st.proposalQueue[i].startingPeriod
    requires (i, DelegateOf(w.st, who)) !in w.st.proposalVotes
    ensures Fits(w.st.proposalQueue[i].yesVotes + MemberOf(w.st.members, DelegateOf(w.st, who)).shares)
  {
    assert ProposalOk(w.st, w.st.proposalQueue[i]);
    YesTallyLeavesRoom(cfg, w, i, DelegateOf(w.st, who));
    PendingNonNegative(w.st.proposalQueue);
  }

  /** So a YES vote never overflows the tally: it panics if and only if the end of the voting window does not
      fit its type. */
  lemma YesVoteTrapsIff(cfg: Config, balances: Ledger, events: seq<Event>, who: AccountId, i: nat)
    requires SingleSummon(cfg, balances, events)
    ensures var s := Run(cfg, balances, events).st;
            SubmitVoteCheck(s, who, i, YES).Trap?
            <==> ReachesWindow(s, who, i) && !Fits(s.rules.votingPeriodLength + s.proposalQueue[i].startingPeriod)
  {
    RunsKeepInv(cfg, balances, events);
    RunsKeepBacked(cfg, balances, events);
    var w := Run(cfg, balances, events);
    if ReachesWindow(w.st, who, i)
       && Period(w.st) < w.st.rules.votingPeriodLength + w.st.proposalQueue[i].startingPeriod
       && (i, DelegateOf(w.st, who)) !in w.st.proposalVotes {
      YesVoteFits(cfg, w, who, i);
    }
  }

  /** What it takes of the member whose vote it is. */
  predicate MayVote(s: Storage, m: AccountId, i: nat, unit: u8)
    requires i < |s.proposalQueue|
  {
    && MemberOf(s.members, m).shares > 0 && (i, m) !in s.proposalVotes
    && (unit == 2 ==> Fits(s.proposalQueue[i].noVotes + MemberOf(s.members, m).shares))
  }

  /** The guards of a vote: who votes, on what, and when. */
  predicate VoteGuards(s: Storage, who: AccountId, i: nat, unit: u8) {
    && i < |s.proposalQueue| && (unit == 1 || unit == 2)
    && who in s.addressOfDelegates && MayVote(s, DelegateOf(s, who), i, unit)
    && IsOpen(s.proposalQueue[i], Period(s), s.rules.votingPeriodLength) && !s.proposalQueue[i].aborted
    && Fits(s.proposalQueue[i].startingPeriod + s.rules.votingPeriodLength)
  }

  /** A vote that gets past its guards is never stopped by its tally. */
  lemma VoteAcceptedByKey(cfg: Config, w: World, who: AccountId, i: u128, unit: u8)
    requires Live(cfg, w) && VotesBacked(w)
    ensures SubmitVoteCheck(w.st, who, i, unit).Accept? <==> VoteGuards(w.st, who, i, unit)
  {
    if VoteGuards(w.st, who, i, unit) {
      YesVoteFits(cfg, w, who, i);
    }
  }
}
