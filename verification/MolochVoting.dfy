/**
 Votes. The tallies on a proposal are the sums of what the recorded votes weighed when they were
 cast; the remembered maximum of the guild's size is the maximum over the YES votes; and a
 member's highest YES index bounds every YES vote the member ever cast.
 */
module MolochVoting {
  import opened Prelude
  import opened Sums
  import opened Moloch
  import opened MolochRuns
  import opened MolochSchedule

  // ----- the vote register -----

  /** Votes are on proposals in the queue, whoever summons. */
  ghost predicate VotesInQueue(s: Storage) {
    forall k: VoteKey :: k in s.proposalVotes ==> k.0 < |s.proposalQueue|
  }

  ghost predicate VoteRegisterOk(s: Storage) {
    && VotesInQueue(s)
    && (forall k: VoteKey :: k in s.proposalVotes ==>
          k.1 in s.members && (s.proposalVotes[k] == YES || s.proposalVotes[k] == NO))
    && (forall k: VoteKey :: k in s.proposalVotes && s.proposalVotes[k] == YES ==>
          k.0 <= MemberOf(s.members, k.1).highestIndexYesVote)
    && (forall m :: m in s.members ==> HighestIsVoted(s, m))
  }

  /** The highest YES index is 0 by default, and otherwise the index of a recorded YES vote. */
  ghost predicate HighestIsVoted(s: Storage, m: AccountId) {
    var h := MemberOf(s.members, m).highestIndexYesVote;
    h == 0 || VoteOf(s, h, m) == YES
  }

  /** Members are never removed, and nothing but a vote moves a member's highest YES index. */
  lemma PassKeepsHighest(members: map<AccountId, Member>, delegates: map<AccountId, AccountId>, a: AccountId,
                          shares: nat)
    ensures members.Keys <= MembersAfterPass(members, delegates, a, shares).Keys
    ensures forall m :: m in MembersAfterPass(members, delegates, a, shares) ==>
              MemberOf(MembersAfterPass(members, delegates, a, shares), m).highestIndexYesVote
              == MemberOf(members, m).highestIndexYesVote
  {
  }

  /** What a vote does to the register and to the voter's record. */
  lemma VotedRegister(s: Storage, s': Storage, voter: AccountId, i: nat, unit: u8)
    requires VoteRegisterOk(s) && voter in s.members && i < |s.proposalQueue| && (unit == YES || unit == NO)
    requires |s'.proposalQueue| == |s.proposalQueue| && s'.proposalVotes == s.proposalVotes[(i, voter) := unit]
    requires (i, voter) !in s.proposalVotes
    requires var m := s.members[voter];
             s'.members == if unit == YES && i > m.highestIndexYesVote
                           then s.members[voter := m.(highestIndexYesVote := i)] else s.members
    ensures VoteRegisterOk(s')
  {
    assert s'.members.Keys == s.members.Keys;
    forall m | m in s'.members
      ensures HighestIsVoted(s', m)
    {
      assert HighestIsVoted(s, m);
    }
  }

  lemma VoteKeepsRegister(s: Storage, who: AccountId, i: nat, unit: u8)
    requires VoteRegisterOk(s) && SubmitVoteCheck(s, who, i, unit).Accept?
    ensures VoteRegisterOk(SubmitVoteEffect(s, who, i, unit))
  {
    VotedRegister(s, SubmitVoteEffect(s, who, i, unit), DelegateOf(s, who), i, unit);
  }

  lemma StepKeepsRegister(cfg: Config, s: Storage, who: AccountId, c: Call)
    requires VoteRegisterOk(s) && !c.Summon?
    ensures VoteRegisterOk(Step(cfg, s, who, c))
  {
    if Check(cfg, s, who, c).Accept? {
      if c.SubmitVote? {
        VoteKeepsRegister(s, who, c.votedIndex, c.voteUnit);
      } else if c.ProcessProposal? {
        ProcessKeepsRegister(cfg, s, who, c.processedIndex);
      } else {
        var s' := Step(cfg, s, who, c);
        assert s'.proposalVotes == s.proposalVotes && s'.members.Keys == s.members.Keys;
        assert forall m :: m in s.members ==> HighestIsVoted(s, m) && HighestIsVoted(s', m);
      }
    }
  }

  lemma ProcessKeepsRegister(cfg: Config, s: Storage, who: AccountId, i: nat)
    requires VoteRegisterOk(s) && ProcessProposalCheck(cfg, s, i).Accept?
    ensures VoteRegisterOk(ProcessProposalEffect(cfg, s, who, i))
  {
    var p := s.proposalQueue[i];
    PassKeepsHighest(s.members, s.addressOfDelegates, p.applicant, p.sharesRequested);
    var s' := ProcessProposalEffect(cfg, s, who, i);
    forall m | m in s'.members
      ensures HighestIsVoted(s', m)
    {
      assert m in s.members ==> HighestIsVoted(s, m);
    }
  }

  /** The lock on a ragequit, read off the vote register: proposal 0 and every proposal the member
      ever voted YES on are processed. */
  ghost predicate NothingAtStake(s: Storage, m: AccountId) {
    && s.proposalQueue != [] && s.proposalQueue[0].processed
    && forall i :: 0 <= i < |s.proposalQueue| && VoteOf(s, i, m) == YES ==> s.proposalQueue[i].processed
  }

  predicate Unlocked(s: Storage, m: AccountId) {
    var h := MemberOf(s.members, m).highestIndexYesVote;
    h < |s.proposalQueue| && s.proposalQueue[h].processed
  }

  /** One look at the highest YES index decides about all of them, because processing is in order. */
  lemma LockIsExact(w: World, m: AccountId)
    requires VoteRegisterOk(w.st) && OrderOk(w) && m in w.st.members
    ensures Unlocked(w.st, m) <==> NothingAtStake(w.st, m)
  {
    var s := w.st;
    assert HighestIsVoted(s, m);
    if Unlocked(s, m) {
      forall i | 0 <= i < |s.proposalQueue| && VoteOf(s, i, m) == YES
        ensures s.proposalQueue[i].processed
      {
        assert (i, m) in s.proposalVotes;
      }
    }
    if NothingAtStake(s, m) && MemberOf(s.members, m).highestIndexYesVote != 0 {
      var h := MemberOf(s.members, m).highestIndexYesVote;
      assert (h, m) in s.proposalVotes && (h, m).0 < |s.proposalQueue|;
    }
  }

  // ----- the tallies -----

  function Cast(votes: map<VoteKey, u8>, ballots: map<VoteKey, Ballot>, i: nat, unit: u8): map<VoteKey, nat> {
    map k | k in votes && k in ballots && k.0 == i && votes[k] == unit :: ballots[k].weight
  }

  /** The shares behind the votes of one kind on one proposal, each as of the time of the vote. */
  ghost function Tally(w: World, i: nat, unit: u8): nat {
    SumMap(Cast(w.st.proposalVotes, w.log.ballots, i, unit))
  }

  ghost predicate TallyOk(w: World, i: nat)
    requires i < |w.st.proposalQueue|
  {
    w.st.proposalQueue[i].yesVotes == Tally(w, i, YES) && w.st.proposalQueue[i].noVotes == Tally(w, i, NO)
  }

  ghost predicate YesBallot(w: World, i: nat, k: VoteKey) {
    k in w.st.proposalVotes && k in w.log.ballots && k.0 == i && w.st.proposalVotes[k] == YES
  }

  /** `max_total_shares_at_yes` is the greatest TotalShares at any YES vote, or 0 without one. */
  ghost predicate MaximumOk(w: World, i: nat)
    requires i < |w.st.proposalQueue|
  {
    var top := w.st.proposalQueue[i].maxTotalSharesAtYes;
    && (forall k :: YesBallot(w, i, k) ==> w.log.ballots[k].totalShares <= top)
    && (top == 0 || exists k :: YesBallot(w, i, k) && w.log.ballots[k].totalShares == top)
  }

  ghost predicate BallotsOk(w: World) {
    && w.log.ballots.Keys == w.st.proposalVotes.Keys
    && forall i :: 0 <= i < |w.st.proposalQueue| ==> TallyOk(w, i) && MaximumOk(w, i)
  }

  lemma CastAfterVote(votes: map<VoteKey, u8>, ballots: map<VoteKey, Ballot>, key: VoteKey, unit: u8,
                      b: Ballot, j: nat, u: u8)
    requires key !in votes
    ensures SumMap(Cast(votes[key := unit], ballots[key := b], j, u))
            == SumMap(Cast(votes, ballots, j, u)) + if j == key.0 && u == unit then b.weight else 0
  {
    var before, after := Cast(votes, ballots, j, u), Cast(votes[key := unit], ballots[key := b], j, u);
    if j == key.0 && u == unit {
      SumMapUpdate(before, key, b.weight);
      assert after == before[key := b.weight];
    } else {
      assert after == before;
    }
  }

  /** One new ballot: an entry in the register, one in the log, and a tally. */
  ghost predicate Voted(w: World, w': World, key: VoteKey, unit: u8, b: Ballot) {
    && key !in w.st.proposalVotes && key.0 < |w.st.proposalQueue| && (unit == YES || unit == NO)
    && w'.st.proposalVotes == w.st.proposalVotes[key := unit] && w'.log.ballots == w.log.ballots[key := b]
    && w'.st.proposalQueue
       == w.st.proposalQueue[key.0 := Tallied(w.st.proposalQueue[key.0], unit, b.weight, b.totalShares)]
  }

  lemma VoteIsVoted(cfg: Config, w: World, who: AccountId, i: nat, unit: u8)
    requires i < U128_LIMIT && Possible(cfg, w.st, Dispatch(who, SubmitVote(i, unit)))
    requires SubmitVoteCheck(w.st, who, i, unit).Accept?
    ensures var voter := DelegateOf(w.st, who);
            Voted(w, Next(cfg, w, Dispatch(who, SubmitVote(i, unit))), (i, voter), unit,
                  Ballot(MemberOf(w.st.members, voter).shares, w.st.totalShares))
  {
  }

  lemma VoteKeepsTally(w: World, w': World, key: VoteKey, unit: u8, b: Ballot, j: nat)
    requires BallotsOk(w) && Voted(w, w', key, unit, b) && j < |w.st.proposalQueue|
    ensures TallyOk(w', j)
  {
    assert TallyOk(w, j);
    CastAfterVote(w.st.proposalVotes, w.log.ballots, key, unit, b, j, YES);
    CastAfterVote(w.st.proposalVotes, w.log.ballots, key, unit, b, j, NO);
  }

  lemma VoteKeepsMaximum(w: World, w': World, key: VoteKey, unit: u8, b: Ballot, j: nat)
    requires BallotsOk(w) && Voted(w, w', key, unit, b) && j < |w.st.proposalQueue|
    ensures MaximumOk(w', j)
  {
    assert MaximumOk(w, j);
    var top, top' := w.st.proposalQueue[j].maxTotalSharesAtYes, w'.st.proposalQueue[j].maxTotalSharesAtYes;
    assert forall k :: k != key ==> (YesBallot(w', j, k) <==> YesBallot(w, j, k));
    if top' != top {
      assert YesBallot(w', j, key) && w'.log.ballots[key].totalShares == top';
    } else if top != 0 {
      var k :| YesBallot(w, j, k) && w.log.ballots[k].totalShares == top;
      assert YesBallot(w', j, k) && w'.log.ballots[k].totalShares == top';
    }
  }

  lemma VoteKeepsBallots(w: World, w': World, key: VoteKey, unit: u8, b: Ballot)
    requires BallotsOk(w) && Voted(w, w', key, unit, b)
    ensures BallotsOk(w')
  {
    forall j | 0 <= j < |w'.st.proposalQueue|
      ensures TallyOk(w', j) && MaximumOk(w', j)
    {
      VoteKeepsTally(w, w', key, unit, b, j);
      VoteKeepsMaximum(w, w', key, unit, b, j);
    }
  }

  /** Without a vote, the tallies and maxima of the proposals that stay are the same sums. */
  lemma SameVotesKeepBallots(w: World, w': World)
    requires BallotsOk(w) && VotesInQueue(w.st)
    requires w'.st.proposalVotes == w.st.proposalVotes && w'.log.ballots == w.log.ballots
    requires |w.st.proposalQueue| <= |w'.st.proposalQueue|
    requires forall i :: 0 <= i < |w.st.proposalQueue| ==>
               var p, p' := w.st.proposalQueue[i], w'.st.proposalQueue[i];
               p'.yesVotes == p.yesVotes && p'.noVotes == p.noVotes && p'.maxTotalSharesAtYes == p.maxTotalSharesAtYes
    requires forall i :: |w.st.proposalQueue| <= i < |w'.st.proposalQueue| ==>
               var p' := w'.st.proposalQueue[i]; p'.yesVotes == p'.noVotes == p'.maxTotalSharesAtYes == 0
    ensures BallotsOk(w')
  {
    forall i | 0 <= i < |w'.st.proposalQueue|
      ensures TallyOk(w', i) && MaximumOk(w', i)
    {
      assert forall k :: YesBallot(w', i, k) <==> YesBallot(w, i, k);
      if i < |w.st.proposalQueue| {
        assert TallyOk(w, i) && MaximumOk(w, i);
      } else {
        assert Cast(w'.st.proposalVotes, w'.log.ballots, i, YES) == map[];
        assert Cast(w'.st.proposalVotes, w'.log.ballots, i, NO) == map[];
      }
    }
  }

  lemma StepKeepsBallots(cfg: Config, w: World, who: AccountId, c: Call)
    requires BallotsOk(w) && VotesInQueue(w.st)
    requires Possible(cfg, w.st, Dispatch(who, c)) && Check(cfg, w.st, who, c).Accept?
    ensures BallotsOk(Next(cfg, w, Dispatch(who, c)))
  {
    var w' := Next(cfg, w, Dispatch(who, c));
    if c.SubmitVote? {
      var voter := DelegateOf(w.st, who);
      VoteIsVoted(cfg, w, who, c.votedIndex, c.voteUnit);
      VoteKeepsBallots(w, w', (c.votedIndex, voter), c.voteUnit,
                       Ballot(MemberOf(w.st.members, voter).shares, w.st.totalShares));
    } else {
      SameVotesKeepBallots(w, w');
    }
  }

  // ----- dilution -----

  /** Exactly the passed proposals were minted, each with a guild not diluted beyond the bound
      since any of the YES votes on it. */
  ghost predicate DilutionOk(w: World) {
    && (forall i: nat :: i in w.log.mintedOver <==> HasPassed(w.st, i))
    && forall i: nat :: i in w.log.mintedOver ==> WithinBound(w, i)
  }

  predicate HasPassed(s: Storage, i: nat) {
    i < |s.proposalQueue| && s.proposalQueue[i].didPass
  }

  ghost predicate WithinBound(w: World, i: nat) {
    i in w.log.mintedOver &&
    forall k :: YesBallot(w, i, k) ==> w.log.ballots[k].totalShares <= w.log.mintedOver[i] * w.st.rules.dilutionBound
  }

  /** The test before minting is exact: it fails if and only if some YES vote was cast in a guild
      more than `dilution_bound` times the present one. */
  lemma DilutionTestIsExact(w: World, i: nat)
    requires i < |w.st.proposalQueue| && MaximumOk(w, i)
    ensures DilutionExceeded(w.st, w.st.proposalQueue[i]) <==>
            exists k :: YesBallot(w, i, k) && w.log.ballots[k].totalShares > w.st.totalShares * w.st.rules.dilutionBound
  {
    var limit := w.st.totalShares * w.st.rules.dilutionBound;
    if DilutionExceeded(w.st, w.st.proposalQueue[i]) {
      assert limit >= 0;
      var k :| YesBallot(w, i, k) && w.log.ballots[k].totalShares == w.st.proposalQueue[i].maxTotalSharesAtYes;
    }
  }

  /** Nothing that leaves the votes on the passed proposals alone touches their bounds. */
  lemma SamePassedKeepDilution(w: World, w': World)
    requires DilutionOk(w)
    requires w'.log.mintedOver == w.log.mintedOver && w'.st.rules == w.st.rules
    requires forall i: nat :: HasPassed(w'.st, i) <==> HasPassed(w.st, i)
    requires forall i: nat, k :: HasPassed(w.st, i) && YesBallot(w', i, k) ==>
               YesBallot(w, i, k) && w'.log.ballots[k] == w.log.ballots[k]
    ensures DilutionOk(w')
  {
    forall i: nat | i in w'.log.mintedOver
      ensures WithinBound(w', i)
    {
      assert WithinBound(w, i) && HasPassed(w.st, i);
    }
  }

  /** One proposal is decided, and minted if it passes the test. */
  lemma DecisionKeepsDilution(w: World, w': World, i: nat, pass: bool)
    requires DilutionOk(w) && i < |w.st.proposalQueue| && !HasPassed(w.st, i) && MaximumOk(w, i)
    requires pass ==> !DilutionExceeded(w.st, w.st.proposalQueue[i])
    requires w'.st.rules == w.st.rules && w'.st.proposalVotes == w.st.proposalVotes && w'.log.ballots == w.log.ballots
    requires w'.st.proposalQueue == w.st.proposalQueue[i := w.st.proposalQueue[i].(processed := true, didPass := pass)]
    requires w'.log.mintedOver == if pass then w.log.mintedOver[i := w.st.totalShares] else w.log.mintedOver
    ensures DilutionOk(w')
  {
    assert forall j: nat :: j != i ==> (HasPassed(w'.st, j) <==> HasPassed(w.st, j));
    forall j: nat | j in w'.log.mintedOver
      ensures WithinBound(w', j)
    {
      assert forall k :: YesBallot(w', j, k) <==> YesBallot(w, j, k);
      if j != i {
        assert WithinBound(w, j);
      }
    }
  }

  lemma ProcessKeepsDilution(cfg: Config, w: World, who: AccountId, i: nat)
    requires i < U128_LIMIT && Possible(cfg, w.st, Dispatch(who, ProcessProposal(i)))
    requires DilutionOk(w) && BallotsOk(w) && QueueOk(cfg, w)
    requires ProcessProposalCheck(cfg, w.st, i).Accept?
    ensures DilutionOk(Next(cfg, w, Dispatch(who, ProcessProposal(i))))
  {
    assert ProposalOk(w.st, w.st.proposalQueue[i]) && MaximumOk(w, i);
    DecisionKeepsDilution(w, Next(cfg, w, Dispatch(who, ProcessProposal(i))), i, Passes(cfg, w.st, w.st.proposalQueue[i]));
  }

  lemma VoteKeepsDilution(cfg: Config, w: World, who: AccountId, i: nat, unit: u8)
    requires i < U128_LIMIT && Possible(cfg, w.st, Dispatch(who, SubmitVote(i, unit)))
    requires DilutionOk(w) && QueueOk(cfg, w) && SubmitVoteCheck(w.st, who, i, unit).Accept?
    ensures DilutionOk(Next(cfg, w, Dispatch(who, SubmitVote(i, unit))))
  {
    var w' := Next(cfg, w, Dispatch(who, SubmitVote(i, unit)));
    VoteHitsUnprocessed(cfg, w, who, i, unit);
    assert ProposalOk(w.st, w.st.proposalQueue[i]);
    SamePassedKeepDilution(w, w');
  }

  lemma StepKeepsDilution(cfg: Config, w: World, who: AccountId, c: Call)
    requires DilutionOk(w) && BallotsOk(w) && QueueOk(cfg, w) && !c.Summon?
    requires Possible(cfg, w.st, Dispatch(who, c)) && Check(cfg, w.st, who, c).Accept?
    ensures DilutionOk(Next(cfg, w, Dispatch(who, c)))
  {
    if c.SubmitVote? {
      VoteKeepsDilution(cfg, w, who, c.votedIndex, c.voteUnit);
    } else if c.ProcessProposal? {
      ProcessKeepsDilution(cfg, w, who, c.processedIndex);
    } else {
      SamePassedKeepDilution(w, Next(cfg, w, Dispatch(who, c)));
    }
  }
}
