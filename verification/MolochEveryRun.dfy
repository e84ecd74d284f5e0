/**
 What holds on every run whatever, repeated summonings included: the ballots behind the tallies, the order of
 the queue, and what is requested. A summoning touches neither the queue nor the votes.
 */
module MolochEveryRun {
  import opened Prelude
  import opened Currency
  import opened Moloch
  import opened MolochRuns
  import opened MolochShares
  import opened MolochSchedule
  import opened MolochVoting

  ghost predicate VotesAccounted(w: World) {
    VotesInQueue(w.st) && BallotsOk(w)
  }

  lemma StepKeepsVotesInQueue(cfg: Config, s: Storage, who: AccountId, c: Call)
    requires VotesInQueue(s)
    ensures VotesInQueue(Step(cfg, s, who, c))
  {
  }

  lemma {:induction false} RunsKeepVotes(cfg: Config, balances: Ledger, events: seq<Event>)
    ensures VotesAccounted(Run(cfg, balances, events))
  {
    if events != [] {
      var prefix, e := events[..|events| - 1], events[|events| - 1];
      var w := Run(cfg, balances, prefix);
      RunsKeepVotes(cfg, balances, prefix);
      if e.Dispatch? && Possible(cfg, w.st, e) && Check(cfg, w.st, e.who, e.call).Accept? {
        StepKeepsVotesInQueue(cfg, w.st, e.who, e.call);
        StepKeepsBallots(cfg, w, e.who, e.call);
      } else {
        SameVotesKeepBallots(w, Next(cfg, w, e));
      }
    }
  }

  // ----- the queue -----

  ghost predicate Ordered(w: World) {
    && OrderOk(w)
    && Increasing(w.st.proposalQueue)
    && (forall i: nat :: i < |w.st.proposalQueue| ==> 1 <= w.st.proposalQueue[i].startingPeriod)
    && PassedAreProcessed(w.st.proposalQueue)
    && w.st.totalSharesRequested == Pending(w.st.proposalQueue)
  }

  ghost predicate PassedAreProcessed(q: seq<Proposal>) {
    forall i :: 0 <= i < |q| && q[i].didPass ==> q[i].processed
  }

  lemma OverwriteKeepsOrder(w: World, w': World, i: nat, p: Proposal)
    requires Ordered(w) && i < |w.st.proposalQueue| && w'.st.proposalQueue == w.st.proposalQueue[i := p]
    requires p.startingPeriod == w.st.proposalQueue[i].startingPeriod && (p.didPass ==> p.processed)
    requires p.sharesRequested == w.st.proposalQueue[i].sharesRequested
    requires (w'.log.processed == w.log.processed && p.processed == w.st.proposalQueue[i].processed
              && w'.st.totalSharesRequested == w.st.totalSharesRequested)
             || (w'.log.processed == w.log.processed + [i] && i == |w.log.processed| && p.processed
                 && w'.st.totalSharesRequested == w.st.totalSharesRequested - p.sharesRequested)
    ensures Ordered(w')
  {
    QueueUpdate(w.st.proposalQueue, i, p);
  }

  lemma AppendKeepsOrder(w: World, w': World, p: Proposal)
    requires Ordered(w) && w'.st.proposalQueue == w.st.proposalQueue + [p] && w'.log.processed == w.log.processed
    requires LastStart(w.st.proposalQueue) < p.startingPeriod && !p.processed && !p.didPass
    requires w'.st.totalSharesRequested == w.st.totalSharesRequested + p.sharesRequested
    ensures Ordered(w')
  {
    QueueAppend(w.st.proposalQueue, p);
  }

  lemma StepKeepsOrder(cfg: Config, w: World, who: AccountId, c: Call)
    requires Ordered(w) && Possible(cfg, w.st, Dispatch(who, c)) && Check(cfg, w.st, who, c).Accept?
    ensures Ordered(Next(cfg, w, Dispatch(who, c)))
  {
    var w' := Next(cfg, w, Dispatch(who, c));
    if c.SubmitProposal? {
      AppendKeepsOrder(w, w', NewProposal(w.st, who, c.applicant, c.tokenTribute, c.sharesRequested, c.details));
    } else if c.SubmitVote? {
      OverwriteKeepsOrder(w, w', c.votedIndex, w'.st.proposalQueue[c.votedIndex]);
    } else if c.ProcessProposal? {
      ProcessHitsFirst(w, c.processedIndex);
      OverwriteKeepsOrder(w, w', c.processedIndex, w'.st.proposalQueue[c.processedIndex]);
    } else if c.Abort? {
      OverwriteKeepsOrder(w, w', c.abortedIndex, w'.st.proposalQueue[c.abortedIndex]);
    }
  }

  lemma {:induction false} RunsKeepOrder(cfg: Config, balances: Ledger, events: seq<Event>)
    ensures Ordered(Run(cfg, balances, events))
  {
    if events != [] {
      var prefix, e := events[..|events| - 1], events[|events| - 1];
      var w := Run(cfg, balances, prefix);
      RunsKeepOrder(cfg, balances, prefix);
      if e.Dispatch? && Possible(cfg, w.st, e) && Check(cfg, w.st, e.who, e.call).Accept? {
        StepKeepsOrder(cfg, w, e.who, e.call);
      }
    }
  }

  // ----- the total of shares -----

  /** The shares that the last summoning left with others than its signer, without counting them. */
  ghost function Uncounted(cfg: Config, balances: Ledger, events: seq<Event>): int {
    if events == [] then 0
    else
      var prefix, e := events[..|events| - 1], events[|events| - 1];
      var s := Run(cfg, balances, prefix).st;
      if e.Dispatch? && Possible(cfg, s, e) && Check(cfg, s, e.who, e.call).Accept? && e.call.Summon?
      then SumShares(s.members) - MemberOf(s.members, e.who).shares
      else Uncounted(cfg, balances, prefix)
  }

  lemma StepKeepsGap(cfg: Config, s: Storage, who: AccountId, c: Call)
    requires Check(cfg, s, who, c).Accept?
    ensures var s' := Effect(cfg, s, who, c);
            SumShares(s'.members) - s'.totalShares
            == if c.Summon? then SumShares(s.members) - MemberOf(s.members, who).shares
               else SumShares(s.members) - s.totalShares
  {
    if c.Summon? {
      SharesUpdate(s.members, who, Member(1, 0, true, who));
    } else if c.SubmitVote? {
      var voter := DelegateOf(s, who);
      SharesUpdate(s.members, voter, s.members[voter].(highestIndexYesVote := c.votedIndex));
    } else if c.ProcessProposal? {
      var p := s.proposalQueue[c.processedIndex];
      MintAddsShares(s.members, s.addressOfDelegates, p.applicant, p.sharesRequested);
    } else if c.Ragequit? {
      SharesUpdate(s.members, who, s.members[who].(shares := s.members[who].shares - c.sharesToBurn));
    }
  }

  lemma {:induction false} RunsKeepGap(cfg: Config, balances: Ledger, events: seq<Event>)
    ensures var s := Run(cfg, balances, events).st;
            SumShares(s.members) == s.totalShares + Uncounted(cfg, balances, events)
  {
    if events != [] {
      var prefix, e := events[..|events| - 1], events[|events| - 1];
      var s := Run(cfg, balances, prefix).st;
      RunsKeepGap(cfg, balances, prefix);
      if e.Dispatch? && Possible(cfg, s, e) && Check(cfg, s, e.who, e.call).Accept? {
        StepKeepsGap(cfg, s, e.who, e.call);
      }
    }
  }
}
