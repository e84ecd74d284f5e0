/**
 The guarantees of the guild, over whole runs: any events, any signers, and any summonings or, where a second
 summoning would break the guarantee, just one.
 */
module MolochTheorems {
  import opened Prelude
  import opened Currency
  import opened Moloch
  import opened MolochRuns
  import opened MolochShares
  import opened MolochSchedule
  import opened MolochVoting
  import opened MolochEveryRun
  import opened MolochInvariant
  import opened MolochEscrow

  /** A run in which the guild was summoned exactly once. */
  ghost predicate SingleSummon(cfg: Config, balances: Ledger, events: seq<Event>) {
    cfg.Valid() && Run(cfg, balances, events).log.summons == 1
  }

  // ----- shares -----

  /** The totals are the sums they stand for, shares appear only by minting and disappear only by
      burning, and what is issued and promised stays within the cap. */
  lemma ShareConservation(cfg: Config, balances: Ledger, events: seq<Event>)
    requires SingleSummon(cfg, balances, events)
    ensures var w := Run(cfg, balances, events);
            && w.st.totalShares == SumShares(w.st.members)
            && w.st.totalShares == 1 + Minted(w.st.proposalQueue) - w.log.burned
            && w.st.totalSharesRequested == Pending(w.st.proposalQueue)
            && w.st.totalShares + w.st.totalSharesRequested <= cfg.maxShares
  {
    RunsKeepInv(cfg, balances, events);
  }

  /** On any run the stored total is the sum over members if and only if nobody but its signer held shares at
      the last summoning; what is requested is always the sum over the unprocessed proposals. */
  lemma TotalIsSumIff(cfg: Config, balances: Ledger, events: seq<Event>)
    ensures var s := Run(cfg, balances, events).st;
            && (s.totalShares == SumShares(s.members) <==> Uncounted(cfg, balances, events) == 0)
            && s.totalSharesRequested == Pending(s.proposalQueue)
  {
    RunsKeepGap(cfg, balances, events);
    RunsKeepOrder(cfg, balances, events);
  }

  // ----- the timetable -----

  /** Starting periods strictly increase; the u proposals that have not started are the last u and
      occupy exactly the periods p+1 .. p+u; the next proposal gets p+u+1. */
  lemma GapFreeSchedule(cfg: Config, balances: Ledger, events: seq<Event>)
    requires SingleSummon(cfg, balances, events)
    ensures var s := Run(cfg, balances, events).st;
            var q, p := s.proposalQueue, Period(s);
            var u := Waiting(q, p);
            && Increasing(q) && u <= |q|
            && (forall i :: 0 <= i < |q| - u ==> q[i].startingPeriod <= p)
            && (forall i :: |q| - u <= i < |q| ==> q[i].startingPeriod == p + 1 + (i - (|q| - u)))
            && NextStart(s) == p + u + 1
  {
    RunsKeepInv(cfg, balances, events);
    var s := Run(cfg, balances, events).st;
    WaitingOccupyNextPeriods(s.proposalQueue, Period(s));
  }

  /** On any run, in any period at most `voting_period_length` proposals are open for voting. */
  lemma BoundedAgenda(cfg: Config, balances: Ledger, events: seq<Event>)
    ensures var s := Run(cfg, balances, events).st;
            Open(s.proposalQueue, Period(s), s.rules.votingPeriodLength) <= s.rules.votingPeriodLength
  {
    RunsKeepOrder(cfg, balances, events);
    var s := Run(cfg, balances, events).st;
    OpenAtMostVotingLength(s.proposalQueue, Period(s), s.rules.votingPeriodLength);
  }

  /** On any run, successful processing has visited the indices 0, 1, 2, .. in this order, each once. */
  lemma ProcessedInOrder(cfg: Config, balances: Ledger, events: seq<Event>)
    ensures var w := Run(cfg, balances, events);
            && (forall k :: 0 <= k < |w.log.processed| ==> w.log.processed[k] == k)
            && (forall i :: 0 <= i < |w.st.proposalQueue| ==>
                  (w.st.proposalQueue[i].processed <==> i < |w.log.processed|))
  {
    RunsKeepOrder(cfg, balances, events);
  }

  // ----- verdicts -----

  ghost predicate ProcessedAt(w: World, i: nat) {
    i < |w.st.proposalQueue| && w.st.proposalQueue[i].processed
  }

  lemma StepKeepsProcessed(cfg: Config, w: World, who: AccountId, c: Call, i: nat)
    requires Live(cfg, w) && ProcessedAt(w, i) && Check(cfg, w.st, who, c).Accept?
    ensures var s' := Effect(cfg, w.st, who, c);
            i < |s'.proposalQueue| && s'.proposalQueue[i] == w.st.proposalQueue[i]
  {
    if c.SubmitVote? {
      VoteHitsUnprocessed(cfg, w, who, c.votedIndex, c.voteUnit);
    } else if c.Abort? {
      AbortHitsUnprocessed(cfg, w, who, c.abortedIndex);
    }
  }

  lemma NextKeepsProcessed(cfg: Config, w: World, e: Event, i: nat)
    requires Live(cfg, w) && ProcessedAt(w, i)
    ensures i < |Next(cfg, w, e).st.proposalQueue| && Next(cfg, w, e).st.proposalQueue[i] == w.st.proposalQueue[i]
  {
    if e.Dispatch? && Check(cfg, w.st, e.who, e.call).Accept? {
      StepKeepsProcessed(cfg, w, e.who, e.call, i);
    }
  }

  /** Nothing that happens after a proposal was processed changes it: no late vote, no late abort,
      no second processing. */
  lemma {:induction false} VerdictsAreFinal(cfg: Config, balances: Ledger, events: seq<Event>, more: seq<Event>, i: nat)
    requires SingleSummon(cfg, balances, events) && SingleSummon(cfg, balances, events + more)
    requires ProcessedAt(Run(cfg, balances, events), i)
    ensures i < |Run(cfg, balances, events + more).st.proposalQueue|
    ensures Run(cfg, balances, events + more).st.proposalQueue[i] == Run(cfg, balances, events).st.proposalQueue[i]
    decreases |more|
  {
    if more == [] {
      assert events + more == events;
    } else {
      var prefix, e := more[..|more| - 1], more[|more| - 1];
      assert events + more == (events + prefix) + [e];
      RunSnoc(cfg, balances, events + prefix, e);
      var w := Run(cfg, balances, events + prefix);
      SummonsGrow(cfg, w, e);
      SummonsGrowAlong(cfg, balances, events, prefix);
      VerdictsAreFinal(cfg, balances, events, prefix, i);
      RunsKeepInv(cfg, balances, events + prefix);
      NextKeepsProcessed(cfg, w, e, i);
    }
  }

  lemma {:induction false} SummonsGrowAlong(cfg: Config, balances: Ledger, events: seq<Event>, more: seq<Event>)
    ensures Run(cfg, balances, events).log.summons <= Run(cfg, balances, events + more).log.summons
    decreases |more|
  {
    if more == [] {
      assert events + more == events;
    } else {
      var prefix, e := more[..|more| - 1], more[|more| - 1];
      assert events + more == (events + prefix) + [e];
      RunSnoc(cfg, balances, events + prefix, e);
      SummonsGrowAlong(cfg, balances, events, prefix);
      SummonsGrow(cfg, Run(cfg, balances, events + prefix), e);
    }
  }

  /** A passed proposal was processed after its voting and grace periods, was not aborted, and had
      more YES than NO shares. */
  lemma PassedMeansWon(cfg: Config, balances: Ledger, events: seq<Event>, i: nat)
    requires SingleSummon(cfg, balances, events)
    requires HasPassed(Run(cfg, balances, events).st, i)
    ensures var s := Run(cfg, balances, events).st;
            var p := s.proposalQueue[i];
            && p.processed && !p.aborted && p.yesVotes > p.noVotes
            && p.startingPeriod + s.rules.votingPeriodLength + s.rules.gracePeriodLength <= Period(s)
  {
    RunsKeepInv(cfg, balances, events);
    var s := Run(cfg, balances, events).st;
    assert ProposalOk(s, s.proposalQueue[i]);
  }

  // ----- votes -----

  /** On any run, each tally is the sum, over the members recorded with that vote, of the shares they held when
      they voted; the register has one entry per proposal and member, whatever key signed. */
  lemma TalliesAreVoteSums(cfg: Config, balances: Ledger, events: seq<Event>, i: nat)
    requires i < |Run(cfg, balances, events).st.proposalQueue|
    ensures var w := Run(cfg, balances, events);
            && w.st.proposalQueue[i].yesVotes == Tally(w, i, YES)
            && w.st.proposalQueue[i].noVotes == Tally(w, i, NO)
            && w.log.ballots.Keys == w.st.proposalVotes.Keys
  {
    RunsKeepVotes(cfg, balances, events);
    assert TallyOk(Run(cfg, balances, events), i);
  }

  /** The conditions of a pass, from the votes cast and the tribute in custody. */
  ghost predicate WonByVotes(cfg: Config, w: World, i: nat)
    requires i < |w.st.proposalQueue|
  {
    var p := w.st.proposalQueue[i];
    && Tally(w, i, YES) > Tally(w, i, NO)
    && !(exists k :: YesBallot(w, i, k) && w.log.ballots[k].totalShares > w.st.totalShares * w.st.rules.dilutionBound)
    && p.applicant in w.st.applicantCustody && p.tokenTribute <= Free(w.st.balances, cfg.custodyAccount)
    && !p.aborted
  }

  /** On any run, processing lets a proposal pass if and only if the shares behind its YES votes outweigh those behind
      its NO votes, none of its YES votes was cast in a guild more than `dilution_bound` times the present
      one, its tribute is in custody, and it was not aborted. */
  lemma VerdictByVotes(cfg: Config, balances: Ledger, events: seq<Event>, i: nat)
    requires i < |Run(cfg, balances, events).st.proposalQueue|
    ensures Passes(cfg, Run(cfg, balances, events).st, Run(cfg, balances, events).st.proposalQueue[i])
            <==> WonByVotes(cfg, Run(cfg, balances, events), i)
  {
    RunsKeepVotes(cfg, balances, events);
    var w := Run(cfg, balances, events);
    assert TallyOk(w, i) && MaximumOk(w, i);
    DilutionTestIsExact(w, i);
  }

  /** No YES vote on a passed proposal was cast in a guild more than `dilution_bound` times as large
      as the guild its shares were minted in. */
  lemma DilutionGuarantee(cfg: Config, balances: Ledger, events: seq<Event>, i: nat, k: VoteKey)
    requires SingleSummon(cfg, balances, events)
    requires HasPassed(Run(cfg, balances, events).st, i)
    requires YesBallot(Run(cfg, balances, events), i, k)
    ensures var w := Run(cfg, balances, events);
            && i in w.log.mintedOver
            && w.log.ballots[k].totalShares <= w.st.rules.dilutionBound * w.log.mintedOver[i]
  {
    RunsKeepInv(cfg, balances, events);
    var w := Run(cfg, balances, events);
    assert WithinBound(w, i);
  }

  // ----- ragequit -----

  /** A ragequit goes through if and only if the signer is a member with that many shares, nothing the
      member ever voted YES on is unprocessed, proposal 0 is processed, some shares exist, and the
      bank's balance times the burned shares fits its type. */
  lemma RagequitLock(cfg: Config, balances: Ledger, events: seq<Event>, who: AccountId, burn: u128)
    requires SingleSummon(cfg, balances, events)
    ensures var s := Run(cfg, balances, events).st;
            RagequitCheck(cfg, s, who, burn).Accept? <==>
              && who in s.members && burn <= s.members[who].shares
              && NothingAtStake(s, who)
              && s.totalShares > 0 && Fits(Free(s.balances, cfg.guildBank) * burn)
  {
    RunsKeepInv(cfg, balances, events);
    var w := Run(cfg, balances, events);
    if who in w.st.members {
      LockIsExact(w, who);
      SharesAtMostTotal(w.st.members, who);
    }
  }

  // ----- custody and progress -----

  /** The custody account can always return every deposit on record and still exist; every live
      proposal's tribute is on record, at most one per applicant; nothing fails for want of custody. */
  lemma CustodyIsSolvent(cfg: Config, balances: Ledger, events: seq<Event>)
    requires SingleSummon(cfg, balances, events) && Disciplined(cfg, balances, events)
    ensures var s := Run(cfg, balances, events).st;
            && cfg.existentialDeposit + SumRecords(s.applicantCustody) <= Free(s.balances, cfg.custodyAccount)
            && forall i :: 0 <= i < |s.proposalQueue| && IsLive(s.proposalQueue[i]) ==>
                 TributeOnRecord(s, s.proposalQueue[i]) && !CustodyOutage(cfg, s, s.proposalQueue[i])
  {
    RunsKeepInv(cfg, balances, events);
    RunsKeepEscrow(cfg, balances, events);
    var w := Run(cfg, balances, events);
    forall i | 0 <= i < |w.st.proposalQueue| && IsLive(w.st.proposalQueue[i])
      ensures TributeOnRecord(w.st, w.st.proposalQueue[i]) && !CustodyOutage(cfg, w.st, w.st.proposalQueue[i])
    {
      EscrowCoversTribute(cfg, w, i);
    }
  }

  /** Processing succeeds if and only if the proposal is the first unprocessed one, its voting and
      grace periods are over, and the applicant's custody record covers its tribute. */
  lemma ProcessingSucceedsIff(cfg: Config, balances: Ledger, events: seq<Event>, i: nat)
    requires SingleSummon(cfg, balances, events)
    ensures var w := Run(cfg, balances, events);
            ProcessProposalCheck(cfg, w.st, i).Accept? <==>
              && i == |w.log.processed| && i < |w.st.proposalQueue|
              && PastGrace(w.st, i)
              && w.st.proposalQueue[i].tokenTribute <= RecordOf(w.st, w.st.proposalQueue[i].applicant)
  {
    RunsKeepInv(cfg, balances, events);
    var w := Run(cfg, balances, events);
    if ProcessGuards(w.st, i).Accept? {
      ProcessPanicsExactlyOnMissingRecord(cfg, w, i);
    }
  }

  predicate PastGrace(s: Storage, i: nat) {
    i < |s.proposalQueue|
    && s.rules.votingPeriodLength + s.rules.gracePeriodLength + s.proposalQueue[i].startingPeriod <= Period(s)
  }

  /** The first unprocessed proposal is k, and proposal j is past its grace period. */
  ghost predicate FirstDue(cfg: Config, w: World, k: nat, j: nat) {
    Live(cfg, w) && |w.log.processed| == k && PastGrace(w.st, j)
  }

  /** Everything that lets processing go on: the run so far, with k proposals processed, and proposal j
      past its grace period. */
  ghost predicate Ready(cfg: Config, balances: Ledger, events: seq<Event>, k: nat, j: nat) {
    && SingleSummon(cfg, balances, events) && Disciplined(cfg, balances, events)
    && |Run(cfg, balances, events).log.processed| == k && PastGrace(Run(cfg, balances, events).st, j)
  }

  // ----- currency -----

  /** What the custody account loses as dust: it is the only account that a call may let die. */
  function DustOf(cfg: Config, s: Storage, who: AccountId, c: Call): nat {
    if !Check(cfg, s, who, c).Accept? then 0
    else if c.ProcessProposal? then
      var p := s.proposalQueue[c.processedIndex];
      Dust(cfg.existentialDeposit, s.balances, cfg.custodyAccount, if Passes(cfg, s, p) then cfg.guildBank else p.applicant,
           p.tokenTribute, AllowDeath)
    else if c.Abort? then
      var p := s.proposalQueue[c.abortedIndex];
      Dust(cfg.existentialDeposit, s.balances, cfg.custodyAccount, p.applicant, p.tokenTribute, AllowDeath)
    else 0
  }

  lemma ProcessConservesCurrency(cfg: Config, s: Storage, who: AccountId, i: u128)
    requires Check(cfg, s, who, ProcessProposal(i)).Accept?
    ensures TotalIssuance(Effect(cfg, s, who, ProcessProposal(i)).balances)
            == TotalIssuance(s.balances) - DustOf(cfg, s, who, ProcessProposal(i))
  {
    var ed, bank, box := cfg.existentialDeposit, cfg.guildBank, cfg.custodyAccount;
    var p, reward := s.proposalQueue[i], s.rules.processingReward;
    var pass := Passes(cfg, s, p);
    var l1 := LedgerAfterTribute(cfg, s.balances, p.applicant, p.tokenTribute, pass);
    TransferConservesIssuance(ed, s.balances, box, if pass then bank else p.applicant, p.tokenTribute, AllowDeath);
    TransferConservesIssuance(ed, l1, bank, who, reward, KeepAlive);
    TransferConservesIssuance(ed, Transfer(ed, l1, bank, who, reward, KeepAlive), bank, p.proposer,
                              s.rules.proposalDeposit - reward, KeepAlive);
  }

  /** The pallet creates no currency, and destroys none but the dust. */
  lemma DispatchConservesCurrency(cfg: Config, s: Storage, who: AccountId, c: Call)
    ensures TotalIssuance(Step(cfg, s, who, c).balances) == TotalIssuance(s.balances) - DustOf(cfg, s, who, c)
  {
    if Check(cfg, s, who, c).Accept? {
      var ed, bank, box := cfg.existentialDeposit, cfg.guildBank, cfg.custodyAccount;
      match c
      case Custody(tribute) => TransferConservesIssuance(ed, s.balances, who, box, tribute, KeepAlive);
      case SubmitProposal(_, _, _, _) =>
        TransferConservesIssuance(ed, s.balances, who, bank, s.rules.proposalDeposit, KeepAlive);
      case ProcessProposal(i) =>
        ProcessConservesCurrency(cfg, s, who, i);
      case Ragequit(burn) =>
        TransferConservesIssuance(ed, s.balances, bank, who,
                                  Payout(Free(s.balances, bank), s.totalShares, burn), KeepAlive);
      case Abort(i) =>
        var p := s.proposalQueue[i];
        TransferConservesIssuance(ed, s.balances, box, p.applicant, p.tokenTribute, AllowDeath);
      case _ =>
    }
  }

  lemma EscrowLeavesNoDust(cfg: Config, w: World, who: AccountId, c: Call)
    requires EscrowOk(cfg, w.st) && QueueOk(cfg, w)
    ensures DustOf(cfg, w.st, who, c) == 0
  {
    if Check(cfg, w.st, who, c).Accept? {
      if c.ProcessProposal? {
        EscrowLeavesDeposit(cfg, w, c.processedIndex);
      } else if c.Abort? {
        AbortHitsUnprocessed(cfg, w, who, c.abortedIndex);
        EscrowLeavesDeposit(cfg, w, c.abortedIndex);
      }
    }
  }

  /** On disciplined runs there is no dust, and every dispatch conserves the currency exactly. */
  lemma DisciplinedRunsLeaveNoDust(cfg: Config, balances: Ledger, events: seq<Event>, who: AccountId, c: Call)
    requires SingleSummon(cfg, balances, events) && Disciplined(cfg, balances, events)
    ensures var s := Run(cfg, balances, events).st;
            TotalIssuance(Step(cfg, s, who, c).balances) == TotalIssuance(s.balances)
  {
    RunsKeepInv(cfg, balances, events);
    RunsKeepEscrow(cfg, balances, events);
    EscrowLeavesNoDust(cfg, Run(cfg, balances, events), who, c);
    DispatchConservesCurrency(cfg, Run(cfg, balances, events).st, who, c);
  }
}
