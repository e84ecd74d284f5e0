/**
 The Moloch V1 pallet in the form in which it runs: storage items that the dispatchables
 overwrite one after the other. Each dispatchable is proved against its specification in
 module Moloch: it returns exactly the verdict of the specification, it leaves exactly the
 specified storage when it succeeds, and it has written nothing when it returns an error.
 After a panic the storage is whatever the writes so far made it; `Dispatch` is the host that
 throws those writes away. Lines in comments are those of pallets/moloch-v1/src/lib.rs.
 */
module MolochPallet {
  import opened Prelude
  import opened Currency
  import opened Moloch

  class MolochV1 {
    const cfg: Config
    var rules: Rules
    var totalShares: nat
    var totalSharesRequested: nat
    var members: map<AccountId, Member>
    var addressOfDelegates: map<AccountId, AccountId>
    var proposalQueue: seq<Proposal>
    var proposalVotes: map<VoteKey, u8>
    var applicantCustody: map<AccountId, nat>
    var now: nat
    var balances: Ledger

    /** The storage items as one value. */
    function Store(): Storage
      reads this
    {
      Storage(rules, totalShares, totalSharesRequested, members, addressOfDelegates, proposalQueue, proposalVotes,
              applicantCustody, now, balances)
    }

    constructor (cfg: Config, s: Storage)
      ensures this.cfg == cfg && Store() == s
    {
      this.cfg := cfg;
      rules, totalShares, totalSharesRequested := s.rules, s.totalShares, s.totalSharesRequested;
      members, addressOfDelegates, proposalQueue := s.members, s.addressOfDelegates, s.proposalQueue;
      proposalVotes, applicantCustody, now, balances := s.proposalVotes, s.applicantCustody, s.now, s.balances;
    }

    /** The host discarding every write since `s` was current. */
    method Restore(s: Storage)
      modifies this
      ensures Store() == s
    {
      rules, totalShares, totalSharesRequested := s.rules, s.totalShares, s.totalSharesRequested;
      members, addressOfDelegates, proposalQueue := s.members, s.addressOfDelegates, s.proposalQueue;
      proposalVotes, applicantCustody, now, balances := s.proposalVotes, s.applicantCustody, s.now, s.balances;
    }

    /** The period the clock is in, or nothing when the computation panics. */
    method GetCurrentPeriod() returns (ok: bool, period: nat)
      ensures ok == HasPeriod(Store())
      ensures ok ==> period == Period(Store())
    {
      if now < rules.summonTime || rules.periodDuration == 0 {
        return false, 0;
      }
      return true, (now - rules.summonTime) / 1000 / rules.periodDuration;
    }

    method Summon(who: AccountId, c: Call) returns (v: Verdict<Error>)
      requires c.Summon?
      modifies this
      ensures v == SummonCheck(cfg, c)
      ensures v.Accept? ==> Store() == SummonEffect(old(Store()), who, c)
      ensures v.Reject? ==> Store() == old(Store())
    {
      if c.votingPeriodLength > cfg.maxVotingPeriodLength { return Reject(VotingPeriodLengthTooBig); }
      if c.gracePeriodLength > cfg.maxGracePeriodLength { return Reject(GracePeriodLengthTooBig); }
      if c.dilutionBound > cfg.maxDilutionBound { return Reject(DilutionBoundTooBig); }
      if c.abortWindow > c.votingPeriodLength { return Reject(AbortWindowTooBig); }
      if c.proposalDeposit < c.processingReward { return Reject(NoEnoughProposalDeposit); }
      rules := Rules(now, c.periodDuration, c.votingPeriodLength, c.gracePeriodLength, c.abortWindow, c.dilutionBound,
                     c.proposalDeposit, c.processingReward);
      members := members[who := Member(1, 0, true, who)];
      addressOfDelegates := addressOfDelegates[who := who];
      totalShares := 1;
      return Accept;
    }

    method Custody(who: AccountId, tribute: u128) returns (v: Verdict<Error>)
      modifies this`balances, this`applicantCustody
      ensures v == Accept && Store() == CustodyEffect(cfg, old(Store()), who, tribute)
    {
      balances := Transfer(cfg.existentialDeposit, balances, who, cfg.custodyAccount, tribute, KeepAlive);
      applicantCustody := applicantCustody[who := tribute];
      return Accept;
    }

    method SubmitProposal(who: AccountId, applicant: AccountId, tribute: u128, shares: u128, details: seq<u8>)
      returns (v: Verdict<Error>)
      modifies this`totalSharesRequested, this`balances, this`proposalQueue
      ensures v == SubmitProposalCheck(cfg, old(Store()), who, applicant, tribute, shares)
      ensures v.Accept? ==> Store() == SubmitProposalEffect(cfg, old(Store()), who, applicant, tribute, shares, details)
      ensures v.Reject? ==> Store() == old(Store())
    {
      if who !in addressOfDelegates { return Reject(NotMember); }
      var delegate := addressOfDelegates[who];
      if MemberOf(members, delegate).shares == 0 { return Reject(NoEnoughShares); }
      var totalRequested := totalSharesRequested + shares;
      if !Fits(totalRequested) { return Trap; }
      var futureShares := totalShares + totalRequested;
      if !Fits(futureShares) { return Trap; }
      if futureShares > cfg.maxShares { return Reject(SharesOverFlow); }
      var custodyBalance := Free(balances, cfg.custodyAccount);
      if applicant !in applicantCustody || custodyBalance < tribute { return Reject(NoCustodyFound); }
      totalSharesRequested := totalRequested;
      balances := Transfer(cfg.existentialDeposit, balances, who, cfg.guildBank, rules.proposalDeposit, KeepAlive);
      var ok, startingPeriod := NextStartingPeriod();
      if !ok { return Trap; }
      var proposal := Proposal(delegate, applicant, shares, startingPeriod, 0, 0, false, false, false, tribute,
                               details, 0);
      proposalQueue := proposalQueue + [proposal];
      return Accept;
    }

    /** Lines 296-301: the period after the last proposal's, or after the current one if that is later. */
    method NextStartingPeriod() returns (ok: bool, start: nat)
      ensures ok == (HasPeriod(Store()) && Fits(NextStart(Store())))
      ensures ok ==> start == NextStart(Store())
    {
      var proposalPeriod := if |proposalQueue| == 0 then 0 else proposalQueue[|proposalQueue| - 1].startingPeriod;
      var known, period := GetCurrentPeriod();
      start := (if proposalPeriod < period then period else proposalPeriod) + 1;
      ok := known && Fits(start);
    }

    method SubmitVote(who: AccountId, i: u128, unit: u8) returns (v: Verdict<Error>)
      modifies this`proposalVotes, this`members, this`proposalQueue
      ensures v == SubmitVoteCheck(old(Store()), who, i, unit)
      ensures v.Accept? ==> Store() == SubmitVoteEffect(old(Store()), who, i, unit)
      ensures v.Reject? ==> Store() == old(Store())
    {
      if who !in addressOfDelegates { return Reject(NotMember); }
      var delegate := addressOfDelegates[who];
      var member := MemberOf(members, delegate);
      if member.shares == 0 { return Reject(NoEnoughShares); }
      if i >= |proposalQueue| { return Reject(ProposalNotExist); }
      var proposal := proposalQueue[i];
      if !(unit < 3 && unit > 0) { return Reject(InvalidVote); }
      var ok, period := GetCurrentPeriod();
      if !ok { return Trap; }
      if period < proposal.startingPeriod { return Reject(ProposalNotStart); }
      if !Fits(rules.votingPeriodLength + proposal.startingPeriod) { return Trap; }
      if period >= rules.votingPeriodLength + proposal.startingPeriod { return Reject(ProposalExpired); }
      if (i, delegate) in proposalVotes { return Reject(MemberHasVoted); }
      if proposal.aborted { return Reject(ProposalHasAborted); }
      proposalVotes := proposalVotes[(i, delegate) := unit];
      if unit == YES {
        if !Fits(proposal.yesVotes + member.shares) { return Trap; }
        proposal := proposal.(yesVotes := proposal.yesVotes + member.shares);
        if i > member.highestIndexYesVote {
          members := members[delegate := members[delegate].(highestIndexYesVote := i)];
        }
        if totalShares > proposal.maxTotalSharesAtYes {
          proposal := proposal.(maxTotalSharesAtYes := totalShares);
        }
      } else {
        if !Fits(proposal.noVotes + member.shares) { return Trap; }
        proposal := proposal.(noVotes := proposal.noVotes + member.shares);
      }
      proposalQueue := proposalQueue[i := proposal];
      return Accept;
    }

    /** Lines 411-433: enter the shares of a passed proposal. */
    method EnterMember(p: Proposal) returns (ok: bool)
      modifies this`members, this`addressOfDelegates
      ensures ok <==> !(p.applicant in old(members) && !Fits(old(members)[p.applicant].shares + p.sharesRequested))
      ensures ok ==> members == MembersAfterPass(old(members), old(addressOfDelegates), p.applicant, p.sharesRequested)
      ensures ok ==> addressOfDelegates == DelegatesAfterPass(old(members), old(addressOfDelegates), p.applicant)
    {
      if p.applicant in members {
        var mem := members[p.applicant];
        if !Fits(mem.shares + p.sharesRequested) { return false; }
        members := members[p.applicant := mem.(shares := mem.shares + p.sharesRequested)];
      } else {
        if p.applicant in addressOfDelegates {
          var delegate := addressOfDelegates[p.applicant];
          members := members[delegate := MemberOf(members, delegate).(delegateKey := delegate)];
          addressOfDelegates := addressOfDelegates[delegate := delegate];
        }
        members := members[p.applicant := Member(p.sharesRequested, 0, true, p.applicant)];
        addressOfDelegates := addressOfDelegates[p.applicant := p.applicant];
      }
      return true;
    }

    /** Lines 388-407: release the requested shares and reach the verdict. */
    method Judge(p: Proposal) returns (ok: bool, didPass: bool)
      modifies this`totalSharesRequested
      ensures ok ==> p.sharesRequested <= old(totalSharesRequested) && Fits(totalShares * rules.dilutionBound)
      ensures !ok ==> ProcessPanics(cfg, old(Store()), p)
      ensures ok ==> totalSharesRequested == old(totalSharesRequested) - p.sharesRequested
      ensures ok ==> didPass == Passes(cfg, old(Store()), p)
    {
      if totalSharesRequested < p.sharesRequested { return false, false; }
      totalSharesRequested := totalSharesRequested - p.sharesRequested;
      didPass := p.yesVotes > p.noVotes;
      var bound := totalShares * rules.dilutionBound;
      if !Fits(bound) { return false, false; }
      if bound < p.maxTotalSharesAtYes { didPass := false; }
      if p.applicant !in applicantCustody || Free(balances, cfg.custodyAccount) < p.tokenTribute {
        didPass := false;
      }
      return true, didPass && !p.aborted;
    }

    /** Lines 407-449: mint and collect the tribute, or send it back. */
    method Settle(p: Proposal, pass: bool) returns (ok: bool)
      modifies this`members, this`addressOfDelegates, this`totalShares, this`balances, this`applicantCustody
      ensures ok == (!(pass && MintOverflows(old(members), old(totalShares), p.applicant, p.sharesRequested))
                      && GetOr(old(applicantCustody), p.applicant, 0) >= p.tokenTribute)
      ensures ok ==> Store() == Settled(cfg, old(Store()), p, pass)
    {
      if pass {
        ok := EnterMember(p);
        if !ok || !Fits(totalShares + p.sharesRequested) { return false; }
        totalShares := totalShares + p.sharesRequested;
        balances := Transfer(cfg.existentialDeposit, balances, cfg.custodyAccount, cfg.guildBank, p.tokenTribute,
                             AllowDeath);
      } else {
        balances := Transfer(cfg.existentialDeposit, balances, cfg.custodyAccount, p.applicant, p.tokenTribute,
                             AllowDeath);
      }
      var record := GetOr(applicantCustody, p.applicant, 0);
      if record < p.tokenTribute { return false; }
      applicantCustody := applicantCustody[p.applicant := record - p.tokenTribute];
      return true;
    }

    method ProcessProposal(who: AccountId, i: u128) returns (v: Verdict<Error>)
      modifies this
      ensures v == ProcessProposalCheck(cfg, old(Store()), i)
      ensures v.Accept? ==> Store() == ProcessProposalEffect(cfg, old(Store()), who, i)
      ensures v.Reject? ==> Store() == old(Store())
    {
      if i >= |proposalQueue| { return Reject(ProposalNotExist); }
      var proposal := proposalQueue[i];
      var known, period := GetCurrentPeriod();
      if !known || period < rules.votingPeriodLength { return Trap; }
      if period - rules.votingPeriodLength < rules.gracePeriodLength { return Trap; }
      if period - rules.votingPeriodLength - rules.gracePeriodLength < proposal.startingPeriod {
        return Reject(ProposalNotReady);
      }
      if proposal.processed { return Reject(ProposalHasProcessed); }
      if i != 0 && !proposalQueue[i - 1].processed { return Reject(PreviousProposalNotProcessed); }
      assert ProcessGuards(old(Store()), i) == Accept;
      v := Execute(who, i, proposal);
    }

    /** Lines 387-460: what `process_proposal` writes once its guards have passed. */
    method Execute(who: AccountId, i: nat, stored: Proposal) returns (v: Verdict<Error>)
      requires i < |proposalQueue| && stored == proposalQueue[i]
      modifies this
      ensures v == if ProcessPanics(cfg, old(Store()), stored) then Trap else Accept
      ensures v.Accept? ==> Store() == ProcessProposalEffect(cfg, old(Store()), who, i)
    {
      var proposal := stored.(processed := true);
      var judged, didPass := Judge(stored);
      if !judged { return Trap; }
      if didPass { proposal := proposal.(didPass := true); }
      var concluded := Conclude(who, i, proposal, didPass);
      if !concluded { return Trap; }
      return Accept;
    }

    /** Lines 407-460: settle, write the proposal back, pay the reward. */
    method Conclude(who: AccountId, i: nat, p: Proposal, pass: bool) returns (ok: bool)
      requires i < |proposalQueue|
      modifies this`members, this`addressOfDelegates, this`totalShares, this`balances, this`applicantCustody,
               this`proposalQueue
      ensures ok == (!(pass && MintOverflows(old(members), old(totalShares), p.applicant, p.sharesRequested))
                     && GetOr(old(applicantCustody), p.applicant, 0) >= p.tokenTribute
                     && rules.processingReward <= rules.proposalDeposit)
      ensures ok ==> Store() == Concluded(cfg, old(Store()), who, i, p, pass)
    {
      ok := Settle(p, pass);
      if !ok { return false; }
      proposalQueue := proposalQueue[i := p];
      ok := PayReward(who, p.proposer);
    }

    /** Lines 457-460: the reward for the processor, the rest of the deposit for the proposer. */
    method PayReward(who: AccountId, proposer: AccountId) returns (ok: bool)
      modifies this`balances
      ensures ok == (rules.processingReward <= rules.proposalDeposit)
      ensures ok ==> balances == LedgerAfterReward(cfg, old(balances), who, proposer, rules.processingReward,
                                                   rules.proposalDeposit)
    {
      balances := Transfer(cfg.existentialDeposit, balances, cfg.guildBank, who, rules.processingReward, KeepAlive);
      if rules.proposalDeposit < rules.processingReward { return false; }
      var rest := rules.proposalDeposit - rules.processingReward;
      balances := Transfer(cfg.existentialDeposit, balances, cfg.guildBank, proposer, rest, KeepAlive);
      return true;
    }

    method Ragequit(who: AccountId, burn: u128) returns (v: Verdict<Error>)
      modifies this`members, this`totalShares, this`balances
      ensures v == RagequitCheck(cfg, old(Store()), who, burn)
      ensures v.Accept? ==> Store() == RagequitEffect(cfg, old(Store()), who, burn)
      ensures v.Reject? ==> Store() == old(Store())
    {
      if who !in members { return Reject(NotMember); }
      var member := members[who];
      if member.shares < burn { return Reject(NoEnoughShares); }
      if member.highestIndexYesVote >= |proposalQueue| { return Reject(ProposalNotExist); }
      if !proposalQueue[member.highestIndexYesVote].processed { return Reject(ProposalNotProcessed); }
      members := members[who := member.(shares := member.shares - burn)];
      var initialTotal := totalShares;
      if initialTotal < burn { return Trap; }
      totalShares := initialTotal - burn;
      var amount := Free(balances, cfg.guildBank);
      if !Fits(amount * burn) || initialTotal == 0 { return Trap; }
      var balance := Payout(amount, initialTotal, burn);
      balances := Transfer(cfg.existentialDeposit, balances, cfg.guildBank, who, balance, KeepAlive);
      return Accept;
    }

    method Abort(who: AccountId, i: u128) returns (v: Verdict<Error>)
      modifies this`proposalQueue, this`balances, this`applicantCustody
      ensures v == AbortCheck(old(Store()), who, i)
      ensures v.Accept? ==> Store() == AbortEffect(cfg, old(Store()), i)
      ensures v.Reject? ==> Store() == old(Store())
    {
      if i >= |proposalQueue| { return Reject(ProposalNotExist); }
      var proposal := proposalQueue[i];
      if who != proposal.applicant { return Reject(NotProposalApplicant); }
      var ok, period := GetCurrentPeriod();
      if !ok || !Fits(proposal.startingPeriod + rules.abortWindow) { return Trap; }
      if period >= proposal.startingPeriod + rules.abortWindow { return Reject(AbortWindowHasPassed); }
      if proposal.aborted { return Reject(ProposalHasAborted); }
      var tokenToAbort := proposal.tokenTribute;
      proposalQueue := proposalQueue[i := proposal.(tokenTribute := 0, aborted := true)];
      balances := Transfer(cfg.existentialDeposit, balances, cfg.custodyAccount, proposal.applicant, tokenToAbort,
                           AllowDeath);
      applicantCustody := applicantCustody - {proposal.applicant};
      return Accept;
    }

    method UpdateDelegate(who: AccountId, key: AccountId) returns (v: Verdict<Error>)
      modifies this`addressOfDelegates
      ensures v == UpdateDelegateCheck(old(Store()), who, key)
      ensures v.Accept? ==> Store() == UpdateDelegateEffect(old(Store()), who, key)
      ensures v.Reject? ==> Store() == old(Store())
    {
      if who != key {
        if key in members { return Reject(NoOverwriteMember); }
        var delegate := GetOr(addressOfDelegates, key, DEFAULT_ACCOUNT);
        if delegate in members { return Reject(NoOverwriteDelegate); }
      }
      var member := MemberOf(members, who);
      addressOfDelegates := addressOfDelegates - {member.delegateKey};
      addressOfDelegates := addressOfDelegates[key := who];
      return Accept;
    }

    /** One extrinsic: the dispatchable runs in place, and after a panic the host restores the storage. */
    method Dispatch(who: AccountId, c: Call) returns (v: Verdict<Error>)
      modifies this
      ensures v == Check(cfg, old(Store()), who, c)
      ensures Store() == Step(cfg, old(Store()), who, c)
    {
      var saved := Store();
      match c {
        case Summon(_, _, _, _, _, _, _) => v := Summon(who, c);
        case Custody(tribute) => v := Custody(who, tribute);
        case SubmitProposal(applicant, tribute, shares, details) =>
          v := SubmitProposal(who, applicant, tribute, shares, details);
        case SubmitVote(i, unit) => v := SubmitVote(who, i, unit);
        case ProcessProposal(i) => v := ProcessProposal(who, i);
        case Ragequit(burn) => v := Ragequit(who, burn);
        case Abort(i) => v := Abort(who, i);
        case UpdateDelegate(key) => v := UpdateDelegate(who, key);
      }
      if v.Trap? {
        Restore(saved);
      }
    }
  }
}
