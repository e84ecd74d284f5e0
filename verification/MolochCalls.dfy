/**
 When each call of the guild is accepted and what it leaves behind, in the terms of the design: members and
 their keys, periods in seconds, open proposals, votes cast, tributes in custody.
 */
module MolochCalls {
  import opened Prelude
  import opened Currency
  import opened Moloch
  import opened MolochRuns
  import opened MolochDelegates
  import opened MolochShares
  import opened MolochSchedule
  import opened MolochVoting
  import opened MolochEveryRun
  import opened MolochInvariant
  import opened MolochEscrow
  import opened MolochTheorems
  import opened MolochBacking

  // ----- the clock -----

  lemma QuotientAtLeast(a: nat, d: nat, n: nat)
    requires d > 0
    ensures n <= a / d <==> n * d <= a
  {
    QuotientBounds(a, d);
    if n <= a / d {
      TimesMonotone(n, a / d, d);
    } else {
      TimesMonotone(a / d + 1, n, d);
    }
  }

  lemma QuotientOfQuotient(a: nat, b: nat, c: nat, q: nat)
    requires b > 0 && c > 0
    ensures a / b / c == q <==> q * c * b <= a < q * c * b + c * b
  {
    QuotientUnique(a / b, c, q);
    QuotientAtLeast(a, b, q * c);
    QuotientAtLeast(a, b, q * c + c);
    assert (q * c + c) * b == q * c * b + c * b;
  }

  lemma {:induction false} SummonedInThePast(cfg: Config, balances: Ledger, events: seq<Event>)
    ensures Run(cfg, balances, events).st.rules.summonTime <= Run(cfg, balances, events).st.now
  {
    if events != [] {
      SummonedInThePast(cfg, balances, events[..|events| - 1]);
      TimePasses(cfg, Run(cfg, balances, events[..|events| - 1]), events[|events| - 1]);
    }
  }

  lemma TimePasses(cfg: Config, w: World, e: Event)
    requires w.st.rules.summonTime <= w.st.now
    ensures Next(cfg, w, e).st.rules.summonTime <= Next(cfg, w, e).st.now
  {
    RulesAfterEvent(cfg, w, e);
    if e.Dispatch? {
      StepTakesNoTime(cfg, w.st, e.who, e.call);
    }
  }

  lemma StepTakesNoTime(cfg: Config, s: Storage, who: AccountId, c: Call)
    ensures Step(cfg, s, who, c).now == s.now
  {
  }

  /** The present period is p: p periods have passed since the summoning, and not p + 1; the clock counts
      milliseconds. */
  predicate Elapsed(s: Storage, p: nat) {
    var length := s.rules.periodDuration * 1000;
    s.rules.summonTime + p * length <= s.now < s.rules.summonTime + p * length + length
  }

  lemma PeriodAt(s: Storage, p: nat)
    requires HasPeriod(s)
    ensures Period(s) == p <==> Elapsed(s, p)
  {
    QuotientOfQuotient(s.now - s.rules.summonTime, 1000, s.rules.periodDuration, p);
    assert p * s.rules.periodDuration * 1000 == p * (s.rules.periodDuration * 1000);
  }

  /** On every run, a guild whose periods last some seconds knows the present period, and it is what the clock
      says. */
  lemma PeriodIsElapsed(cfg: Config, balances: Ledger, events: seq<Event>, p: nat)
    ensures var s := Run(cfg, balances, events).st;
            && (HasPeriod(s) <==> s.rules.periodDuration > 0)
            && (HasPeriod(s) ==> (Period(s) == p <==> Elapsed(s, p)))
  {
    SummonedInThePast(cfg, balances, events);
    var s := Run(cfg, balances, events).st;
    if HasPeriod(s) {
      PeriodAt(s, p);
    }
  }

  // ----- the rules -----

  predicate WithinLimits(cfg: Config, r: Rules) {
    && r.votingPeriodLength <= cfg.maxVotingPeriodLength && r.gracePeriodLength <= cfg.maxGracePeriodLength
    && r.dilutionBound <= cfg.maxDilutionBound
    && r.abortWindow <= r.votingPeriodLength && r.processingReward <= r.proposalDeposit
  }

  /** The rules that a summoning asks for, at a given time. */
  function AskedRules(c: Call, now: nat): Rules
    requires c.Summon?
  {
    Rules(summonTime := now, periodDuration := c.periodDuration, votingPeriodLength := c.votingPeriodLength,
          gracePeriodLength := c.gracePeriodLength, abortWindow := c.abortWindow, dilutionBound := c.dilutionBound,
          proposalDeposit := c.proposalDeposit, processingReward := c.processingReward)
  }

  /** The rules asked for by the last summoning that kept the limits. */
  function LastRules(cfg: Config, balances: Ledger, events: seq<Event>): Rules {
    if events == [] then NO_RULES
    else
      var prefix, e := events[..|events| - 1], events[|events| - 1];
      var s := Run(cfg, balances, prefix).st;
      if e.Dispatch? && Possible(cfg, s, e) && e.call.Summon? && WithinLimits(cfg, AskedRules(e.call, s.now))
      then AskedRules(e.call, s.now) else LastRules(cfg, balances, prefix)
  }

  lemma SummonKeepsLimits(cfg: Config, s: Storage, who: AccountId, c: Call)
    requires c.Summon?
    ensures Check(cfg, s, who, c).Accept? <==> WithinLimits(cfg, AskedRules(c, s.now))
  {
  }

  /** On every run the rules in force are those of the last summoning within the limits; no other call
      changes any of them. */
  lemma {:induction false} RulesAreLastAsked(cfg: Config, balances: Ledger, events: seq<Event>)
    ensures Run(cfg, balances, events).st.rules == LastRules(cfg, balances, events)
    ensures WithinLimits(cfg, Run(cfg, balances, events).st.rules)
  {
    if events != [] {
      var prefix, e := events[..|events| - 1], events[|events| - 1];
      RulesAreLastAsked(cfg, balances, prefix);
      RulesAfterEvent(cfg, Run(cfg, balances, prefix), e);
    }
  }

  lemma RulesAfterEvent(cfg: Config, w: World, e: Event)
    ensures Next(cfg, w, e).st.rules
            == if e.Dispatch? && Possible(cfg, w.st, e) && e.call.Summon?
                  && WithinLimits(cfg, AskedRules(e.call, w.st.now))
               then AskedRules(e.call, w.st.now) else w.st.rules
  {
    if e.Dispatch? && Possible(cfg, w.st, e) {
      RulesAfterStep(cfg, w.st, e.who, e.call);
    }
  }

  lemma RulesAfterStep(cfg: Config, s: Storage, who: AccountId, c: Call)
    ensures Step(cfg, s, who, c).rules
            == if c.Summon? && WithinLimits(cfg, AskedRules(c, s.now)) then AskedRules(c, s.now) else s.rules
  {
  }

  // ----- signing for members -----

  /** The key signs for an account that holds shares. */
  ghost predicate SignsForShares(s: Storage, who: AccountId) {
    exists m :: SignsFor(s, who, m) && MemberOf(s.members, m).shares > 0
  }

  lemma SignerIsUnique(s: Storage, who: AccountId)
    ensures who in s.addressOfDelegates ==> SignsFor(s, who, DelegateOf(s, who))
    ensures forall m :: SignsFor(s, who, m) ==> m == DelegateOf(s, who)
  {
  }

  // ----- submitting -----

  lemma SignerHasShares(s: Storage, who: AccountId)
    ensures SignsForShares(s, who) <==> who in s.addressOfDelegates && MemberOf(s.members, DelegateOf(s, who)).shares > 0
  {
    SignerIsUnique(s, who);
  }

  /** The guards of a proposal, with the period it would start in. */
  ghost predicate SubmitGuards(cfg: Config, s: Storage, who: AccountId, a: AccountId, tribute: nat, shares: nat,
                               start: nat) {
    && SignsForShares(s, who)
    && s.totalShares + s.totalSharesRequested + shares <= cfg.maxShares
    && a in s.applicantCustody && tribute <= Free(s.balances, cfg.custodyAccount)
    && s.rules.periodDuration > 0 && Fits(start)
  }

  lemma SubmitAcceptedByKey(cfg: Config, w: World, who: AccountId, a: AccountId, tribute: u128, shares: u128)
    requires cfg.Valid() && SharesOk(cfg, w) && RulesOk(cfg, w.st)
    ensures SubmitProposalCheck(cfg, w.st, who, a, tribute, shares).Accept?
            <==> SubmitGuards(cfg, w.st, who, a, tribute, shares, NextStart(w.st))
  {
    SignerHasShares(w.st, who);
  }

  lemma NextStartFollowsWaiting(cfg: Config, balances: Ledger, events: seq<Event>)
    requires SingleSummon(cfg, balances, events)
    ensures var s := Run(cfg, balances, events).st;
            NextStart(s) == Period(s) + Waiting(s.proposalQueue, Period(s)) + 1
  {
    GapFreeSchedule(cfg, balances, events);
  }

  lemma SubmitAcceptedOnRun(cfg: Config, balances: Ledger, events: seq<Event>, who: AccountId, a: AccountId,
                            tribute: u128, shares: u128)
    requires SingleSummon(cfg, balances, events)
    ensures var s := Run(cfg, balances, events).st;
            SubmitProposalCheck(cfg, s, who, a, tribute, shares).Accept?
            <==> SubmitGuards(cfg, s, who, a, tribute, shares, NextStart(s))
  {
    RunsKeepInv(cfg, balances, events);
    SubmitAcceptedByKey(cfg, Run(cfg, balances, events), who, a, tribute, shares);
  }

  /** A proposal is accepted if and only if its signer signs for shares, the shares issued, requested before
      and requested now stay within the cap, the applicant has a record, custody holds the tribute, and the
      next free period, right after the proposals that wait, fits. */
  lemma SubmitAcceptedIff(cfg: Config, balances: Ledger, events: seq<Event>, who: AccountId, a: AccountId,
                          tribute: u128, shares: u128)
    requires SingleSummon(cfg, balances, events)
    ensures var s := Run(cfg, balances, events).st;
            SubmitProposalCheck(cfg, s, who, a, tribute, shares).Accept?
            <==> SubmitGuards(cfg, s, who, a, tribute, shares, Period(s) + Waiting(s.proposalQueue, Period(s)) + 1)
  {
    NextStartFollowsWaiting(cfg, balances, events);
    SubmitAcceptedOnRun(cfg, balances, events, who, a, tribute, shares);
  }

  /** What an accepted proposal puts at the end of the queue: on behalf of the account signed for, with the
      figures asked for, and starting right after the proposals that wait, never in the past. */
  lemma SubmittedProposal(cfg: Config, balances: Ledger, events: seq<Event>, who: AccountId, c: Call)
    requires SingleSummon(cfg, balances, events) && c.SubmitProposal?
    requires Check(cfg, Run(cfg, balances, events).st, who, c).Accept?
    ensures var s := Run(cfg, balances, events).st;
            var q, q' := s.proposalQueue, Effect(cfg, s, who, c).proposalQueue;
            && |q'| == |q| + 1 && q'[..|q|] == q
            && var p := q'[|q|];
               && SignsFor(s, who, p.proposer) && p.applicant == c.applicant
               && p.tokenTribute == c.tokenTribute && p.sharesRequested == c.sharesRequested && p.details == c.details
               && p.startingPeriod == Period(s) + Waiting(q, Period(s)) + 1 > Period(s)
               && p.yesVotes == p.noVotes == p.maxTotalSharesAtYes == 0 && !p.processed && !p.didPass && !p.aborted
  {
    NextStartFollowsWaiting(cfg, balances, events);
  }

  // ----- voting -----

  lemma SignerMayVote(s: Storage, who: AccountId, i: nat, unit: u8)
    requires i < |s.proposalQueue|
    ensures (exists m :: SignsFor(s, who, m) && MayVote(s, m, i, unit))
            <==> who in s.addressOfDelegates && MayVote(s, DelegateOf(s, who), i, unit)
  {
    SignerIsUnique(s, who);
  }

  lemma VoteAcceptedOnRun(cfg: Config, balances: Ledger, events: seq<Event>, who: AccountId, i: u128, unit: u8)
    requires SingleSummon(cfg, balances, events)
    ensures SubmitVoteCheck(Run(cfg, balances, events).st, who, i, unit).Accept?
            <==> VoteGuards(Run(cfg, balances, events).st, who, i, unit)
  {
    RunsKeepInv(cfg, balances, events);
    RunsKeepBacked(cfg, balances, events);
    VoteAcceptedByKey(cfg, Run(cfg, balances, events), who, i, unit);
  }

  /** A vote is accepted if and only if the signer signs for somebody with shares who has not voted on the
      proposal, the vote is 1 or 2, and the proposal is open, just as the agenda counts it, and not aborted.
      A YES tally always has room. */
  lemma VoteAcceptedIff(cfg: Config, balances: Ledger, events: seq<Event>, who: AccountId, i: u128, unit: u8)
    requires SingleSummon(cfg, balances, events)
    ensures var s := Run(cfg, balances, events).st;
            SubmitVoteCheck(s, who, i, unit).Accept?
            <==> && i < |s.proposalQueue| && (unit == 1 || unit == 2)
                 && (exists m :: SignsFor(s, who, m) && MayVote(s, m, i, unit))
                 && IsOpen(s.proposalQueue[i], Period(s), s.rules.votingPeriodLength) && !s.proposalQueue[i].aborted
                 && Fits(s.proposalQueue[i].startingPeriod + s.rules.votingPeriodLength)
  {
    VoteAcceptedOnRun(cfg, balances, events, who, i, unit);
    if i < |Run(cfg, balances, events).st.proposalQueue| {
      SignerMayVote(Run(cfg, balances, events).st, who, i, unit);
    }
  }

  /** An accepted vote is entered once, for the member signed for, with what was voted. */
  lemma VoteIsEntered(s: Storage, who: AccountId, i: u128, unit: u8)
    requires SubmitVoteCheck(s, who, i, unit).Accept?
    ensures exists m: AccountId :: SignsFor(s, who, m) && (i, m) !in s.proposalVotes
                        && SubmitVoteEffect(s, who, i, unit).proposalVotes == s.proposalVotes[(i, m) := unit]
  {
    SignerIsUnique(s, who);
  }

  // ----- processing -----

  lemma ProcessedEntry(cfg: Config, s: Storage, who: AccountId, i: u128)
    requires ProcessProposalCheck(cfg, s, i).Accept? && !s.proposalQueue[i].didPass
    ensures var p, s' := s.proposalQueue[i], ProcessProposalEffect(cfg, s, who, i);
            && s'.proposalQueue == s.proposalQueue[i := p.(processed := true, didPass := Passes(cfg, s, p))]
            && s'.applicantCustody == s.applicantCustody[p.applicant := RecordOf(s, p.applicant) - p.tokenTribute]
  {
  }

  lemma NotYetPassed(cfg: Config, balances: Ledger, events: seq<Event>, i: nat)
    requires ProcessProposalCheck(cfg, Run(cfg, balances, events).st, i).Accept?
    ensures !Run(cfg, balances, events).st.proposalQueue[i].didPass
  {
    RunsKeepOrder(cfg, balances, events);
  }

  /** What processing leaves of proposal i and of the records: the flags of that proposal are set, by the votes cast
      and the tribute in custody; no other field and no other proposal changes; and only the applicant's record
      changes, by the tribute. */
  ghost predicate Decided(cfg: Config, w: World, s': Storage, i: nat)
    requires i < |w.st.proposalQueue|
  {
    && |s'.proposalQueue| == |w.st.proposalQueue|
    && var p, p' := w.st.proposalQueue[i], s'.proposalQueue[i];
       && p' == p.(processed := true, didPass := p'.didPass) && (p'.didPass <==> WonByVotes(cfg, w, i))
       && s'.proposalQueue == w.st.proposalQueue[i := p']
       && RecordOf(s', p.applicant) + p.tokenTribute == RecordOf(w.st, p.applicant)
       && s'.applicantCustody == w.st.applicantCustody[p.applicant := RecordOf(s', p.applicant)]
  }

  lemma ProcessingDecides(cfg: Config, w: World, who: AccountId, i: u128)
    requires ProcessProposalCheck(cfg, w.st, i).Accept? && !w.st.proposalQueue[i].didPass
    requires Passes(cfg, w.st, w.st.proposalQueue[i]) <==> WonByVotes(cfg, w, i)
    ensures Decided(cfg, w, ProcessProposalEffect(cfg, w.st, who, i), i)
  {
    ProcessedEntry(cfg, w.st, who, i);
  }

  /** On every run, processing decides one proposal by the votes cast and the tribute in custody. */
  lemma ProcessedProposal(cfg: Config, balances: Ledger, events: seq<Event>, who: AccountId, i: u128)
    requires ProcessProposalCheck(cfg, Run(cfg, balances, events).st, i).Accept?
    ensures Decided(cfg, Run(cfg, balances, events), ProcessProposalEffect(cfg, Run(cfg, balances, events).st, who, i), i)
  {
    NotYetPassed(cfg, balances, events, i);
    VerdictByVotes(cfg, balances, events, i);
    ProcessingDecides(cfg, Run(cfg, balances, events), who, i);
  }

  /** Whatever the state, a proposal that processing lets pass has an applicant on record and its tribute in
      the custody account, from which the tribute can be paid. */
  lemma PassNeedsCustody(cfg: Config, s: Storage, who: AccountId, i: u128)
    requires ProcessProposalCheck(cfg, s, i).Accept? && !s.proposalQueue[i].didPass
    requires ProcessProposalEffect(cfg, s, who, i).proposalQueue[i].didPass
    ensures var p := s.proposalQueue[i];
            && p.applicant in s.applicantCustody && p.tokenTribute <= Free(s.balances, cfg.custodyAccount)
            && Affordable(cfg.existentialDeposit, s.balances, cfg.custodyAccount, p.tokenTribute, AllowDeath)
  {
  }

  // ----- aborting -----

  /** An abort is accepted if and only if it comes from the applicant of a proposal that is not aborted, before
      the abort window is over, and the end of that window fits. */
  lemma AbortAcceptedIff(cfg: Config, balances: Ledger, events: seq<Event>, who: AccountId, i: u128)
    requires SingleSummon(cfg, balances, events)
    ensures var s := Run(cfg, balances, events).st;
            AbortCheck(s, who, i).Accept?
            <==> && i < |s.proposalQueue| && s.proposalQueue[i].applicant == who && !s.proposalQueue[i].aborted
                 && Period(s) < s.proposalQueue[i].startingPeriod + s.rules.abortWindow < U128_LIMIT
  {
    RunsKeepInv(cfg, balances, events);
  }

  /** It takes the tribute off the proposal and the applicant off the records, and nothing else. */
  lemma AbortedProposal(cfg: Config, s: Storage, who: AccountId, i: u128)
    requires AbortCheck(s, who, i).Accept?
    ensures var p, s' := s.proposalQueue[i], AbortEffect(cfg, s, i);
            && s'.proposalQueue == s.proposalQueue[i := p.(tokenTribute := 0, aborted := true)]
            && who !in s'.applicantCustody
            && forall a :: a != who ==> (a in s'.applicantCustody <==> a in s.applicantCustody)
                                        && RecordOf(s', a) == RecordOf(s, a)
  {
  }

  // ----- delegate keys -----

  /** Somebody's key is out of reach for others: a key can be taken if and only if it is the caller's own
      address, or no member's address and signing for no member. A key that was never used signs for the
      default account here. */
  lemma UpdateAcceptedIff(s: Storage, who: AccountId, key: AccountId)
    ensures UpdateDelegateCheck(s, who, key).Accept?
            <==> who == key
                 || (&& key !in s.members
                     && (forall m :: m in s.members ==> !SignsFor(s, key, m))
                     && (key in s.addressOfDelegates || DEFAULT_ACCOUNT !in s.members))
  {
    SignerIsUnique(s, key);
  }

  /** So a key that signs for a member goes on signing for it whatever others do to it. */
  lemma KeysCannotBeTaken(cfg: Config, s: Storage, who: AccountId, key: AccountId, m: AccountId)
    requires m in s.members && SignsFor(s, key, m) && who != key
    ensures !UpdateDelegateCheck(s, who, key).Accept?
    ensures Step(cfg, s, who, UpdateDelegate(key)) == s
  {
    UpdateAcceptedIff(s, who, key);
  }

  // ----- the rest stays -----

  predicate SameBut(q: seq<Proposal>, q': seq<Proposal>, i: nat) {
    |q'| == |q| && forall j :: 0 <= j < |q| && j != i ==> q'[j] == q[j]
  }

  /** The items that each call leaves alone; and those of their entries that it leaves alone. */
  lemma OthersStay(cfg: Config, s: Storage, who: AccountId, c: Call)
    requires Check(cfg, s, who, c).Accept?
    ensures var s' := Effect(cfg, s, who, c);
            && s'.now == s.now
            && (!c.Summon? ==> s'.rules == s.rules)
            && (!c.SubmitVote? ==> s'.proposalVotes == s.proposalVotes)
            && (!c.SubmitProposal? && !c.SubmitVote? && !c.ProcessProposal? && !c.Abort? ==>
                  s'.proposalQueue == s.proposalQueue)
            && (c.SubmitVote? ==> SameBut(s.proposalQueue, s'.proposalQueue, c.votedIndex))
            && (!c.Custody? && !c.ProcessProposal? && !c.Abort? ==> s'.applicantCustody == s.applicantCustody)
            && (c.Custody? ==> s'.applicantCustody == s.applicantCustody[who := c.tribute])
            && (!c.SubmitProposal? && !c.ProcessProposal? ==> s'.totalSharesRequested == s.totalSharesRequested)
            && (!c.Summon? && !c.ProcessProposal? && !c.Ragequit? ==> s'.totalShares == s.totalShares)
            && (!c.Summon? && !c.ProcessProposal? && !c.UpdateDelegate? ==>
                  s'.addressOfDelegates == s.addressOfDelegates)
  {
  }

  /** Of a member nothing but shares, highest YES index and, for the default key, the delegate key can change,
      and only one member's index by a vote. */
  lemma MembersStay(cfg: Config, s: Storage, who: AccountId, c: Call, m: AccountId)
    requires Check(cfg, s, who, c).Accept? && m in s.members && !(c.Summon? && who == m)
    ensures var a, b := s.members[m], MemberOf(Effect(cfg, s, who, c).members, m);
            && b.created == a.created
            && (b.highestIndexYesVote == a.highestIndexYesVote
                || (c.SubmitVote? && c.voteUnit == 1 && SignsFor(s, who, m) && b.highestIndexYesVote == c.votedIndex))
            && (b.delegateKey == a.delegateKey || (c.ProcessProposal? && b.delegateKey == m))
  {
  }

  /** Whoever becomes a member by a summoning or a passed proposal is entered under its own key, with nothing
      voted. */
  lemma NewMembers(cfg: Config, s: Storage, who: AccountId, c: Call, m: AccountId)
    requires Check(cfg, s, who, c).Accept? && m !in s.members && m in Effect(cfg, s, who, c).members
    ensures var b := Effect(cfg, s, who, c).members[m];
            && b.highestIndexYesVote == 0 && b.delegateKey == m
            && (c.Summon? ==> m == who && b.shares == 1 && b.created)
            && (c.ProcessProposal? && m == s.proposalQueue[c.processedIndex].applicant ==>
                  b.shares == s.proposalQueue[c.processedIndex].sharesRequested && b.created)
            && (c.Summon? || c.ProcessProposal?)
  {
  }

  // ----- errors -----

  /** What each error says about the call and the storage. */
  ghost predicate ErrorHolds(cfg: Config, s: Storage, who: AccountId, c: Call, e: Error) {
    match e
    case VotingPeriodLengthTooBig => c.Summon? && c.votingPeriodLength > cfg.maxVotingPeriodLength
    case GracePeriodLengthTooBig => c.Summon? && c.gracePeriodLength > cfg.maxGracePeriodLength
    case DilutionBoundTooBig => c.Summon? && c.dilutionBound > cfg.maxDilutionBound
    case AbortWindowTooBig => c.Summon? && c.abortWindow > c.votingPeriodLength
    case NoEnoughProposalDeposit => c.Summon? && c.processingReward > c.proposalDeposit
    case NotMember =>
      if c.Ragequit? then who !in s.members
      else (c.SubmitProposal? || c.SubmitVote?) && forall m :: !SignsFor(s, who, m)
    case NoEnoughShares =>
      if c.Ragequit? then MemberOf(s.members, who).shares < c.sharesToBurn
      else (c.SubmitProposal? || c.SubmitVote?) && !SignsForShares(s, who)
    case SharesOverFlow =>
      c.SubmitProposal? && s.totalShares + s.totalSharesRequested + c.sharesRequested > cfg.maxShares
    case NoCustodyFound =>
      c.SubmitProposal?
      && !(c.applicant in s.applicantCustody && c.tokenTribute <= Free(s.balances, cfg.custodyAccount))
    case ProposalNotExist =>
      || (c.SubmitVote? && c.votedIndex >= |s.proposalQueue|)
      || (c.ProcessProposal? && c.processedIndex >= |s.proposalQueue|)
      || (c.Abort? && c.abortedIndex >= |s.proposalQueue|)
      || (c.Ragequit? && MemberOf(s.members, who).highestIndexYesVote >= |s.proposalQueue|)
    case InvalidVote => c.SubmitVote? && c.voteUnit != 1 && c.voteUnit != 2
    case ProposalNotStart =>
      c.SubmitVote? && c.votedIndex < |s.proposalQueue| && Period(s) < s.proposalQueue[c.votedIndex].startingPeriod
    case ProposalExpired =>
      c.SubmitVote? && c.votedIndex < |s.proposalQueue|
      && s.proposalQueue[c.votedIndex].startingPeriod + s.rules.votingPeriodLength <= Period(s)
    case MemberHasVoted =>
      c.SubmitVote? && exists m: AccountId :: SignsFor(s, who, m) && (c.votedIndex, m) in s.proposalVotes
    case ProposalHasAborted =>
      || (c.SubmitVote? && c.votedIndex < |s.proposalQueue| && s.proposalQueue[c.votedIndex].aborted)
      || (c.Abort? && c.abortedIndex < |s.proposalQueue| && s.proposalQueue[c.abortedIndex].aborted)
    case ProposalNotReady => c.ProcessProposal? && !PastGrace(s, c.processedIndex)
    case ProposalHasProcessed =>
      c.ProcessProposal? && c.processedIndex < |s.proposalQueue| && s.proposalQueue[c.processedIndex].processed
    case PreviousProposalNotProcessed =>
      c.ProcessProposal? && 0 < c.processedIndex <= |s.proposalQueue|
      && !s.proposalQueue[c.processedIndex - 1].processed
    case ProposalNotProcessed =>
      c.Ragequit? && var h := MemberOf(s.members, who).highestIndexYesVote;
                     h < |s.proposalQueue| && !s.proposalQueue[h].processed
    case NotProposalApplicant =>
      c.Abort? && c.abortedIndex < |s.proposalQueue| && s.proposalQueue[c.abortedIndex].applicant != who
    case AbortWindowHasPassed =>
      c.Abort? && c.abortedIndex < |s.proposalQueue|
      && s.proposalQueue[c.abortedIndex].startingPeriod + s.rules.abortWindow <= Period(s)
    case NoOverwriteMember => c.UpdateDelegate? && who != c.delegateKey && c.delegateKey in s.members
    case NoOverwriteDelegate =>
      c.UpdateDelegate? && who != c.delegateKey
      && ((exists m :: m in s.members && SignsFor(s, c.delegateKey, m))
          || (c.delegateKey !in s.addressOfDelegates && DEFAULT_ACCOUNT in s.members))
  }

  lemma VoteRejectionsAreTrue(cfg: Config, s: Storage, who: AccountId, c: Call)
    requires c.SubmitVote? && Check(cfg, s, who, c).Reject?
    ensures ErrorHolds(cfg, s, who, c, Check(cfg, s, who, c).error)
  {
    SignerIsUnique(s, who);
    SignerHasShares(s, who);
  }

  lemma SubmitRejectionsAreTrue(cfg: Config, s: Storage, who: AccountId, c: Call)
    requires c.SubmitProposal? && Check(cfg, s, who, c).Reject?
    ensures ErrorHolds(cfg, s, who, c, Check(cfg, s, who, c).error)
  {
    SignerIsUnique(s, who);
    SignerHasShares(s, who);
  }

  lemma UpdateRejectionsAreTrue(cfg: Config, s: Storage, who: AccountId, c: Call)
    requires c.UpdateDelegate? && Check(cfg, s, who, c).Reject?
    ensures ErrorHolds(cfg, s, who, c, Check(cfg, s, who, c).error)
  {
    SignerIsUnique(s, c.delegateKey);
  }

  /** No rejection gives a false reason. */
  lemma RejectionsAreTrue(cfg: Config, s: Storage, who: AccountId, c: Call)
    requires Check(cfg, s, who, c).Reject?
    ensures ErrorHolds(cfg, s, who, c, Check(cfg, s, who, c).error)
  {
    if c.SubmitVote? {
      VoteRejectionsAreTrue(cfg, s, who, c);
    } else if c.SubmitProposal? {
      SubmitRejectionsAreTrue(cfg, s, who, c);
    } else if c.UpdateDelegate? {
      UpdateRejectionsAreTrue(cfg, s, who, c);
    }
  }

  /** The order in which a call looks for its errors. */
  function Rank(e: Error): nat {
    match e
    case VotingPeriodLengthTooBig => 0
    case GracePeriodLengthTooBig => 1
    case DilutionBoundTooBig => 2
    case AbortWindowTooBig => 3
    case NoEnoughProposalDeposit => 4
    case NotMember => 0
    case NoEnoughShares => 1
    case SharesOverFlow => 2
    case NoCustodyFound => 3
    case ProposalNotExist => 2
    case InvalidVote => 3
    case ProposalNotStart => 4
    case ProposalExpired => 5
    case MemberHasVoted => 6
    case NotProposalApplicant => 3
    case AbortWindowHasPassed => 4
    case ProposalHasAborted => 7
    case ProposalNotReady => 3
    case ProposalHasProcessed => 4
    case PreviousProposalNotProcessed => 5
    case ProposalNotProcessed => 3
    case NoOverwriteMember => 0
    case NoOverwriteDelegate => 1
  }

  /** Of several errors the first is returned. */
  lemma FirstErrorIsReturned(cfg: Config, s: Storage, who: AccountId, c: Call, e: Error)
    requires Check(cfg, s, who, c).Reject? && ErrorHolds(cfg, s, who, c, e)
    ensures Rank(Check(cfg, s, who, c).error) <= Rank(e)
  {
    SignerIsUnique(s, who);
    SignerHasShares(s, who);
  }

  // ----- panics -----

  /** When a call on a summoned guild panics: a figure does not fit its type, the periods have no length, it is too
      early for any processing, a record does not cover its tribute, or a member leaves when no shares exist. */
  ghost predicate PanicHolds(cfg: Config, s: Storage, who: AccountId, c: Call) {
    match c
    case SubmitProposal(a, tribute, shares, _) =>
      SignsForShares(s, who)
      && (|| !Fits(s.totalShares + s.totalSharesRequested + shares)
          || (&& s.totalShares + s.totalSharesRequested + shares <= cfg.maxShares
              && a in s.applicantCustody && tribute <= Free(s.balances, cfg.custodyAccount)
              && (s.rules.periodDuration == 0 || !Fits(NextStart(s)))))
    case SubmitVote(i, unit) =>
      ReachesWindow(s, who, i) && (unit == 1 || unit == 2)
      && (|| !Fits(s.proposalQueue[i].startingPeriod + s.rules.votingPeriodLength)
          || (&& unit == 2 && Period(s) < s.proposalQueue[i].startingPeriod + s.rules.votingPeriodLength
              && (i, DelegateOf(s, who)) !in s.proposalVotes && !s.proposalQueue[i].aborted
              && !Fits(s.proposalQueue[i].noVotes + MemberOf(s.members, DelegateOf(s, who)).shares)))
    case ProcessProposal(i) =>
      i < |s.proposalQueue|
      && (|| Period(s) < s.rules.votingPeriodLength + s.rules.gracePeriodLength
          || (&& PastGrace(s, i) && !s.proposalQueue[i].processed && (i == 0 || s.proposalQueue[i - 1].processed)
              && RecordOf(s, s.proposalQueue[i].applicant) < s.proposalQueue[i].tokenTribute))
    case Ragequit(burn) =>
      who in s.members && burn <= s.members[who].shares && Unlocked(s, who)
      && (s.totalShares == 0 || !Fits(Free(s.balances, cfg.guildBank) * burn))
    case Abort(i) =>
      i < |s.proposalQueue| && s.proposalQueue[i].applicant == who
      && !Fits(s.proposalQueue[i].startingPeriod + s.rules.abortWindow)
    case _ => false
  }

  lemma ProcessPanicsIff(cfg: Config, w: World, who: AccountId, i: u128)
    requires cfg.Valid() && Live(cfg, w)
    ensures ProcessProposalCheck(cfg, w.st, i).Trap? <==> PanicHolds(cfg, w.st, who, ProcessProposal(i))
  {
    if ProcessGuards(w.st, i).Accept? {
      ProcessPanicsExactlyOnMissingRecord(cfg, w, i);
    }
  }

  lemma VotePanicsIff(cfg: Config, w: World, who: AccountId, i: u128, unit: u8)
    requires Live(cfg, w) && VotesBacked(w)
    ensures SubmitVoteCheck(w.st, who, i, unit).Trap? <==> PanicHolds(cfg, w.st, who, SubmitVote(i, unit))
  {
    if ReachesWindow(w.st, who, i)
       && Period(w.st) < w.st.rules.votingPeriodLength + w.st.proposalQueue[i].startingPeriod
       && (i, DelegateOf(w.st, who)) !in w.st.proposalVotes {
      YesVoteFits(cfg, w, who, i);
    }
  }

  lemma SubmitPanicsIff(cfg: Config, w: World, who: AccountId, c: Call)
    requires cfg.Valid() && SharesOk(cfg, w) && RulesOk(cfg, w.st) && c.SubmitProposal?
    ensures Check(cfg, w.st, who, c).Trap? <==> PanicHolds(cfg, w.st, who, c)
  {
    SignerHasShares(w.st, who);
    PendingNonNegative(w.st.proposalQueue);
  }

  lemma OtherPanicsIff(cfg: Config, w: World, who: AccountId, c: Call)
    requires Live(cfg, w) && !c.ProcessProposal? && !c.SubmitVote? && !c.SubmitProposal?
    ensures Check(cfg, w.st, who, c).Trap? <==> PanicHolds(cfg, w.st, who, c)
  {
    if c.Ragequit? {
      SharesAtMostTotal(w.st.members, who);
    }
  }

  /** On every single-summon run a call panics exactly then. */
  lemma PanicsIff(cfg: Config, balances: Ledger, events: seq<Event>, who: AccountId, c: Call)
    requires SingleSummon(cfg, balances, events)
    ensures Check(cfg, Run(cfg, balances, events).st, who, c).Trap?
            <==> PanicHolds(cfg, Run(cfg, balances, events).st, who, c)
  {
    var w := Run(cfg, balances, events);
    RunsKeepInv(cfg, balances, events);
    RunsKeepBacked(cfg, balances, events);
    if c.ProcessProposal? {
      ProcessPanicsIff(cfg, w, who, c.processedIndex);
    } else if c.SubmitVote? {
      VotePanicsIff(cfg, w, who, c.votedIndex, c.voteUnit);
    } else if c.SubmitProposal? {
      SubmitPanicsIff(cfg, w, who, c);
    } else {
      OtherPanicsIff(cfg, w, who, c);
    }
  }
}
