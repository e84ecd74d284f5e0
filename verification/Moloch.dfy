/**
 The Moloch V1 guild as a state machine: the pallet's storage, and for every dispatchable the
 conditions it checks, in the order in which it checks them, and the storage it leaves behind.
 */
module Moloch {
  import opened Prelude
  import opened Currency

  datatype Error =
    | VotingPeriodLengthTooBig
    | DilutionBoundTooBig
    | GracePeriodLengthTooBig
    | AbortWindowTooBig
    | NoEnoughProposalDeposit
    | NoEnoughShares
    | NotMember
    | NotProposalApplicant
    | SharesOverFlow
    | ProposalNotExist
    | ProposalNotStart
    | ProposalNotReady
    | ProposalHasProcessed
    | ProposalHasAborted
    | ProposalNotProcessed
    | PreviousProposalNotProcessed
    | ProposalExpired
    | InvalidVote
    | MemberHasVoted
    | AbortWindowHasPassed
    | NoOverwriteDelegate
    | NoOverwriteMember
    | NoCustodyFound

  const YES: u8 := 1
  const NO: u8 := 2

  datatype Member = Member(shares: nat, highestIndexYesVote: nat, created: bool, delegateKey: AccountId)

  const DEFAULT_MEMBER := Member(0, 0, false, DEFAULT_ACCOUNT)

  datatype Proposal = Proposal(
    proposer: AccountId,
    applicant: AccountId,
    sharesRequested: nat,
    startingPeriod: nat,
    yesVotes: nat,
    noVotes: nat,
    processed: bool,
    didPass: bool,
    aborted: bool,
    tokenTribute: nat,
    details: seq<u8>,
    maxTotalSharesAtYes: nat)

  /** The runtime's constants and the accounts the pallet owns. */
  datatype Config = Config(
    existentialDeposit: u128,
    guildBank: AccountId,
    custodyAccount: AccountId,
    maxVotingPeriodLength: u128,
    maxGracePeriodLength: u128,
    maxDilutionBound: u128,
    maxShares: u128)
  {
    /** What the runtime's parameters satisfy. */
    ghost predicate Valid() {
      guildBank != custodyAccount && 1 <= maxShares && Fits(maxShares * maxDilutionBound)
    }

    predicate Internal(a: AccountId) {
      a == guildBank || a == custodyAccount
    }
  }

  type VoteKey = (nat, AccountId)

  /** What `summon` lays down for the life of the guild. */
  datatype Rules = Rules(
    summonTime: nat,
    periodDuration: u32,
    votingPeriodLength: nat,
    gracePeriodLength: nat,
    abortWindow: nat,
    dilutionBound: nat,
    proposalDeposit: nat,
    processingReward: nat)

  /** Everything a dispatchable reads or writes: the pallet's own items, the clock of the
      timestamp pallet (in milliseconds) and the ledger of the currency. */
  datatype Storage = Storage(
    rules: Rules,
    totalShares: nat,
    totalSharesRequested: nat,
    members: map<AccountId, Member>,
    addressOfDelegates: map<AccountId, AccountId>,
    proposalQueue: seq<Proposal>,
    proposalVotes: map<VoteKey, u8>,
    applicantCustody: map<AccountId, nat>,
    now: nat,
    balances: Ledger)

  datatype Call =
    | Summon(periodDuration: u32, votingPeriodLength: u128, gracePeriodLength: u128, abortWindow: u128,
             dilutionBound: u128, proposalDeposit: u128, processingReward: u128)
    | Custody(tribute: u128)
    | SubmitProposal(applicant: AccountId, tokenTribute: u128, sharesRequested: u128, details: seq<u8>)
    | SubmitVote(votedIndex: u128, voteUnit: u8)
    | ProcessProposal(processedIndex: u128)
    | Ragequit(sharesToBurn: u128)
    | Abort(abortedIndex: u128)
    | UpdateDelegate(delegateKey: AccountId)

  function MemberOf(members: map<AccountId, Member>, a: AccountId): Member {
    GetOr(members, a, DEFAULT_MEMBER)
  }

  /** The member address on whose behalf a key signs. */
  function DelegateOf(s: Storage, who: AccountId): AccountId {
    GetOr(s.addressOfDelegates, who, DEFAULT_ACCOUNT)
  }

  function RecordOf(s: Storage, a: AccountId): nat {
    GetOr(s.applicantCustody, a, 0)
  }

  function VoteOf(s: Storage, i: nat, m: AccountId): u8 {
    GetOr(s.proposalVotes, (i, m), 0)
  }

  // ----- the clock -----

  /** `get_current_period` panics before the summoning and under a period of zero seconds. */
  predicate HasPeriod(s: Storage) {
    s.rules.summonTime <= s.now && s.rules.periodDuration > 0
  }

  function Period(s: Storage): nat {
    if HasPeriod(s) then (s.now - s.rules.summonTime) / 1000 / s.rules.periodDuration else 0
  }

  // ----- summon -----

  function SummonCheck(cfg: Config, c: Call): Verdict<Error>
    requires c.Summon?
  {
    if c.votingPeriodLength > cfg.maxVotingPeriodLength then Reject(VotingPeriodLengthTooBig)
    else if c.gracePeriodLength > cfg.maxGracePeriodLength then Reject(GracePeriodLengthTooBig)
    else if c.dilutionBound > cfg.maxDilutionBound then Reject(DilutionBoundTooBig)
    else if c.abortWindow > c.votingPeriodLength then Reject(AbortWindowTooBig)
    else if c.proposalDeposit < c.processingReward then Reject(NoEnoughProposalDeposit)
    else Accept
  }

  function SummonEffect(s: Storage, who: AccountId, c: Call): Storage
    requires c.Summon?
  {
    s.(rules := Rules(s.now, c.periodDuration, c.votingPeriodLength, c.gracePeriodLength, c.abortWindow,
                      c.dilutionBound, c.proposalDeposit, c.processingReward),
       members := s.members[who := Member(1, 0, true, who)],
       addressOfDelegates := s.addressOfDelegates[who := who],
       totalShares := 1)
  }

  // ----- custody -----

  function CustodyEffect(cfg: Config, s: Storage, who: AccountId, tribute: nat): Storage {
    s.(balances := Transfer(cfg.existentialDeposit, s.balances, who, cfg.custodyAccount, tribute, KeepAlive),
       applicantCustody := s.applicantCustody[who := tribute])
  }

  // ----- submit_proposal -----

  /** The starting period of the last proposal in the queue. */
  function LastStart(q: seq<Proposal>): nat {
    if q == [] then 0 else q[|q| - 1].startingPeriod
  }

  function NextStart(s: Storage): nat {
    (if LastStart(s.proposalQueue) < Period(s) then Period(s) else LastStart(s.proposalQueue)) + 1
  }

  function SubmitProposalCheck(cfg: Config, s: Storage, who: AccountId, applicant: AccountId, tribute: nat, shares: nat)
    : Verdict<Error>
  {
    if who !in s.addressOfDelegates then Reject(NotMember)
    else if MemberOf(s.members, DelegateOf(s, who)).shares == 0 then Reject(NoEnoughShares)
    else if !Fits(s.totalSharesRequested + shares) then Trap
    else if !Fits(s.totalShares + s.totalSharesRequested + shares) then Trap
    else if s.totalShares + s.totalSharesRequested + shares > cfg.maxShares then Reject(SharesOverFlow)
    else if applicant !in s.applicantCustody || Free(s.balances, cfg.custodyAccount) < tribute then
      Reject(NoCustodyFound)
    else if !HasPeriod(s) || !Fits(NextStart(s)) then Trap
    else Accept
  }

  function NewProposal(s: Storage, who: AccountId, applicant: AccountId, tribute: nat, shares: nat, details: seq<u8>)
    : Proposal
  {
    Proposal(DelegateOf(s, who), applicant, shares, NextStart(s), 0, 0, false, false, false, tribute, details, 0)
  }

  function SubmitProposalEffect(cfg: Config, s: Storage, who: AccountId, applicant: AccountId, tribute: nat, shares: nat,
                                details: seq<u8>): Storage
  {
    s.(totalSharesRequested := s.totalSharesRequested + shares,
       balances := Transfer(cfg.existentialDeposit, s.balances, who, cfg.guildBank, s.rules.proposalDeposit, KeepAlive),
       proposalQueue := s.proposalQueue + [NewProposal(s, who, applicant, tribute, shares, details)])
  }

  // ----- submit_vote -----

  function SubmitVoteCheck(s: Storage, who: AccountId, i: nat, unit: u8): Verdict<Error> {
    var voter := DelegateOf(s, who);
    var weight := MemberOf(s.members, voter).shares;
    if who !in s.addressOfDelegates then Reject(NotMember)
    else if weight == 0 then Reject(NoEnoughShares)
    else if i >= |s.proposalQueue| then Reject(ProposalNotExist)
    else var p := s.proposalQueue[i];
      if unit != YES && unit != NO then Reject(InvalidVote)
      else if !HasPeriod(s) then Trap
      else if Period(s) < p.startingPeriod then Reject(ProposalNotStart)
      else if !Fits(s.rules.votingPeriodLength + p.startingPeriod) then Trap
      else if Period(s) >= s.rules.votingPeriodLength + p.startingPeriod then Reject(ProposalExpired)
      else if (i, voter) in s.proposalVotes then Reject(MemberHasVoted)
      else if p.aborted then Reject(ProposalHasAborted)
      else if unit == YES && !Fits(p.yesVotes + weight) then Trap
      else if unit == NO && !Fits(p.noVotes + weight) then Trap
      else Accept
  }

  /** The proposal after a member of the given weight voted on it. */
  function Tallied(p: Proposal, unit: u8, weight: nat, totalShares: nat): Proposal {
    if unit == YES then
      p.(yesVotes := p.yesVotes + weight,
         maxTotalSharesAtYes := if totalShares > p.maxTotalSharesAtYes then totalShares else p.maxTotalSharesAtYes)
    else
      p.(noVotes := p.noVotes + weight)
  }

  function SubmitVoteEffect(s: Storage, who: AccountId, i: nat, unit: u8): Storage
    requires SubmitVoteCheck(s, who, i, unit).Accept?
  {
    var voter := DelegateOf(s, who);
    var m := s.members[voter];
    s.(proposalVotes := s.proposalVotes[(i, voter) := unit],
       members := if unit == YES && i > m.highestIndexYesVote then s.members[voter := m.(highestIndexYesVote := i)]
                  else s.members,
       proposalQueue := s.proposalQueue[i := Tallied(s.proposalQueue[i], unit, m.shares, s.totalShares)])
  }

  // ----- process_proposal -----

  predicate DilutionExceeded(s: Storage, p: Proposal) {
    s.totalShares * s.rules.dilutionBound < p.maxTotalSharesAtYes
  }

  predicate CustodyOutage(cfg: Config, s: Storage, p: Proposal) {
    p.applicant !in s.applicantCustody || Free(s.balances, cfg.custodyAccount) < p.tokenTribute
  }

  /** Whether processing a proposal in this state lets it pass. */
  predicate Passes(cfg: Config, s: Storage, p: Proposal) {
    p.yesVotes > p.noVotes && !DilutionExceeded(s, p) && !CustodyOutage(cfg, s, p) && !p.aborted
  }

  /** The guards of `process_proposal`; after them only panics can stop it. */
  function ProcessGuards(s: Storage, i: nat): Verdict<Error> {
    if i >= |s.proposalQueue| then Reject(ProposalNotExist)
    else if !HasPeriod(s) || Period(s) < s.rules.votingPeriodLength + s.rules.gracePeriodLength then Trap
    else if Period(s) < s.rules.votingPeriodLength + s.rules.gracePeriodLength + s.proposalQueue[i].startingPeriod then
      Reject(ProposalNotReady)
    else if s.proposalQueue[i].processed then Reject(ProposalHasProcessed)
    else if i > 0 && !s.proposalQueue[i - 1].processed then Reject(PreviousProposalNotProcessed)
    else Accept
  }

  predicate MintOverflows(members: map<AccountId, Member>, totalShares: nat, applicant: AccountId, shares: nat) {
    (applicant in members && !Fits(members[applicant].shares + shares)) || !Fits(totalShares + shares)
  }

  /** What can still panic after the guards, in any order: all of it happens before success. */
  predicate ProcessPanics(cfg: Config, s: Storage, p: Proposal) {
    || s.totalSharesRequested < p.sharesRequested
    || !Fits(s.totalShares * s.rules.dilutionBound)
    || (Passes(cfg, s, p) && MintOverflows(s.members, s.totalShares, p.applicant, p.sharesRequested))
    || RecordOf(s, p.applicant) < p.tokenTribute
    || s.rules.proposalDeposit < s.rules.processingReward
  }

  function ProcessProposalCheck(cfg: Config, s: Storage, i: nat): Verdict<Error> {
    if !ProcessGuards(s, i).Accept? then ProcessGuards(s, i)
    else if ProcessPanics(cfg, s, s.proposalQueue[i]) then Trap
    else Accept
  }

  /** Minting to an existing member adds shares; a new member is entered under its own key, and
      if that key was someone's delegate key, that someone is entered (with no shares, if it was
      no member) and made its own delegate. */
  function MembersAfterPass(members: map<AccountId, Member>, delegates: map<AccountId, AccountId>,
                            applicant: AccountId, shares: nat): map<AccountId, Member>
  {
    if applicant in members then
      members[applicant := members[applicant].(shares := members[applicant].shares + shares)]
    else
      MembersAfterReset(members, delegates, applicant)[applicant := Member(shares, 0, true, applicant)]
  }

  function MembersAfterReset(members: map<AccountId, Member>, delegates: map<AccountId, AccountId>, key: AccountId)
    : map<AccountId, Member>
  {
    if key in delegates then
      members[delegates[key] := MemberOf(members, delegates[key]).(delegateKey := delegates[key])]
    else members
  }

  function DelegatesAfterPass(members: map<AccountId, Member>, delegates: map<AccountId, AccountId>, applicant: AccountId)
    : map<AccountId, AccountId>
  {
    if applicant in members then delegates
    else if applicant in delegates then delegates[delegates[applicant] := delegates[applicant]][applicant := applicant]
    else delegates[applicant := applicant]
  }

  /** The tribute leaves the custody account: for the guild bank, or back to the applicant. */
  function LedgerAfterTribute(cfg: Config, l: Ledger, applicant: AccountId, tribute: nat, pass: bool): Ledger {
    Transfer(cfg.existentialDeposit, l, cfg.custodyAccount, if pass then cfg.guildBank else applicant,
             tribute, AllowDeath)
  }

  /** The guild bank pays the reward to the processor and the rest of the deposit to the proposer. */
  function LedgerAfterReward(cfg: Config, l: Ledger, who: AccountId, proposer: AccountId, reward: nat, deposit: nat): Ledger
    requires reward <= deposit
  {
    Transfer(cfg.existentialDeposit,
             Transfer(cfg.existentialDeposit, l, cfg.guildBank, who, reward, KeepAlive),
             cfg.guildBank, proposer, deposit - reward, KeepAlive)
  }

  /** The verdict carried out: shares, the tribute and the record. */
  function Settled(cfg: Config, s: Storage, p: Proposal, pass: bool): Storage
    requires p.tokenTribute <= RecordOf(s, p.applicant)
  {
    s.(totalShares := if pass then s.totalShares + p.sharesRequested else s.totalShares,
       members := if pass then MembersAfterPass(s.members, s.addressOfDelegates, p.applicant, p.sharesRequested)
                  else s.members,
       addressOfDelegates := if pass then DelegatesAfterPass(s.members, s.addressOfDelegates, p.applicant)
                             else s.addressOfDelegates,
       applicantCustody := s.applicantCustody[p.applicant := RecordOf(s, p.applicant) - p.tokenTribute],
       balances := LedgerAfterTribute(cfg, s.balances, p.applicant, p.tokenTribute, pass))
  }

  /** Everything written after the verdict: then the proposal itself and the payments. */
  function Concluded(cfg: Config, s: Storage, who: AccountId, i: nat, p: Proposal, pass: bool): Storage
    requires i < |s.proposalQueue|
    requires p.tokenTribute <= RecordOf(s, p.applicant) && s.rules.processingReward <= s.rules.proposalDeposit
  {
    var settled := Settled(cfg, s, p, pass);
    settled.(balances := LedgerAfterReward(cfg, settled.balances, who, p.proposer, s.rules.processingReward,
                                           s.rules.proposalDeposit),
             proposalQueue := s.proposalQueue[i := p])
  }

  function ProcessProposalEffect(cfg: Config, s: Storage, who: AccountId, i: nat): Storage
    requires i < |s.proposalQueue| && !ProcessPanics(cfg, s, s.proposalQueue[i])
  {
    var p := s.proposalQueue[i];
    var pass := Passes(cfg, s, p);
    Concluded(cfg, s.(totalSharesRequested := s.totalSharesRequested - p.sharesRequested), who, i,
              p.(processed := true, didPass := pass || p.didPass), pass)
  }

  // ----- ragequit -----

  function RagequitCheck(cfg: Config, s: Storage, who: AccountId, burn: nat): Verdict<Error> {
    if who !in s.members then Reject(NotMember)
    else var m := s.members[who];
      if m.shares < burn then Reject(NoEnoughShares)
      else if m.highestIndexYesVote >= |s.proposalQueue| then Reject(ProposalNotExist)
      else if !s.proposalQueue[m.highestIndexYesVote].processed then Reject(ProposalNotProcessed)
      else if s.totalShares < burn then Trap
      else if !Fits(Free(s.balances, cfg.guildBank) * burn) || s.totalShares == 0 then Trap
      else Accept
  }

  /** The part of the bank that `burn` out of `total` shares are worth, rounded down. */
  function Payout(bank: nat, total: nat, burn: nat): nat
    requires total > 0
  {
    var product: nat := bank * burn;
    product / total
  }

  function RagequitEffect(cfg: Config, s: Storage, who: AccountId, burn: nat): Storage
    requires RagequitCheck(cfg, s, who, burn).Accept?
  {
    s.(members := s.members[who := s.members[who].(shares := s.members[who].shares - burn)],
       totalShares := s.totalShares - burn,
       balances := Transfer(cfg.existentialDeposit, s.balances, cfg.guildBank, who,
                            Payout(Free(s.balances, cfg.guildBank), s.totalShares, burn), KeepAlive))
  }

  // ----- abort -----

  function AbortCheck(s: Storage, who: AccountId, i: nat): Verdict<Error> {
    if i >= |s.proposalQueue| then Reject(ProposalNotExist)
    else var p := s.proposalQueue[i];
      if who != p.applicant then Reject(NotProposalApplicant)
      else if !HasPeriod(s) || !Fits(p.startingPeriod + s.rules.abortWindow) then Trap
      else if Period(s) >= p.startingPeriod + s.rules.abortWindow then Reject(AbortWindowHasPassed)
      else if p.aborted then Reject(ProposalHasAborted)
      else Accept
  }

  function AbortEffect(cfg: Config, s: Storage, i: nat): Storage
    requires i < |s.proposalQueue|
  {
    var p := s.proposalQueue[i];
    s.(proposalQueue := s.proposalQueue[i := p.(tokenTribute := 0, aborted := true)],
       balances := Transfer(cfg.existentialDeposit, s.balances, cfg.custodyAccount, p.applicant, p.tokenTribute,
                            AllowDeath),
       applicantCustody := s.applicantCustody - {p.applicant})
  }

  // ----- update_delegate -----

  function UpdateDelegateCheck(s: Storage, who: AccountId, key: AccountId): Verdict<Error> {
    if who != key && key in s.members then Reject(NoOverwriteMember)
    else if who != key && DelegateOf(s, key) in s.members then Reject(NoOverwriteDelegate)
    else Accept
  }

  /** The new key is never written to the member's record: only a local copy is assigned. */
  function UpdateDelegateEffect(s: Storage, who: AccountId, key: AccountId): Storage {
    s.(addressOfDelegates := (s.addressOfDelegates - {MemberOf(s.members, who).delegateKey})[key := who])
  }

  // ----- one dispatch -----

  function Check(cfg: Config, s: Storage, who: AccountId, c: Call): Verdict<Error> {
    match c
    case Summon(_, _, _, _, _, _, _) => SummonCheck(cfg, c)
    case Custody(_) => Accept
    case SubmitProposal(applicant, tribute, shares, _) => SubmitProposalCheck(cfg, s, who, applicant, tribute, shares)
    case SubmitVote(i, unit) => SubmitVoteCheck(s, who, i, unit)
    case ProcessProposal(i) => ProcessProposalCheck(cfg, s, i)
    case Ragequit(burn) => RagequitCheck(cfg, s, who, burn)
    case Abort(i) => AbortCheck(s, who, i)
    case UpdateDelegate(key) => UpdateDelegateCheck(s, who, key)
  }

  function Effect(cfg: Config, s: Storage, who: AccountId, c: Call): Storage
    requires Check(cfg, s, who, c).Accept?
  {
    match c
    case Summon(_, _, _, _, _, _, _) => SummonEffect(s, who, c)
    case Custody(tribute) => CustodyEffect(cfg, s, who, tribute)
    case SubmitProposal(applicant, tribute, shares, details) =>
      SubmitProposalEffect(cfg, s, who, applicant, tribute, shares, details)
    case SubmitVote(i, unit) => SubmitVoteEffect(s, who, i, unit)
    case ProcessProposal(i) => ProcessProposalEffect(cfg, s, who, i)
    case Ragequit(burn) => RagequitEffect(cfg, s, who, burn)
    case Abort(i) => AbortEffect(cfg, s, i)
    case UpdateDelegate(key) => UpdateDelegateEffect(s, who, key)
  }

  /** A rejected or trapped dispatch leaves no trace. */
  function Step(cfg: Config, s: Storage, who: AccountId, c: Call): Storage {
    if Check(cfg, s, who, c).Accept? then Effect(cfg, s, who, c) else s
  }
}
