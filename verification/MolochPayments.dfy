/**
 Who ends up with what: the money and the shares that each call moves, account by account.
 */
module MolochPayments {
  import opened Prelude
  import opened Currency
  import opened Moloch

  // ----- money -----

  /** What an account gains when `amount` goes from one account to another. */
  function Move(source: AccountId, target: AccountId, amount: nat, a: AccountId): int {
    (if a == target then amount else 0) - (if a == source then amount else 0)
  }

  /** What an account misses of that: all of it if the currency refuses the transfer; and a sender that
      the transfer leaves with less than the existential deposit misses the rest as well. */
  function Lost(ed: nat, l: Ledger, source: AccountId, target: AccountId, amount: nat, mode: Existence, a: AccountId): int {
    if !Transferable(ed, l, source, target, amount, mode) then Move(source, target, amount, a)
    else if a == source then Dust(ed, l, source, target, amount, mode) else 0
  }

  lemma TransferMoves(ed: nat, l: Ledger, source: AccountId, target: AccountId, amount: nat, mode: Existence, a: AccountId)
    ensures Free(Transfer(ed, l, source, target, amount, mode), a)
            == Free(l, a) + Move(source, target, amount, a) - Lost(ed, l, source, target, amount, mode, a)
  {
  }

  /** What the guild's rules grant an account in a successful call: a deposit is put down by the signer
      and given back, less the reward, to the member who proposed; the reward is the processor's; a
      tribute goes to the bank if and only if the proposal passes, and otherwise back to the applicant. */
  function Due(cfg: Config, s: Storage, who: AccountId, c: Call, a: AccountId): int
    requires Check(cfg, s, who, c).Accept?
  {
    match c
    case Custody(tribute) => Move(who, cfg.custodyAccount, tribute, a)
    case SubmitProposal(_, _, _, _) => Move(who, cfg.guildBank, s.rules.proposalDeposit, a)
    case ProcessProposal(i) =>
      var p := s.proposalQueue[i];
      Move(cfg.custodyAccount, if Passes(cfg, s, p) then cfg.guildBank else p.applicant, p.tokenTribute, a)
      + Move(cfg.guildBank, who, s.rules.processingReward, a)
      + Move(cfg.guildBank, p.proposer, s.rules.proposalDeposit - s.rules.processingReward, a)
    case Ragequit(burn) => Move(cfg.guildBank, who, Payout(Free(s.balances, cfg.guildBank), s.totalShares, burn), a)
    case Abort(i) => Move(cfg.custodyAccount, s.proposalQueue[i].applicant, s.proposalQueue[i].tokenTribute, a)
    case _ => 0
  }

  function LostReward(cfg: Config, l: Ledger, who: AccountId, proposer: AccountId, reward: nat, deposit: nat, a: AccountId)
    : int
    requires reward <= deposit
  {
    var ed, bank := cfg.existentialDeposit, cfg.guildBank;
    Lost(ed, l, bank, who, reward, KeepAlive, a)
    + Lost(ed, Transfer(ed, l, bank, who, reward, KeepAlive), bank, proposer, deposit - reward, KeepAlive, a)
  }

  lemma RewardPaysDue(cfg: Config, l: Ledger, who: AccountId, proposer: AccountId, reward: nat, deposit: nat, a: AccountId)
    requires reward <= deposit
    ensures Free(LedgerAfterReward(cfg, l, who, proposer, reward, deposit), a)
            == Free(l, a) + Move(cfg.guildBank, who, reward, a) + Move(cfg.guildBank, proposer, deposit - reward, a)
               - LostReward(cfg, l, who, proposer, reward, deposit, a)
  {
    var l2 := Transfer(cfg.existentialDeposit, l, cfg.guildBank, who, reward, KeepAlive);
    TransferMoves(cfg.existentialDeposit, l, cfg.guildBank, who, reward, KeepAlive, a);
    TransferMoves(cfg.existentialDeposit, l2, cfg.guildBank, proposer, deposit - reward, KeepAlive, a);
  }

  /** What an account misses of its due in this way; the call is accepted all the same. */
  function Missing(cfg: Config, s: Storage, who: AccountId, c: Call, a: AccountId): int
    requires Check(cfg, s, who, c).Accept?
  {
    var ed, bank, box := cfg.existentialDeposit, cfg.guildBank, cfg.custodyAccount;
    match c
    case Custody(tribute) => Lost(ed, s.balances, who, box, tribute, KeepAlive, a)
    case SubmitProposal(_, _, _, _) => Lost(ed, s.balances, who, bank, s.rules.proposalDeposit, KeepAlive, a)
    case ProcessProposal(i) =>
      var p := s.proposalQueue[i];
      var pass := Passes(cfg, s, p);
      Lost(ed, s.balances, box, if pass then bank else p.applicant, p.tokenTribute, AllowDeath, a)
      + LostReward(cfg, LedgerAfterTribute(cfg, s.balances, p.applicant, p.tokenTribute, pass), who, p.proposer,
                      s.rules.processingReward, s.rules.proposalDeposit, a)
    case Ragequit(burn) =>
      Lost(ed, s.balances, bank, who, Payout(Free(s.balances, bank), s.totalShares, burn), KeepAlive, a)
    case Abort(i) =>
      Lost(ed, s.balances, box, s.proposalQueue[i].applicant, s.proposalQueue[i].tokenTribute, AllowDeath, a)
    case _ => 0
  }

  lemma ProcessPaysDue(cfg: Config, s: Storage, who: AccountId, i: u128, a: AccountId)
    requires Check(cfg, s, who, ProcessProposal(i)).Accept?
    ensures Free(Step(cfg, s, who, ProcessProposal(i)).balances, a)
            == Free(s.balances, a) + Due(cfg, s, who, ProcessProposal(i), a) - Missing(cfg, s, who, ProcessProposal(i), a)
  {
    var p := s.proposalQueue[i];
    var pass := Passes(cfg, s, p);
    TransferMoves(cfg.existentialDeposit, s.balances, cfg.custodyAccount, if pass then cfg.guildBank else p.applicant,
                  p.tokenTribute, AllowDeath, a);
    RewardPaysDue(cfg, LedgerAfterTribute(cfg, s.balances, p.applicant, p.tokenTribute, pass), who, p.proposer,
                  s.rules.processingReward, s.rules.proposalDeposit, a);
  }

  /** Every account gets exactly its due, less what refused transfers and dust leave out; no other account
      changes. */
  lemma EveryAccountGetsItsDue(cfg: Config, s: Storage, who: AccountId, c: Call, a: AccountId)
    requires Check(cfg, s, who, c).Accept?
    ensures Free(Step(cfg, s, who, c).balances, a)
            == Free(s.balances, a) + Due(cfg, s, who, c, a) - Missing(cfg, s, who, c, a)
  {
    var ed, bank, box := cfg.existentialDeposit, cfg.guildBank, cfg.custodyAccount;
    match c
    case Custody(tribute) => TransferMoves(ed, s.balances, who, box, tribute, KeepAlive, a);
    case SubmitProposal(_, _, _, _) => TransferMoves(ed, s.balances, who, bank, s.rules.proposalDeposit, KeepAlive, a);
    case ProcessProposal(i) => ProcessPaysDue(cfg, s, who, i, a);
    case Ragequit(burn) =>
      TransferMoves(ed, s.balances, bank, who, Payout(Free(s.balances, bank), s.totalShares, burn), KeepAlive, a);
    case Abort(i) =>
      TransferMoves(ed, s.balances, box, s.proposalQueue[i].applicant, s.proposalQueue[i].tokenTribute, AllowDeath, a);
    case _ =>
  }

  // ----- shares -----

  /** What a successful call does to one account's shares. A summoning leaves its signer with one share,
      whatever it had. */
  function SharesGained(cfg: Config, s: Storage, who: AccountId, c: Call, a: AccountId): int
    requires Check(cfg, s, who, c).Accept?
  {
    match c
    case Summon(_, _, _, _, _, _, _) => if a == who then 1 - MemberOf(s.members, a).shares else 0
    case ProcessProposal(i) =>
      var p := s.proposalQueue[i];
      if Passes(cfg, s, p) && a == p.applicant then p.sharesRequested else 0
    case Ragequit(burn) => if a == who then 0 - burn as int else 0
    case _ => 0
  }

  lemma MintGoesToApplicant(members: map<AccountId, Member>, delegates: map<AccountId, AccountId>, applicant: AccountId,
                            shares: nat, a: AccountId)
    ensures MemberOf(MembersAfterPass(members, delegates, applicant, shares), a).shares
            == MemberOf(members, a).shares + if a == applicant then shares else 0
    ensures a in members ==> a in MembersAfterPass(members, delegates, applicant, shares)
  {
  }

  /** Only the founder and the applicant of a passed proposal gain shares, and only the signer of a ragequit
      loses any; nobody ever stops being a member. */
  lemma SharesMoveOnlyByMintAndBurn(cfg: Config, s: Storage, who: AccountId, c: Call, a: AccountId)
    requires Check(cfg, s, who, c).Accept?
    ensures MemberOf(Step(cfg, s, who, c).members, a).shares
            == MemberOf(s.members, a).shares + SharesGained(cfg, s, who, c, a)
    ensures a in s.members ==> a in Step(cfg, s, who, c).members
  {
    if c.ProcessProposal? {
      var p := s.proposalQueue[c.processedIndex];
      MintGoesToApplicant(s.members, s.addressOfDelegates, p.applicant, p.sharesRequested, a);
    }
  }
}
