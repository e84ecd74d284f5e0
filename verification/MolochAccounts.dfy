/**
 The accounts of whole runs: what each member's shares, the bank's balance and the custody account's
 balance are made of, whether or not the transfers that came with the calls went through.
 */
module MolochAccounts {
  import opened Prelude
  import opened Sums
  import opened Currency
  import opened Moloch
  import opened MolochRuns
  import opened MolochSchedule
  import opened MolochEveryRun
  import opened MolochInvariant
  import opened MolochEscrow
  import opened MolochPayments

  // ----- figures added up along a run -----

  predicate Happens(cfg: Config, s: Storage, e: Event) {
    Possible(cfg, s, e) && (e.Dispatch? ==> Check(cfg, s, e.who, e.call).Accept?)
  }

  datatype Figure =
    | Founded(founder: AccountId)    // the founding share
    | Reset(founder: AccountId)      // shares overwritten by founding again
    | Burned(burner: AccountId)      // shares burned by one member
    | Credited(receiver: AccountId)  // money received from outside the pallet
    | Losses(loser: AccountId)       // money missed because transfers were refused or left dust
    | PaidOut                        // what ragequits were worth
    | Dropped                        // what overwriting and deleting took off the records without a transfer

  function DispatchAmount(cfg: Config, s: Storage, who: AccountId, c: Call, f: Figure): int
    requires Check(cfg, s, who, c).Accept?
  {
    match f
    case Founded(a) => if c.Summon? && who == a then 1 else 0
    case Reset(a) => if c.Summon? && who == a then MemberOf(s.members, a).shares else 0
    case Burned(a) => if c.Ragequit? && who == a then c.sharesToBurn else 0
    case Credited(a) => 0
    case Losses(a) => Missing(cfg, s, who, c, a)
    case PaidOut => if c.Ragequit? then Payout(Free(s.balances, cfg.guildBank), s.totalShares, c.sharesToBurn) else 0
    case Dropped =>
      if c.Custody? then RecordOf(s, who)
      else if c.Abort? then RecordOf(s, who) - s.proposalQueue[c.abortedIndex].tokenTribute
      else 0
  }

  /** One event's part in a figure. */
  function Amount(cfg: Config, s: Storage, e: Event, f: Figure): int {
    if !Happens(cfg, s, e) then 0
    else
      match e
      case Dispatch(who, c) => DispatchAmount(cfg, s, who, c, f)
      case Advance(_) => 0
      case Elsewhere(ledger) => if f.Credited? then Free(ledger, f.receiver) - Free(s.balances, f.receiver) else 0
  }

  function Total(cfg: Config, balances: Ledger, events: seq<Event>, f: Figure): int {
    if events == [] then 0
    else
      var prefix, e := events[..|events| - 1], events[|events| - 1];
      Total(cfg, balances, prefix, f) + Amount(cfg, Run(cfg, balances, prefix).st, e, f)
  }

  // ----- what the passed proposals brought -----

  datatype Column = SharesTo(applicant: AccountId) | Tributes

  function Entry(p: Proposal, col: Column): nat {
    match col
    case SharesTo(a) => if p.applicant == a then p.sharesRequested else 0
    case Tributes => p.tokenTribute
  }

  function PassedEntries(q: seq<Proposal>, col: Column): seq<int> {
    seq(|q|, i requires 0 <= i < |q| => if q[i].didPass then Entry(q[i], col) else 0)
  }

  /** The sum of a column over the proposals that passed. */
  function PassedSum(q: seq<Proposal>, col: Column): int {
    SumSeq(PassedEntries(q, col))
  }

  lemma PassedSumUpdate(q: seq<Proposal>, i: nat, p: Proposal, col: Column)
    requires i < |q|
    ensures PassedSum(q[i := p], col) == PassedSum(q, col) - PassedEntries(q, col)[i] + PassedEntries([p], col)[0]
  {
    SumSeqUpdate(PassedEntries(q, col), i, PassedEntries([p], col)[0]);
    assert PassedEntries(q[i := p], col) == PassedEntries(q, col)[i := PassedEntries([p], col)[0]];
  }

  lemma PassedSumAppend(q: seq<Proposal>, p: Proposal, col: Column)
    requires !p.didPass
    ensures PassedSum(q + [p], col) == PassedSum(q, col)
  {
    SumSeqAppend(PassedEntries(q, col), 0);
    assert PassedEntries(q + [p], col) == PassedEntries(q, col) + [0];
  }

  lemma PassedSumAfterProcessing(cfg: Config, s: Storage, who: AccountId, i: nat, col: Column)
    requires ProcessProposalCheck(cfg, s, i).Accept? && !s.proposalQueue[i].didPass
    ensures PassedSum(ProcessProposalEffect(cfg, s, who, i).proposalQueue, col)
            == PassedSum(s.proposalQueue, col)
               + if Passes(cfg, s, s.proposalQueue[i]) then Entry(s.proposalQueue[i], col) else 0
  {
    PassedSumUpdate(s.proposalQueue, i, ProcessProposalEffect(cfg, s, who, i).proposalQueue[i], col);
  }

  /** A proposal overwritten without deciding it. */
  lemma PassedSumKept(q: seq<Proposal>, q': seq<Proposal>, i: nat, col: Column)
    requires i < |q| && |q'| == |q| && q' == q[i := q'[i]]
    requires q'[i].didPass == q[i].didPass && (q[i].didPass ==> Entry(q'[i], col) == Entry(q[i], col))
    ensures PassedSum(q', col) == PassedSum(q, col)
  {
    PassedSumUpdate(q, i, q'[i], col);
  }

  /** Only processing that lets a proposal pass adds to a column. */
  lemma PassedSumAfterStep(cfg: Config, w: World, who: AccountId, c: Call, col: Column)
    requires PassedAreProcessed(w.st.proposalQueue) && Check(cfg, w.st, who, c).Accept?
    requires c.Abort? && col.Tributes? ==> !w.st.proposalQueue[c.abortedIndex].didPass
    ensures PassedSum(Effect(cfg, w.st, who, c).proposalQueue, col)
            == PassedSum(w.st.proposalQueue, col)
               + if c.ProcessProposal? && Passes(cfg, w.st, w.st.proposalQueue[c.processedIndex])
                 then Entry(w.st.proposalQueue[c.processedIndex], col) else 0
  {
    var q, q' := w.st.proposalQueue, Effect(cfg, w.st, who, c).proposalQueue;
    if c.SubmitProposal? {
      PassedSumAppend(q, q'[|q|], col);
    } else if c.SubmitVote? {
      PassedSumKept(q, q', c.votedIndex, col);
    } else if c.ProcessProposal? {
      PassedSumAfterProcessing(cfg, w.st, who, c.processedIndex, col);
    } else if c.Abort? {
      PassedSumKept(q, q', c.abortedIndex, col);
    }
  }

  // ----- shares -----

  lemma SharesAfterEvent(cfg: Config, w: World, e: Event, a: AccountId)
    requires PassedAreProcessed(w.st.proposalQueue)
    ensures var s, s' := w.st, Next(cfg, w, e).st;
            MemberOf(s'.members, a).shares - PassedSum(s'.proposalQueue, SharesTo(a))
            == MemberOf(s.members, a).shares - PassedSum(s.proposalQueue, SharesTo(a))
               + Amount(cfg, s, e, Founded(a)) - Amount(cfg, s, e, Reset(a)) - Amount(cfg, s, e, Burned(a))
  {
    if e.Dispatch? && Happens(cfg, w.st, e) {
      SharesMoveOnlyByMintAndBurn(cfg, w.st, e.who, e.call, a);
      PassedSumAfterStep(cfg, w, e.who, e.call, SharesTo(a));
    }
  }

  /** On every run, repeated summonings included, a member has the founding share, if it is the founder, and
      the shares of all its passed proposals, less the shares it burned and those that founding again reset. */
  lemma {:induction false} SharesAreAccounted(cfg: Config, balances: Ledger, events: seq<Event>, a: AccountId)
    ensures var s := Run(cfg, balances, events).st;
            MemberOf(s.members, a).shares
            == Total(cfg, balances, events, Founded(a)) + PassedSum(s.proposalQueue, SharesTo(a))
               - Total(cfg, balances, events, Burned(a)) - Total(cfg, balances, events, Reset(a))
  {
    if events != [] {
      var prefix, e := events[..|events| - 1], events[|events| - 1];
      RunsKeepOrder(cfg, balances, prefix);
      SharesAreAccounted(cfg, balances, prefix, a);
      SharesAfterEvent(cfg, Run(cfg, balances, prefix), e, a);
    }
  }

  /** Founding once resets nothing. */
  lemma {:induction false} OneSummoningResetsNothing(cfg: Config, balances: Ledger, events: seq<Event>, a: AccountId)
    requires cfg.Valid() && Run(cfg, balances, events).log.summons <= 1
    ensures Total(cfg, balances, events, Reset(a)) == 0
  {
    if events != [] {
      var prefix, e := events[..|events| - 1], events[|events| - 1];
      SummonsGrow(cfg, Run(cfg, balances, prefix), e);
      RunsKeepInv(cfg, balances, prefix);
      OneSummoningResetsNothing(cfg, balances, prefix, a);
    }
  }

  // ----- nobody in the guild is one of its internal accounts -----

  ghost predicate Outsiders(cfg: Config, s: Storage) {
    && (forall key :: key in s.addressOfDelegates ==> !cfg.Internal(s.addressOfDelegates[key]))
    && (forall a :: a in s.applicantCustody ==> !cfg.Internal(a))
    && (forall i :: 0 <= i < |s.proposalQueue| ==>
          !cfg.Internal(s.proposalQueue[i].proposer) && !cfg.Internal(s.proposalQueue[i].applicant))
  }

  lemma StepKeepsOutsiders(cfg: Config, s: Storage, who: AccountId, c: Call)
    requires Outsiders(cfg, s) && !cfg.Internal(who) && Check(cfg, s, who, c).Accept?
    ensures Outsiders(cfg, Effect(cfg, s, who, c))
  {
  }

  lemma NextKeepsOutsiders(cfg: Config, w: World, e: Event)
    requires Outsiders(cfg, w.st)
    ensures Outsiders(cfg, Next(cfg, w, e).st)
  {
    if e.Dispatch? && Happens(cfg, w.st, e) {
      StepKeepsOutsiders(cfg, w.st, e.who, e.call);
    }
  }

  lemma {:induction false} RunsKeepOutsiders(cfg: Config, balances: Ledger, events: seq<Event>)
    ensures Outsiders(cfg, Run(cfg, balances, events).st)
  {
    if events != [] {
      var prefix, e := events[..|events| - 1], events[|events| - 1];
      RunsKeepOutsiders(cfg, balances, prefix);
      NextKeepsOutsiders(cfg, Run(cfg, balances, prefix), e);
    }
  }

  // ----- the bank -----

  /** The deposits of the proposals that are not processed. */
  function OpenDeposits(w: World): int {
    w.st.rules.proposalDeposit * (|w.st.proposalQueue| - |w.log.processed|)
  }

  /** What proposals have brought into the bank and what it still owes for them. */
  function FromProposals(w: World): int {
    PassedSum(w.st.proposalQueue, Tributes) + OpenDeposits(w)
  }

  lemma OneMore(d: int, n: int)
    ensures d * (n + 1) == d * n + d && d * (n - 1) == d * n - d
  {
  }

  lemma OpenDepositsAfterStep(cfg: Config, w: World, who: AccountId, c: Call)
    requires !c.Summon? && Happens(cfg, w.st, Dispatch(who, c))
    ensures OpenDeposits(Next(cfg, w, Dispatch(who, c)))
            == OpenDeposits(w) + if c.SubmitProposal? then w.st.rules.proposalDeposit
                                 else if c.ProcessProposal? then 0 - w.st.rules.proposalDeposit else 0
  {
    OneMore(w.st.rules.proposalDeposit, |w.st.proposalQueue| - |w.log.processed|);
  }

  lemma TributesAfterStep(cfg: Config, w: World, who: AccountId, c: Call)
    requires QueueOk(cfg, w) && Check(cfg, w.st, who, c).Accept?
    ensures PassedSum(Effect(cfg, w.st, who, c).proposalQueue, Tributes)
            == PassedSum(w.st.proposalQueue, Tributes)
               + if c.ProcessProposal? && Passes(cfg, w.st, w.st.proposalQueue[c.processedIndex])
                 then w.st.proposalQueue[c.processedIndex].tokenTribute else 0
  {
    assert forall i :: 0 <= i < |w.st.proposalQueue| ==> ProposalOk(w.st, w.st.proposalQueue[i]);
    if c.Abort? {
      AbortHitsUnprocessed(cfg, w, who, c.abortedIndex);
    }
    PassedSumAfterStep(cfg, w, who, c, Tributes);
  }

  /** The bank's due is what proposals bring it, less what ragequits are worth. */
  lemma FromProposalsAfterStep(cfg: Config, w: World, who: AccountId, c: Call)
    requires Live(cfg, w) && Outsiders(cfg, w.st) && cfg.Valid() && !c.Summon?
    requires Happens(cfg, w.st, Dispatch(who, c))
    ensures FromProposals(Next(cfg, w, Dispatch(who, c)))
            == FromProposals(w) + Due(cfg, w.st, who, c, cfg.guildBank) + DispatchAmount(cfg, w.st, who, c, PaidOut)
  {
    TributesAfterStep(cfg, w, who, c);
    OpenDepositsAfterStep(cfg, w, who, c);
  }

  /** What the bank holds beyond what proposals brought. */
  function BankRest(cfg: Config, w: World): int {
    Free(w.st.balances, cfg.guildBank) - FromProposals(w)
  }

  lemma BankAfterStep(cfg: Config, w: World, who: AccountId, c: Call)
    requires Live(cfg, w) && Outsiders(cfg, w.st) && cfg.Valid() && !c.Summon?
    requires Happens(cfg, w.st, Dispatch(who, c))
    ensures BankRest(cfg, Next(cfg, w, Dispatch(who, c)))
            == BankRest(cfg, w) - DispatchAmount(cfg, w.st, who, c, PaidOut) - Missing(cfg, w.st, who, c, cfg.guildBank)
  {
    EveryAccountGetsItsDue(cfg, w.st, who, c, cfg.guildBank);
    FromProposalsAfterStep(cfg, w, who, c);
  }

  /** Up to the summoning there are no proposals, and no deposits either. */
  lemma BankAfterEarlyStep(cfg: Config, w: World, who: AccountId, c: Call)
    requires Unsummoned(w) && cfg.Valid() && Happens(cfg, w.st, Dispatch(who, c))
    ensures BankRest(cfg, Next(cfg, w, Dispatch(who, c)))
            == BankRest(cfg, w) - DispatchAmount(cfg, w.st, who, c, PaidOut) - Missing(cfg, w.st, who, c, cfg.guildBank)
  {
    EveryAccountGetsItsDue(cfg, w.st, who, c, cfg.guildBank);
    if !c.Summon? {
      UnsummonedStays(cfg, w, who, c);
    }
  }

  lemma BankAfterDispatch(cfg: Config, w: World, who: AccountId, c: Call)
    requires cfg.Valid() && Inv(cfg, w) && Outsiders(cfg, w.st) && Happens(cfg, w.st, Dispatch(who, c))
    requires Next(cfg, w, Dispatch(who, c)).log.summons <= 1
    ensures BankRest(cfg, Next(cfg, w, Dispatch(who, c)))
            == BankRest(cfg, w) - DispatchAmount(cfg, w.st, who, c, PaidOut) - Missing(cfg, w.st, who, c, cfg.guildBank)
  {
    if w.log.summons == 1 {
      BankAfterStep(cfg, w, who, c);
    } else {
      BankAfterEarlyStep(cfg, w, who, c);
    }
  }

  lemma BankAfterOther(cfg: Config, w: World, e: Event)
    requires !e.Dispatch? || !Happens(cfg, w.st, e)
    ensures BankRest(cfg, Next(cfg, w, e)) == BankRest(cfg, w) + Amount(cfg, w.st, e, Credited(cfg.guildBank))
  {
    assert FromProposals(Next(cfg, w, e)) == FromProposals(w);
  }

  lemma BankAfterEvent(cfg: Config, w: World, e: Event)
    requires cfg.Valid() && Inv(cfg, w) && Outsiders(cfg, w.st) && Next(cfg, w, e).log.summons <= 1
    ensures BankRest(cfg, Next(cfg, w, e))
            == BankRest(cfg, w) + Amount(cfg, w.st, e, Credited(cfg.guildBank)) - Amount(cfg, w.st, e, PaidOut)
               - Amount(cfg, w.st, e, Losses(cfg.guildBank))
  {
    if e.Dispatch? && Happens(cfg, w.st, e) {
      BankAfterDispatch(cfg, w, e.who, e.call);
    } else {
      BankAfterOther(cfg, w, e);
    }
  }

  /** The bank holds the existential deposit, its outside income, the tributes of all passed proposals and
      the deposits of all open ones, less what ragequits were worth and what refused transfers left out. */
  lemma {:induction false} BankIsAccounted(cfg: Config, balances: Ledger, events: seq<Event>)
    requires cfg.Valid() && Run(cfg, balances, events).log.summons <= 1
    ensures var w := Run(cfg, balances, events);
            Free(w.st.balances, cfg.guildBank)
            == cfg.existentialDeposit + Total(cfg, balances, events, Credited(cfg.guildBank))
               + PassedSum(w.st.proposalQueue, Tributes) + OpenDeposits(w)
               - Total(cfg, balances, events, PaidOut) - Total(cfg, balances, events, Losses(cfg.guildBank))
  {
    if events != [] {
      var prefix, e := events[..|events| - 1], events[|events| - 1];
      SummonsGrow(cfg, Run(cfg, balances, prefix), e);
      RunsKeepInv(cfg, balances, prefix);
      RunsKeepOutsiders(cfg, balances, prefix);
      BankIsAccounted(cfg, balances, prefix);
      BankAfterEvent(cfg, Run(cfg, balances, prefix), e);
    }
  }

  /** So the bank can pay back the deposit of every open proposal, and live on, exactly when ragequits and
      refused transfers have cost it no more than it received. */
  lemma DepositsAreCoveredIff(cfg: Config, balances: Ledger, events: seq<Event>)
    requires cfg.Valid() && Run(cfg, balances, events).log.summons <= 1
    ensures var w := Run(cfg, balances, events);
            cfg.existentialDeposit + OpenDeposits(w) <= Free(w.st.balances, cfg.guildBank)
            <==> Total(cfg, balances, events, PaidOut) + Total(cfg, balances, events, Losses(cfg.guildBank))
                 <= Total(cfg, balances, events, Credited(cfg.guildBank)) + PassedSum(w.st.proposalQueue, Tributes)
  {
    BankIsAccounted(cfg, balances, events);
  }

  // ----- custody -----

  lemma RecordsAfterStep(cfg: Config, s: Storage, who: AccountId, c: Call)
    requires Check(cfg, s, who, c).Accept?
    ensures SumRecords(Effect(cfg, s, who, c).applicantCustody)
            == SumRecords(s.applicantCustody)
               + if c.Custody? then c.tribute - RecordOf(s, who)
                 else if c.ProcessProposal? then 0 - s.proposalQueue[c.processedIndex].tokenTribute
                 else if c.Abort? then 0 - RecordOf(s, who) else 0
  {
    if c.Custody? {
      SumMapUpdate(s.applicantCustody, who, c.tribute);
    } else if c.ProcessProposal? {
      var p := s.proposalQueue[c.processedIndex];
      SumMapUpdate(s.applicantCustody, p.applicant, RecordOf(s, p.applicant) - p.tokenTribute);
    } else if c.Abort? {
      if who in s.applicantCustody {
        SumMapRemove(s.applicantCustody, who);
      } else {
        assert s.applicantCustody - {who} == s.applicantCustody;
      }
    }
  }

  lemma SurplusAfterStep(cfg: Config, s: Storage, who: AccountId, c: Call)
    requires cfg.Valid() && Outsiders(cfg, s) && Happens(cfg, s, Dispatch(who, c))
    ensures Surplus(cfg, Effect(cfg, s, who, c))
            == Surplus(cfg, s) + DispatchAmount(cfg, s, who, c, Dropped) - Missing(cfg, s, who, c, cfg.custodyAccount)
  {
    EveryAccountGetsItsDue(cfg, s, who, c, cfg.custodyAccount);
    RecordsAfterStep(cfg, s, who, c);
  }

  lemma SurplusAfterOther(cfg: Config, w: World, e: Event)
    requires !e.Dispatch? || !Happens(cfg, w.st, e)
    ensures Surplus(cfg, Next(cfg, w, e).st) == Surplus(cfg, w.st) + Amount(cfg, w.st, e, Credited(cfg.custodyAccount))
  {
  }

  lemma SurplusAfterEvent(cfg: Config, w: World, e: Event)
    requires cfg.Valid() && Outsiders(cfg, w.st)
    ensures Surplus(cfg, Next(cfg, w, e).st)
            == Surplus(cfg, w.st) + Amount(cfg, w.st, e, Credited(cfg.custodyAccount)) + Amount(cfg, w.st, e, Dropped)
               - Amount(cfg, w.st, e, Losses(cfg.custodyAccount))
  {
    if e.Dispatch? && Happens(cfg, w.st, e) {
      SurplusAfterStep(cfg, w.st, e.who, e.call);
    } else {
      SurplusAfterOther(cfg, w, e);
    }
  }

  lemma {:induction false} SurplusIsAccounted(cfg: Config, balances: Ledger, events: seq<Event>)
    requires cfg.Valid()
    ensures Surplus(cfg, Run(cfg, balances, events).st)
            == Total(cfg, balances, events, Credited(cfg.custodyAccount)) + Total(cfg, balances, events, Dropped)
               - Total(cfg, balances, events, Losses(cfg.custodyAccount))
  {
    if events != [] {
      var prefix, e := events[..|events| - 1], events[|events| - 1];
      RunsKeepOutsiders(cfg, balances, prefix);
      SurplusIsAccounted(cfg, balances, prefix);
      SurplusAfterEvent(cfg, Run(cfg, balances, prefix), e);
    }
  }

  /** On every run, repeated summonings included, custody holds the existential deposit plus all records if
      and only if refused transfers and dust cost it no more than outside credits and dropped records left it. */
  lemma BackedIff(cfg: Config, balances: Ledger, events: seq<Event>)
    requires cfg.Valid()
    ensures Backed(cfg, Run(cfg, balances, events).st)
            <==> Total(cfg, balances, events, Losses(cfg.custodyAccount))
                 <= Total(cfg, balances, events, Credited(cfg.custodyAccount)) + Total(cfg, balances, events, Dropped)
  {
    SurplusIsAccounted(cfg, balances, events);
  }
}
