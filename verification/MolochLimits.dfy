/**
 What the code does not give. Nothing stops two proposals for the same applicant from being submitted
 against one deposit: processing the first uses up the record; the second then panics in
 `process_proposal`, and since processing is in order the whole queue waits until that applicant
 deposits again. A member who never voted YES cannot always leave. A member can have several delegate keys
 at once. Custody can hold less than its records say, or be left with dust. And a second founder makes the
 stored total of shares too small.
 */
module MolochLimits {
  import opened Prelude
  import opened Currency
  import opened Moloch
  import opened MolochRuns
  import opened MolochDelegates
  import opened MolochShares
  import opened MolochSchedule
  import opened MolochInvariant
  import opened MolochEscrow
  import opened MolochTheorems

  /** The first unprocessed proposal is due, but its applicant's record does not cover its tribute. */
  predicate Stalled(w: World) {
    var k := |w.log.processed|;
    PastGrace(w.st, k) && RecordOf(w.st, w.st.proposalQueue[k].applicant) < w.st.proposalQueue[k].tokenTribute
  }

  /** A deposit by the due proposal's applicant that covers its tribute. */
  predicate CoveringDeposit(cfg: Config, e: Event, p: Proposal) {
    e.Dispatch? && e.call.Custody? && e.who == p.applicant && !cfg.Internal(e.who) && p.tokenTribute <= e.call.tribute
  }

  predicate NoCoveringDeposit(cfg: Config, more: seq<Event>, p: Proposal) {
    forall i :: 0 <= i < |more| ==> !CoveringDeposit(cfg, more[i], p)
  }

  lemma DueProposalIsSettled(cfg: Config, w: World, who: AccountId, c: Call)
    requires Live(cfg, w) && Stalled(w)
    requires Check(cfg, w.st, who, c).Accept?
    ensures !(c.SubmitVote? && c.votedIndex == |w.log.processed|)
    ensures !(c.Abort? && c.abortedIndex == |w.log.processed|)
    ensures !c.ProcessProposal?
  {
    if c.ProcessProposal? {
      ProcessHitsFirst(w, c.processedIndex);
    }
  }

  /** Whatever is accepted, the due proposal, the rules and the clock stay as they are. */
  lemma DueProposalStays(cfg: Config, w: World, who: AccountId, c: Call)
    requires Live(cfg, w) && Stalled(w) && !c.Summon? && Check(cfg, w.st, who, c).Accept?
    ensures var k, s' := |w.log.processed|, Effect(cfg, w.st, who, c);
            && k < |s'.proposalQueue| && s'.proposalQueue[k] == w.st.proposalQueue[k]
            && s'.rules == w.st.rules && s'.now == w.st.now
  {
    DueProposalIsSettled(cfg, w, who, c);
  }

  /** .. and its applicant's record does not rise to its tribute by anything but a covering deposit. */
  lemma RecordStaysShort(cfg: Config, w: World, who: AccountId, c: Call)
    requires Live(cfg, w) && Stalled(w) && !cfg.Internal(who) && Check(cfg, w.st, who, c).Accept?
    requires !CoveringDeposit(cfg, Dispatch(who, c), w.st.proposalQueue[|w.log.processed|])
    ensures var p := w.st.proposalQueue[|w.log.processed|];
            RecordOf(Effect(cfg, w.st, who, c), p.applicant) < p.tokenTribute
  {
    DueProposalIsSettled(cfg, w, who, c);
  }

  lemma StallSurvivesDispatch(cfg: Config, w: World, who: AccountId, c: Call)
    requires Live(cfg, w) && Stalled(w) && !c.Summon?
    requires !CoveringDeposit(cfg, Dispatch(who, c), w.st.proposalQueue[|w.log.processed|])
    requires Possible(cfg, w.st, Dispatch(who, c)) && Check(cfg, w.st, who, c).Accept?
    ensures var w' := Next(cfg, w, Dispatch(who, c));
            var k := |w.log.processed|;
            Stalled(w') && w'.log.processed == w.log.processed && w'.st.proposalQueue[k] == w.st.proposalQueue[k]
  {
    DueProposalIsSettled(cfg, w, who, c);
    DueProposalStays(cfg, w, who, c);
    RecordStaysShort(cfg, w, who, c);
    assert Period(Effect(cfg, w.st, who, c)) == Period(w.st);
  }

  lemma StallSurvivesEvent(cfg: Config, w: World, e: Event)
    requires Live(cfg, w) && Stalled(w) && Next(cfg, w, e).log.summons == w.log.summons
    requires !CoveringDeposit(cfg, e, w.st.proposalQueue[|w.log.processed|])
    ensures var w' := Next(cfg, w, e);
            var k := |w.log.processed|;
            Stalled(w') && w'.log.processed == w.log.processed && w'.st.proposalQueue[k] == w.st.proposalQueue[k]
  {
    if e.Dispatch? {
      if Possible(cfg, w.st, e) && Check(cfg, w.st, e.who, e.call).Accept? {
        StallSurvivesDispatch(cfg, w, e.who, e.call);
      }
    } else if e.Advance? {
      PeriodMonotone(w.st, e.millis);
    } else if Possible(cfg, w.st, e) {
      assert Period(w.st.(balances := e.ledger)) == Period(w.st);
    }
  }

  /** A stalled queue stays stalled, whoever does what and however long, until that one applicant deposits
      at least the tribute. */
  lemma {:induction false} StallEndsOnlyByDeposit(cfg: Config, balances: Ledger, events: seq<Event>, more: seq<Event>)
    requires SingleSummon(cfg, balances, events) && SingleSummon(cfg, balances, events + more)
    requires Stalled(Run(cfg, balances, events))
    requires var w := Run(cfg, balances, events);
             NoCoveringDeposit(cfg, more, w.st.proposalQueue[|w.log.processed|])
    ensures var w, w' := Run(cfg, balances, events), Run(cfg, balances, events + more);
            var k := |w.log.processed|;
            Stalled(w') && w'.log.processed == w.log.processed && w'.st.proposalQueue[k] == w.st.proposalQueue[k]
    decreases |more|
  {
    if more == [] {
      assert events + more == events;
    } else {
      var prefix, e := more[..|more| - 1], more[|more| - 1];
      assert events + more == (events + prefix) + [e];
      RunSnoc(cfg, balances, events + prefix, e);
      SummonsGrow(cfg, Run(cfg, balances, events + prefix), e);
      SummonsGrowAlong(cfg, balances, events, prefix);
      StallEndsOnlyByDeposit(cfg, balances, events, prefix);
      RunsKeepInv(cfg, balances, events + prefix);
      StallSurvivesEvent(cfg, Run(cfg, balances, events + prefix), e);
    }
  }

  lemma CoveringDepositEndsStall(cfg: Config, w: World, e: Event)
    requires cfg.Valid() && Live(cfg, w) && Stalled(w) && CoveringDeposit(cfg, e, w.st.proposalQueue[|w.log.processed|])
    ensures var w', k := Next(cfg, w, e), |w.log.processed|;
            && w'.log == w.log && PastGrace(w'.st, k)
            && w'.st.proposalQueue[k].tokenTribute <= RecordOf(w'.st, w'.st.proposalQueue[k].applicant)
  {
    assert Period(Next(cfg, w, e).st) == Period(w.st);
  }

  /** And that deposit is enough: the next event ends the stall if and only if it is one, and then the due
      proposal can be processed. */
  lemma StallEndsIff(cfg: Config, balances: Ledger, events: seq<Event>, e: Event)
    requires SingleSummon(cfg, balances, events) && SingleSummon(cfg, balances, events + [e])
    requires Stalled(Run(cfg, balances, events))
    ensures var w, w' := Run(cfg, balances, events), Run(cfg, balances, events + [e]);
            var k := |w.log.processed|;
            && (Stalled(w') <==> !CoveringDeposit(cfg, e, w.st.proposalQueue[k]))
            && (CoveringDeposit(cfg, e, w.st.proposalQueue[k]) ==> ProcessProposalCheck(cfg, w'.st, k).Accept?)
  {
    var w := Run(cfg, balances, events);
    RunSnoc(cfg, balances, events, e);
    RunsKeepInv(cfg, balances, events);
    if CoveringDeposit(cfg, e, w.st.proposalQueue[|w.log.processed|]) {
      CoveringDepositEndsStall(cfg, w, e);
      ProcessingSucceedsIff(cfg, balances, events + [e], |w.log.processed|);
    } else {
      StallSurvivesEvent(cfg, w, e);
    }
  }

  // ----- single steps -----

  /** One dispatch that succeeds. */
  lemma RunStep(cfg: Config, balances: Ledger, events: seq<Event>, who: AccountId, c: Call, w: World)
    requires w == Run(cfg, balances, events) && !cfg.Internal(who) && Check(cfg, w.st, who, c).Accept?
    ensures Run(cfg, balances, events + [Dispatch(who, c)])
            == World(Effect(cfg, w.st, who, c), Recorded(cfg, w.st, w.log, who, c))
  {
    RunSnoc(cfg, balances, events, Dispatch(who, c));
  }

  /** Periods of one second, no voting, grace or abort window, no deposits. */
  const FOUND: Call := Summon(1, 0, 0, 0, 1, 0, 0)

  function FoundedBy(cfg: Config, balances: Ledger, a: AccountId): World {
    var g := Genesis(cfg, balances);
    World(g.st.(rules := Rules(0, 1, 0, 0, 0, 1, 0, 0), totalShares := 1,
                members := map[a := Member(1, 0, true, a)], addressOfDelegates := map[a := a]),
          g.log.(summons := 1))
  }

  lemma FoundStep(cfg: Config, balances: Ledger, a: AccountId)
    requires 1 <= cfg.maxDilutionBound && !cfg.Internal(a)
    ensures Run(cfg, balances, [] + [Dispatch(a, FOUND)]) == FoundedBy(cfg, balances, a)
  {
    var g := Genesis(cfg, balances);
    RunStep(cfg, balances, [], a, FOUND, g);
    assert g.st.members[a := Member(1, 0, true, a)] == map[a := Member(1, 0, true, a)];
    assert g.st.addressOfDelegates[a := a] == map[a := a];
  }

  function DepositedBy(cfg: Config, balances: Ledger, a: AccountId, b: AccountId): World {
    var w := FoundedBy(cfg, balances, a);
    w.(st := CustodyEffect(cfg, w.st, b, 50))
  }

  lemma DepositIsReached(cfg: Config, balances: Ledger, a: AccountId, b: AccountId)
    requires 1 <= cfg.maxDilutionBound && !cfg.Internal(a) && !cfg.Internal(b)
    ensures Run(cfg, balances, [] + [Dispatch(a, FOUND)] + [Dispatch(b, Custody(50))]) == DepositedBy(cfg, balances, a, b)
  {
    FoundStep(cfg, balances, a);
    RunStep(cfg, balances, [] + [Dispatch(a, FOUND)], b, Custody(50), FoundedBy(cfg, balances, a));
  }

  /** Account b has 1000, and its deposit of 50 goes through. */
  ghost predicate Funded(cfg: Config, balances: Ledger, a: AccountId, b: AccountId) {
    && cfg.Valid() && 1 <= cfg.maxDilutionBound && 3 <= cfg.maxShares && cfg.existentialDeposit == 10
    && !cfg.Internal(a) && !cfg.Internal(b) && Free(balances, b) == 1000
  }

  lemma DepositIsFunded(cfg: Config, balances: Ledger, a: AccountId, b: AccountId)
    requires Funded(cfg, balances, a, b)
    ensures var l := DepositedBy(cfg, balances, a, b).st.balances;
            Free(l, b) == 950 && Free(l, cfg.custodyAccount) == 60
  {
    assert Free(FoundedBy(cfg, balances, a).st.balances, b) == 1000;
  }

  /** Account a, the founder, proposes b for one share. */
  function Asked(a: AccountId, b: AccountId, tribute: u128, start: nat): Proposal {
    Proposal(a, b, 1, start, 0, 0, false, false, false, tribute, [], 0)
  }

  /** A proposal by the founder, in the first period, to a queue of others like it. */
  lemma AskStep(cfg: Config, w: World, a: AccountId, b: AccountId, tribute: u128, n: nat)
    requires w.st.rules == Rules(0, 1, 0, 0, 0, 1, 0, 0) && w.st.now == 0 && w.st.totalShares == 1
    requires w.st.members == map[a := Member(1, 0, true, a)] && w.st.addressOfDelegates == map[a := a]
    requires w.st.totalSharesRequested == n && n + 2 <= cfg.maxShares
    requires LastStart(w.st.proposalQueue) == n && Fits(n + 1)
    requires b in w.st.applicantCustody && tribute <= Free(w.st.balances, cfg.custodyAccount)
    ensures Check(cfg, w.st, a, SubmitProposal(b, tribute, 1, [])).Accept?
    ensures Effect(cfg, w.st, a, SubmitProposal(b, tribute, 1, []))
            == w.st.(totalSharesRequested := n + 1, proposalQueue := w.st.proposalQueue + [Asked(a, b, tribute, n + 1)])
  {
    assert Period(w.st) == 0;
  }

  // ----- a run that stalls -----

  function ProposedTwice(cfg: Config, balances: Ledger, a: AccountId, b: AccountId): World {
    var w := DepositedBy(cfg, balances, a, b);
    w.(st := w.st.(totalSharesRequested := 2, proposalQueue := [Asked(a, b, 50, 1), Asked(a, b, 50, 2)]))
  }

  lemma ProposedIsReached(cfg: Config, balances: Ledger, a: AccountId, b: AccountId)
    requires Funded(cfg, balances, a, b)
    ensures var ask := Dispatch(a, SubmitProposal(b, 50, 1, []));
            Run(cfg, balances, [] + [Dispatch(a, FOUND)] + [Dispatch(b, Custody(50))] + [ask] + [ask])
            == ProposedTwice(cfg, balances, a, b)
  {
    var w := DepositedBy(cfg, balances, a, b);
    var ask := SubmitProposal(b, 50, 1, []);
    var w1 := w.(st := w.st.(totalSharesRequested := 1, proposalQueue := [Asked(a, b, 50, 1)]));
    var events := [] + [Dispatch(a, FOUND)] + [Dispatch(b, Custody(50))];
    DepositIsReached(cfg, balances, a, b);
    DepositIsFunded(cfg, balances, a, b);
    AskStep(cfg, w, a, b, 50, 0);
    RunStep(cfg, balances, events, a, ask, w);
    assert [] + [Asked(a, b, 50, 1)] == [Asked(a, b, 50, 1)];
    AskStep(cfg, w1, a, b, 50, 1);
    RunStep(cfg, balances, events + [Dispatch(a, ask)], a, ask, w1);
    assert [Asked(a, b, 50, 1)] + [Asked(a, b, 50, 2)] == [Asked(a, b, 50, 1), Asked(a, b, 50, 2)];
  }

  /** Processing takes the tribute off the record and touches no other proposal. */
  lemma ProcessingStep(cfg: Config, w: World, who: AccountId, i: u128)
    requires ProcessProposalCheck(cfg, w.st, i).Accept? && !cfg.Internal(who)
    ensures var w' := Next(cfg, w, Dispatch(who, ProcessProposal(i)));
            var p := w.st.proposalQueue[i];
            && w'.log.summons == w.log.summons && w'.log.processed == w.log.processed + [i]
            && RecordOf(w'.st, p.applicant) == RecordOf(w.st, p.applicant) - p.tokenTribute
            && w'.st.rules == w.st.rules && w'.st.now == w.st.now
            && w'.st.proposalQueue[i + 1..] == w.st.proposalQueue[i + 1..]
  {
  }

  lemma RefundUsesUpRecord(cfg: Config, w: World, a: AccountId, b: AccountId, who: AccountId)
    requires !cfg.Internal(who) && w.log.processed == []
    requires w.st.rules == Rules(0, 1, 0, 0, 0, 1, 0, 0) && w.st.now == 2000
    requires w.st.totalShares == 1 && w.st.totalSharesRequested == 2 && RecordOf(w.st, b) == 50
    requires w.st.proposalQueue == [Asked(a, b, 50, 1), Asked(a, b, 50, 2)]
    ensures var w' := Next(cfg, w, Dispatch(who, ProcessProposal(0)));
            w'.log.summons == w.log.summons && w'.log.processed == [0] && Stalled(w')
  {
    assert Period(w.st) == 2;
    ProcessingStep(cfg, w, who, 0);
    var w' := Next(cfg, w, Dispatch(who, ProcessProposal(0)));
    assert Period(w'.st) == 2;
    assert w'.st.proposalQueue[1..][0] == w.st.proposalQueue[1..][0];
  }

  /** One deposit of 50 by account b, two proposals against it, both due, the first one processed by anybody:
      the second cannot be processed. */
  lemma TwoProposalsOneDepositStall(cfg: Config, balances: Ledger, a: AccountId, b: AccountId, who: AccountId)
    requires Funded(cfg, balances, a, b) && !cfg.Internal(who)
    ensures var ask := Dispatch(a, SubmitProposal(b, 50, 1, []));
            var events := [] + [Dispatch(a, FOUND)] + [Dispatch(b, Custody(50))] + [ask] + [ask] + [Advance(2000)]
                          + [Dispatch(who, ProcessProposal(0))];
            SingleSummon(cfg, balances, events) && Stalled(Run(cfg, balances, events))
  {
    var ask := Dispatch(a, SubmitProposal(b, 50, 1, []));
    var events := [] + [Dispatch(a, FOUND)] + [Dispatch(b, Custody(50))] + [ask] + [ask];
    var w := ProposedTwice(cfg, balances, a, b);
    ProposedIsReached(cfg, balances, a, b);
    RunSnoc(cfg, balances, events, Advance(2000));
    RunSnoc(cfg, balances, events + [Advance(2000)], Dispatch(who, ProcessProposal(0)));
    RefundUsesUpRecord(cfg, Next(cfg, w, Advance(2000)), a, b, who);
  }

  // ----- a founder who cannot leave -----

  /** The founder never voted for anything, but has to wait for a proposal 0 that does not exist. */
  lemma FounderCannotLeaveEmptyGuild(cfg: Config, balances: Ledger, a: AccountId, burn: u128)
    requires 1 <= cfg.maxDilutionBound && !cfg.Internal(a) && burn <= 1
    ensures RagequitCheck(cfg, Run(cfg, balances, [] + [Dispatch(a, FOUND)]).st, a, burn) == Reject(ProposalNotExist)
  {
    FoundStep(cfg, balances, a);
  }

  // ----- several delegate keys -----

  lemma KeyStep(s: Storage, a: AccountId, key: AccountId)
    requires s.members == map[a := Member(1, 0, true, a)] && key != a && DelegateOf(s, key) != a
    ensures UpdateDelegateCheck(s, a, key).Accept?
    ensures UpdateDelegateEffect(s, a, key) == s.(addressOfDelegates := (s.addressOfDelegates - {a})[key := a])
  {
  }

  /** After two updates both new keys sign for the member. */
  lemma TwoKeysSignForOneMember(cfg: Config, balances: Ledger, a: AccountId, x: AccountId, y: AccountId)
    requires 1 <= cfg.maxDilutionBound && !cfg.Internal(a)
    requires a != DEFAULT_ACCOUNT && a != x && a != y && x != y
    ensures var s := Run(cfg, balances, [] + [Dispatch(a, FOUND)] + [Dispatch(a, UpdateDelegate(x))]
                                        + [Dispatch(a, UpdateDelegate(y))]).st;
            SignsFor(s, x, a) && SignsFor(s, y, a)
  {
    var w := FoundedBy(cfg, balances, a);
    var w1 := w.(st := w.st.(addressOfDelegates := map[x := a]));
    FoundStep(cfg, balances, a);
    KeyStep(w.st, a, x);
    RunStep(cfg, balances, [] + [Dispatch(a, FOUND)], a, UpdateDelegate(x), w);
    assert (map[a := a] - {a})[x := a] == map[x := a];
    KeyStep(w1.st, a, y);
    RunStep(cfg, balances, [] + [Dispatch(a, FOUND)] + [Dispatch(a, UpdateDelegate(x))], a, UpdateDelegate(y), w1);
  }

  // ----- two summonings -----

  /** After a second founder the stored total leaves the first one's share out. */
  lemma SecondSummonLosesCount(cfg: Config, balances: Ledger, a: AccountId, b: AccountId)
    requires 1 <= cfg.maxDilutionBound && !cfg.Internal(a) && !cfg.Internal(b) && a != b
    ensures var s := Run(cfg, balances, [] + [Dispatch(a, FOUND)] + [Dispatch(b, FOUND)]).st;
            s.totalShares == 1 && SumShares(s.members) == 2
  {
    var w := FoundedBy(cfg, balances, a);
    FoundStep(cfg, balances, a);
    RunStep(cfg, balances, [] + [Dispatch(a, FOUND)], b, FOUND, w);
    SharesUpdate(map[], a, Member(1, 0, true, a));
    SharesUpdate(w.st.members, b, Member(1, 0, true, b));
  }

  // ----- a deposit without money -----

  /** An account deposits more than it has; the deposit is recorded all the same, and not backed. */
  lemma UnfundedDepositIsRecorded(cfg: Config, balances: Ledger, a: AccountId, tribute: u128)
    requires cfg.Valid() && !cfg.Internal(a) && Free(balances, a) < tribute
    ensures var s := Run(cfg, balances, [] + [Dispatch(a, Custody(tribute))]).st;
            RecordOf(s, a) == tribute && !Backed(cfg, s)
  {
    var g := Genesis(cfg, balances);
    RunStep(cfg, balances, [], a, Custody(tribute), g);
    assert SumRecords(map[]) == 0;
    SurplusAfterCustody(cfg, g.st, a, tribute);
  }

  // ----- a refund that leaves dust -----

  function AskedMore(cfg: Config, balances: Ledger, a: AccountId, b: AccountId): World {
    var w := DepositedBy(cfg, balances, a, b);
    w.(st := w.st.(totalSharesRequested := 1, proposalQueue := [Asked(a, b, 55, 1)]))
  }

  lemma AskedMoreIsReached(cfg: Config, balances: Ledger, a: AccountId, b: AccountId)
    requires Funded(cfg, balances, a, b)
    ensures Run(cfg, balances, [] + [Dispatch(a, FOUND)] + [Dispatch(b, Custody(50))]
                               + [Dispatch(a, SubmitProposal(b, 55, 1, []))]) == AskedMore(cfg, balances, a, b)
  {
    var w := DepositedBy(cfg, balances, a, b);
    DepositIsReached(cfg, balances, a, b);
    DepositIsFunded(cfg, balances, a, b);
    AskStep(cfg, w, a, b, 55, 0);
    RunStep(cfg, balances, [] + [Dispatch(a, FOUND)] + [Dispatch(b, Custody(50))], a, SubmitProposal(b, 55, 1, []), w);
    assert [] + [Asked(a, b, 55, 1)] == [Asked(a, b, 55, 1)];
  }

  lemma AbortLeavesDust(cfg: Config, s: Storage, a: AccountId, b: AccountId)
    requires cfg.existentialDeposit == 10 && cfg.custodyAccount != b
    requires s.rules == Rules(0, 1, 0, 0, 0, 1, 0, 0) && s.now == 0 && s.proposalQueue == [Asked(a, b, 55, 1)]
    requires Free(s.balances, cfg.custodyAccount) == 60 && Free(s.balances, b) == 950
    ensures var l := Step(cfg, s, b, Abort(0)).balances;
            Free(l, cfg.custodyAccount) == 0 && TotalIssuance(l) == TotalIssuance(s.balances) - 5
  {
    assert Period(s) == 0;
    assert AbortCheck(s, b, 0).Accept?;
    DispatchConservesCurrency(cfg, s, b, Abort(0));
  }

  /** A proposal that asks for 55 against a deposit of 50 is aborted. What the refund leaves in the custody
      account is less than the existential deposit, and burned. */
  lemma RefundBurnsDust(cfg: Config, balances: Ledger, a: AccountId, b: AccountId)
    requires Funded(cfg, balances, a, b)
    ensures var s := Run(cfg, balances, [] + [Dispatch(a, FOUND)] + [Dispatch(b, Custody(50))]
                                        + [Dispatch(a, SubmitProposal(b, 55, 1, []))]).st;
            var l := Step(cfg, s, b, Abort(0)).balances;
            Free(l, cfg.custodyAccount) == 0 && TotalIssuance(l) == TotalIssuance(s.balances) - 5
  {
    AskedMoreIsReached(cfg, balances, a, b);
    DepositIsFunded(cfg, balances, a, b);
    AbortLeavesDust(cfg, AskedMore(cfg, balances, a, b).st, a, b);
  }
}
