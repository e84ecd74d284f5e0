/**
 The custody account as an escrow, on runs that follow the documented two-step procedure: an
 applicant deposits exactly the tribute, then one proposal is submitted for exactly that tribute,
 and the applicant does not deposit again while that proposal is live.
 */
module MolochEscrow {
  import opened Prelude
  import opened Sums
  import opened Currency
  import opened Moloch
  import opened MolochRuns
  import opened MolochShares
  import opened MolochSchedule
  import opened MolochInvariant

  predicate IsLive(p: Proposal) {
    !p.processed && !p.aborted
  }

  ghost predicate HasLive(s: Storage, applicant: AccountId) {
    exists i :: 0 <= i < |s.proposalQueue| && IsLive(s.proposalQueue[i]) && s.proposalQueue[i].applicant == applicant
  }

  /** The documented procedure, as a condition on the events that can break it. */
  ghost predicate Careful(cfg: Config, s: Storage, e: Event) {
    e.Dispatch? && Possible(cfg, s, e) && Check(cfg, s, e.who, e.call).Accept? ==>
      match e.call
      case Custody(tribute) =>
        !HasLive(s, e.who)
        && Transferable(cfg.existentialDeposit, s.balances, e.who, cfg.custodyAccount, tribute, KeepAlive)
      case SubmitProposal(applicant, tribute, _, _) =>
        !HasLive(s, applicant) && tribute == RecordOf(s, applicant)
      case _ => true
  }

  ghost predicate Disciplined(cfg: Config, balances: Ledger, events: seq<Event>) {
    events == [] ||
    (var prefix := events[..|events| - 1];
     Disciplined(cfg, balances, prefix) && Careful(cfg, Run(cfg, balances, prefix).st, events[|events| - 1]))
  }

  /** What all applicants have on record. */
  ghost function SumRecords(records: map<AccountId, nat>): nat {
    SumMap(records)
  }

  ghost predicate Backed(cfg: Config, s: Storage) {
    cfg.existentialDeposit + SumRecords(s.applicantCustody) <= Free(s.balances, cfg.custodyAccount)
  }

  ghost predicate TributeOnRecord(s: Storage, p: Proposal) {
    p.applicant in s.applicantCustody && s.applicantCustody[p.applicant] == p.tokenTribute
  }

  ghost predicate EscrowOk(cfg: Config, s: Storage) {
    && Backed(cfg, s)
    && (forall i :: 0 <= i < |s.proposalQueue| && IsLive(s.proposalQueue[i]) ==> TributeOnRecord(s, s.proposalQueue[i]))
    && (forall i, j :: 0 <= i < j < |s.proposalQueue| && IsLive(s.proposalQueue[i]) && IsLive(s.proposalQueue[j]) ==>
          s.proposalQueue[i].applicant != s.proposalQueue[j].applicant)
  }

  lemma RecordBacked(cfg: Config, s: Storage, a: AccountId)
    requires Backed(cfg, s)
    ensures cfg.existentialDeposit + RecordOf(s, a) <= Free(s.balances, cfg.custodyAccount)
  {
    if a in s.applicantCustody {
      SumMapAtLeast(s.applicantCustody, a);
    }
  }

  lemma CustodyKeepsEscrow(cfg: Config, s: Storage, who: AccountId, tribute: u128)
    requires EscrowOk(cfg, s) && !cfg.Internal(who) && !HasLive(s, who)
    requires Transferable(cfg.existentialDeposit, s.balances, who, cfg.custodyAccount, tribute, KeepAlive)
    ensures EscrowOk(cfg, CustodyEffect(cfg, s, who, tribute))
  {
    SumMapUpdate(s.applicantCustody, who, tribute);
    var s' := CustodyEffect(cfg, s, who, tribute);
    assert forall i :: 0 <= i < |s.proposalQueue| && IsLive(s.proposalQueue[i]) ==> TributeOnRecord(s, s.proposalQueue[i]);
  }

  /** What the custody account holds beyond the existential deposit and the records. */
  ghost function Surplus(cfg: Config, s: Storage): int {
    Free(s.balances, cfg.custodyAccount) - cfg.existentialDeposit - SumRecords(s.applicantCustody)
  }

  /** A deposit whose transfer fails is recorded all the same: the surplus then falls by the whole
      tribute, less what the overwritten record was. */
  lemma SurplusAfterCustody(cfg: Config, s: Storage, who: AccountId, tribute: u128)
    requires !cfg.Internal(who)
    ensures Surplus(cfg, CustodyEffect(cfg, s, who, tribute))
            == Surplus(cfg, s) + RecordOf(s, who)
               - if Transferable(cfg.existentialDeposit, s.balances, who, cfg.custodyAccount, tribute, KeepAlive)
                 then 0 else tribute
  {
    SumMapUpdate(s.applicantCustody, who, tribute);
  }

  lemma SubmitKeepsEscrow(cfg: Config, s: Storage, who: AccountId, c: Call)
    requires c.SubmitProposal? && EscrowOk(cfg, s) && !cfg.Internal(who)
    requires !HasLive(s, c.applicant) && c.tokenTribute == RecordOf(s, c.applicant)
    requires Check(cfg, s, who, c).Accept?
    ensures EscrowOk(cfg, Effect(cfg, s, who, c))
  {
    var s' := Effect(cfg, s, who, c);
    var n := |s.proposalQueue|;
    assert forall i :: 0 <= i < n ==> s'.proposalQueue[i] == s.proposalQueue[i];
    assert TributeOnRecord(s', s'.proposalQueue[n]);
    assert forall i :: 0 <= i < n && IsLive(s.proposalQueue[i]) ==> TributeOnRecord(s, s.proposalQueue[i]);
  }

  lemma ProcessKeepsBacked(cfg: Config, w: World, who: AccountId, i: nat)
    requires cfg.Valid() && EscrowOk(cfg, w.st)
    requires ProcessProposalCheck(cfg, w.st, i).Accept?
    ensures Backed(cfg, ProcessProposalEffect(cfg, w.st, who, i))
  {
    var s, p := w.st, w.st.proposalQueue[i];
    SumMapUpdate(s.applicantCustody, p.applicant, RecordOf(s, p.applicant) - p.tokenTribute);
  }

  lemma ProcessKeepsEscrow(cfg: Config, w: World, who: AccountId, i: nat)
    requires cfg.Valid() && EscrowOk(cfg, w.st) && QueueOk(cfg, w)
    requires ProcessProposalCheck(cfg, w.st, i).Accept?
    ensures EscrowOk(cfg, ProcessProposalEffect(cfg, w.st, who, i))
  {
    ProcessKeepsBacked(cfg, w, who, i);
    var s, s' := w.st, ProcessProposalEffect(cfg, w.st, who, i);
    assert ProposalOk(s, s.proposalQueue[i]);
    forall j | 0 <= j < |s'.proposalQueue| && IsLive(s'.proposalQueue[j])
      ensures TributeOnRecord(s', s'.proposalQueue[j])
    {
      assert j != i && TributeOnRecord(s, s.proposalQueue[j]);
      if IsLive(s.proposalQueue[i]) {
        assert s.proposalQueue[if i < j then i else j].applicant != s.proposalQueue[if i < j then j else i].applicant;
      }
    }
    assert forall j :: 0 <= j < |s'.proposalQueue| && IsLive(s'.proposalQueue[j]) ==>
      s'.proposalQueue[j] == s.proposalQueue[j];
  }

  lemma AbortKeepsEscrow(cfg: Config, w: World, who: AccountId, i: nat)
    requires EscrowOk(cfg, w.st) && QueueOk(cfg, w) && AbortCheck(w.st, who, i).Accept?
    ensures EscrowOk(cfg, AbortEffect(cfg, w.st, i))
  {
    AbortHitsUnprocessed(cfg, w, who, i);
    var s, s' := w.st, AbortEffect(cfg, w.st, i);
    var p := s.proposalQueue[i];
    assert TributeOnRecord(s, p);
    SumMapRemove(s.applicantCustody, p.applicant);
    forall j | 0 <= j < |s'.proposalQueue| && IsLive(s'.proposalQueue[j])
      ensures TributeOnRecord(s', s'.proposalQueue[j])
    {
      assert j != i && TributeOnRecord(s, s.proposalQueue[j]);
      assert s.proposalQueue[if i < j then i else j].applicant != s.proposalQueue[if i < j then j else i].applicant;
    }
    assert forall j :: 0 <= j < |s'.proposalQueue| && IsLive(s'.proposalQueue[j]) ==>
      s'.proposalQueue[j] == s.proposalQueue[j];
  }

  /** Changes that leave the records and every proposal's part in the escrow alone. */
  lemma SameEscrow(cfg: Config, s: Storage, s': Storage)
    requires EscrowOk(cfg, s) && s'.applicantCustody == s.applicantCustody
    requires Free(s.balances, cfg.custodyAccount) <= Free(s'.balances, cfg.custodyAccount)
    requires |s'.proposalQueue| == |s.proposalQueue|
    requires forall i :: 0 <= i < |s.proposalQueue| ==>
               var p, p' := s.proposalQueue[i], s'.proposalQueue[i];
               p'.applicant == p.applicant && p'.tokenTribute == p.tokenTribute && IsLive(p') == IsLive(p)
    ensures EscrowOk(cfg, s')
  {
    assert forall i :: 0 <= i < |s.proposalQueue| && IsLive(s.proposalQueue[i]) ==> TributeOnRecord(s, s.proposalQueue[i]);
  }

  lemma StepKeepsEscrow(cfg: Config, w: World, who: AccountId, c: Call)
    requires cfg.Valid() && EscrowOk(cfg, w.st) && QueueOk(cfg, w) && !c.Summon?
    requires Possible(cfg, w.st, Dispatch(who, c)) && Check(cfg, w.st, who, c).Accept?
    requires Careful(cfg, w.st, Dispatch(who, c))
    ensures EscrowOk(cfg, Effect(cfg, w.st, who, c))
  {
    if c.Custody? {
      CustodyKeepsEscrow(cfg, w.st, who, c.tribute);
    } else if c.SubmitProposal? {
      SubmitKeepsEscrow(cfg, w.st, who, c);
    } else if c.ProcessProposal? {
      ProcessKeepsEscrow(cfg, w, who, c.processedIndex);
    } else if c.Abort? {
      AbortKeepsEscrow(cfg, w, who, c.abortedIndex);
    } else {
      SameEscrow(cfg, w.st, Effect(cfg, w.st, who, c));
    }
  }

  /** Before and at the summoning the queue is empty, and only deposits change the escrow. */
  lemma EarlyStepKeepsEscrow(cfg: Config, w: World, who: AccountId, c: Call)
    requires cfg.Valid() && EscrowOk(cfg, w.st) && Unsummoned(w)
    requires Possible(cfg, w.st, Dispatch(who, c)) && Check(cfg, w.st, who, c).Accept?
    requires Careful(cfg, w.st, Dispatch(who, c))
    ensures EscrowOk(cfg, Effect(cfg, w.st, who, c))
  {
    if c.Custody? {
      CustodyKeepsEscrow(cfg, w.st, who, c.tribute);
    } else {
      SameEscrow(cfg, w.st, Effect(cfg, w.st, who, c));
    }
  }

  lemma {:induction false} RunsKeepEscrow(cfg: Config, balances: Ledger, events: seq<Event>)
    requires cfg.Valid() && Run(cfg, balances, events).log.summons <= 1 && Disciplined(cfg, balances, events)
    ensures EscrowOk(cfg, Run(cfg, balances, events).st)
  {
    if events != [] {
      var prefix, e := events[..|events| - 1], events[|events| - 1];
      var w := Run(cfg, balances, prefix);
      SummonsGrow(cfg, w, e);
      RunsKeepInv(cfg, balances, prefix);
      RunsKeepEscrow(cfg, balances, prefix);
      if e.Dispatch? && Possible(cfg, w.st, e) && Check(cfg, w.st, e.who, e.call).Accept? {
        if w.log.summons == 0 {
          EarlyStepKeepsEscrow(cfg, w, e.who, e.call);
        } else {
          StepKeepsEscrow(cfg, w, e.who, e.call);
        }
      } else {
        SameEscrow(cfg, w.st, Run(cfg, balances, events).st);
      }
    }
  }

  // ----- when processing completes -----

  lemma ProductMonotone(a: nat, b: nat, a': nat, b': nat)
    requires a <= a' && b <= b'
    ensures a * b <= a' * b'
  {
    TimesMonotone(a, a', b);
    TimesMonotone(b, b', a');
  }

  lemma MintFits(cfg: Config, w: World, i: nat)
    requires SharesOk(cfg, w) && i < |w.st.proposalQueue| && !w.st.proposalQueue[i].processed
    ensures w.st.proposalQueue[i].sharesRequested <= w.st.totalSharesRequested
    ensures !MintOverflows(w.st.members, w.st.totalShares, w.st.proposalQueue[i].applicant,
                           w.st.proposalQueue[i].sharesRequested)
  {
    RequestAtMostPending(w.st.proposalQueue, i);
    SharesAtMostTotal(w.st.members, w.st.proposalQueue[i].applicant);
  }

  lemma DilutionProductFits(cfg: Config, w: World)
    requires cfg.Valid() && SharesOk(cfg, w) && RulesOk(cfg, w.st)
    ensures Fits(w.st.totalShares * w.st.rules.dilutionBound)
  {
    PendingNonNegative(w.st.proposalQueue);
    ProductMonotone(w.st.totalShares, w.st.rules.dilutionBound, cfg.maxShares, cfg.maxDilutionBound);
  }

  /** Once its guards pass, `process_proposal` panics in exactly one situation: the applicant's
      record does not cover the tribute. No share computation overflows, the dilution product
      fits, and the reward never exceeds the deposit. */
  lemma ProcessPanicsExactlyOnMissingRecord(cfg: Config, w: World, i: nat)
    requires cfg.Valid() && Live(cfg, w) && ProcessGuards(w.st, i).Accept?
    ensures ProcessProposalCheck(cfg, w.st, i)
            == if RecordOf(w.st, w.st.proposalQueue[i].applicant) < w.st.proposalQueue[i].tokenTribute then Trap else Accept
  {
    MintFits(cfg, w, i);
    DilutionProductFits(cfg, w);
  }

  /** Under the discipline that situation does not arise, and a live proposal is never failed for
      want of custody. */
  lemma EscrowCoversTribute(cfg: Config, w: World, i: nat)
    requires EscrowOk(cfg, w.st) && QueueOk(cfg, w) && i < |w.st.proposalQueue| && !w.st.proposalQueue[i].processed
    ensures w.st.proposalQueue[i].tokenTribute <= RecordOf(w.st, w.st.proposalQueue[i].applicant)
    ensures IsLive(w.st.proposalQueue[i]) ==> !CustodyOutage(cfg, w.st, w.st.proposalQueue[i])
  {
    var p := w.st.proposalQueue[i];
    assert ProposalOk(w.st, p);
    if IsLive(p) {
      assert TributeOnRecord(w.st, p);
      RecordBacked(cfg, w.st, p.applicant);
    }
  }

  lemma EscrowLeavesDeposit(cfg: Config, w: World, i: nat)
    requires EscrowOk(cfg, w.st) && QueueOk(cfg, w) && i < |w.st.proposalQueue| && !w.st.proposalQueue[i].processed
    ensures cfg.existentialDeposit <= Free(w.st.balances, cfg.custodyAccount) - w.st.proposalQueue[i].tokenTribute
  {
    EscrowCoversTribute(cfg, w, i);
    RecordBacked(cfg, w.st, w.st.proposalQueue[i].applicant);
  }

  // ----- what applicants have pledged -----

  /** All that an applicant has pledged in the proposals from `k` up to, not including, `n`. */
  function TributesOf(q: seq<Proposal>, a: AccountId, k: nat, n: nat): nat
    decreases n - k
  {
    if k >= n || k >= |q| then 0
    else (if q[k].applicant == a then q[k].tokenTribute else 0) + TributesOf(q, a, k + 1, n)
  }

  /** Every applicant's record covers all its pledges in that range together. */
  ghost predicate RecordsCover(s: Storage, k: nat, n: nat) {
    forall a :: TributesOf(s.proposalQueue, a, k, n) <= RecordOf(s, a)
  }

  lemma {:induction false} TributesAfterUpdate(q: seq<Proposal>, i: nat, p: Proposal, a: AccountId, k: nat, n: nat)
    requires i < k && i < |q|
    ensures TributesOf(q[i := p], a, k, n) == TributesOf(q, a, k, n)
    decreases n - k
  {
    if k < n {
      TributesAfterUpdate(q, i, p, a, k + 1, n);
    }
  }

  /** Processing takes a proposal out of the range and its tribute off the record. */
  lemma CoverAfterProcessing(cfg: Config, s: Storage, who: AccountId, k: nat, n: nat)
    requires ProcessProposalCheck(cfg, s, k).Accept? && k < n
    ensures RecordsCover(s, k, n) <==> RecordsCover(ProcessProposalEffect(cfg, s, who, k), k + 1, n)
  {
    var s' := ProcessProposalEffect(cfg, s, who, k);
    forall a: AccountId
      ensures RecordOf(s, a) - TributesOf(s.proposalQueue, a, k, n)
              == RecordOf(s', a) - TributesOf(s'.proposalQueue, a, k + 1, n)
    {
      TributesAfterUpdate(s.proposalQueue, k, s'.proposalQueue[k], a, k + 1, n);
    }
  }
}
