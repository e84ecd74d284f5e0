/**
 Liveness of the queue: on disciplined runs nothing can keep a due proposal from being processed, and on
 other runs the storage says exactly whether something does.
 */
module MolochProgress {
  import opened Prelude
  import opened Currency
  import opened Moloch
  import opened MolochRuns
  import opened MolochSchedule
  import opened MolochInvariant
  import opened MolochEscrow
  import opened MolochTheorems

  /** `process_proposal` for the indices from `k` up to, not including, `j`. */
  function ProcessRange(who: AccountId, k: u128, j: u128): seq<Event>
    decreases j - k
  {
    if k >= j then [] else [Dispatch(who, ProcessProposal(k))] + ProcessRange(who, k + 1, j)
  }

  lemma RangeIsEmpty(events: seq<Event>, who: AccountId, k: u128)
    ensures events + ProcessRange(who, k, k) == events
  {
  }

  lemma RangeFromNext(events: seq<Event>, who: AccountId, k: u128, j: u128)
    requires k < j
    ensures events + ProcessRange(who, k, j)
            == (events + [Dispatch(who, ProcessProposal(k))]) + ProcessRange(who, k + 1, j)
  {
  }

  /** If proposal j is past its grace period, so is the first unprocessed one before it. */
  lemma FirstPassesGuards(cfg: Config, w: World, j: nat)
    requires QueueOk(cfg, w) && |w.log.processed| <= j && PastGrace(w.st, j)
    ensures ProcessGuards(w.st, |w.log.processed|).Accept?
  {
    var k := |w.log.processed|;
    assert k < j ==> w.st.proposalQueue[k].startingPeriod < w.st.proposalQueue[j].startingPeriod;
  }

  lemma FirstSucceeds(cfg: Config, w: World, j: nat)
    requires cfg.Valid() && Live(cfg, w) && EscrowOk(cfg, w.st)
    requires |w.log.processed| <= j && PastGrace(w.st, j)
    ensures ProcessProposalCheck(cfg, w.st, |w.log.processed|).Accept?
  {
    FirstPassesGuards(cfg, w, j);
    ProcessPanicsExactlyOnMissingRecord(cfg, w, |w.log.processed|);
    EscrowCoversTribute(cfg, w, |w.log.processed|);
  }

  lemma ProcessingKeepsTime(cfg: Config, w: World, who: AccountId, k: u128, j: nat)
    requires ProcessProposalCheck(cfg, w.st, k).Accept? && !cfg.Internal(who) && PastGrace(w.st, j)
    ensures var w' := Next(cfg, w, Dispatch(who, ProcessProposal(k)));
            && w'.log.processed == w.log.processed + [k]
            && w'.log.summons == w.log.summons && PastGrace(w'.st, j)
  {
    assert Period(ProcessProposalEffect(cfg, w.st, who, k)) == Period(w.st);
  }

  lemma DisciplinedSnoc(cfg: Config, balances: Ledger, events: seq<Event>, e: Event)
    requires Disciplined(cfg, balances, events) && Careful(cfg, Run(cfg, balances, events).st, e)
    ensures Disciplined(cfg, balances, events + [e])
  {
    assert (events + [e])[..|events|] == events;
  }

  lemma ReadyStaysReady(cfg: Config, balances: Ledger, events: seq<Event>, who: AccountId, k: u128, j: nat)
    requires Ready(cfg, balances, events, k, j) && !cfg.Internal(who) && k <= j < U128_LIMIT
    ensures Ready(cfg, balances, events + [Dispatch(who, ProcessProposal(k))], k + 1, j)
  {
    RunsKeepInv(cfg, balances, events);
    RunsKeepEscrow(cfg, balances, events);
    FirstSucceeds(cfg, Run(cfg, balances, events), j);
    ProcessingKeepsTime(cfg, Run(cfg, balances, events), who, k, j);
    RunSnoc(cfg, balances, events, Dispatch(who, ProcessProposal(k)));
    DisciplinedSnoc(cfg, balances, events, Dispatch(who, ProcessProposal(k)));
  }

  lemma ReadyFromNext(cfg: Config, balances: Ledger, events: seq<Event>, who: AccountId, k: u128, j: nat)
    requires k <= j && j + 1 < U128_LIMIT
    requires Ready(cfg, balances, (events + [Dispatch(who, ProcessProposal(k))]) + ProcessRange(who, k + 1, j + 1),
                   j + 1, j)
    ensures Ready(cfg, balances, events + ProcessRange(who, k, j + 1), j + 1, j)
  {
    RangeFromNext(events, who, k, j + 1);
  }

  /** When proposal j is past its grace period, anyone can bring the queue up to date: processing from
      the first unprocessed proposal `k` through j succeeds at every step. */
  lemma {:induction false} QueueCatchesUp(cfg: Config, balances: Ledger, events: seq<Event>, who: AccountId,
                                          k: u128, j: nat)
    requires Ready(cfg, balances, events, k, j) && !cfg.Internal(who) && k <= j + 1 < U128_LIMIT
    ensures Ready(cfg, balances, events + ProcessRange(who, k, j + 1), j + 1, j)
    decreases j + 1 - k
  {
    if k == j + 1 {
      RangeIsEmpty(events, who, k);
    } else {
      ReadyStaysReady(cfg, balances, events, who, k, j);
      QueueCatchesUp(cfg, balances, events + [Dispatch(who, ProcessProposal(k))], who, k + 1, j);
      ReadyFromNext(cfg, balances, events, who, k, j);
    }
  }

  /** .. and afterwards proposal j and all before it are processed. */
  lemma CaughtUpIsProcessed(cfg: Config, balances: Ledger, events: seq<Event>, j: nat)
    requires Ready(cfg, balances, events, j + 1, j)
    ensures forall i: nat :: i <= j ==> ProcessedAt(Run(cfg, balances, events), i)
  {
    RunsKeepInv(cfg, balances, events);
  }

  // ----- off the discipline -----

  /** The world after processing the proposals from `k` up to, not including, `n`. */
  function ProcessAll(cfg: Config, w: World, who: AccountId, k: u128, n: u128): World
    decreases n - k
  {
    if k >= n then w else ProcessAll(cfg, Next(cfg, w, Dispatch(who, ProcessProposal(k))), who, k + 1, n)
  }

  lemma {:induction false} RunOfRange(cfg: Config, balances: Ledger, events: seq<Event>, who: AccountId, k: u128, n: u128)
    ensures Run(cfg, balances, events + ProcessRange(who, k, n))
            == ProcessAll(cfg, Run(cfg, balances, events), who, k, n)
    decreases n - k
  {
    if k < n {
      RunSnoc(cfg, balances, events, Dispatch(who, ProcessProposal(k)));
      RunOfRange(cfg, balances, events + [Dispatch(who, ProcessProposal(k))], who, k + 1, n);
      RangeFromNext(events, who, k, n);
    } else {
      assert events + ProcessRange(who, k, n) == events;
    }
  }

  /** Nothing beyond the first unprocessed proposal can be processed before it. */
  lemma {:induction false} NothingPastGap(cfg: Config, w: World, who: AccountId, m: u128, n: u128)
    requires QueueOk(cfg, w) && |w.log.processed| < m
    ensures ProcessAll(cfg, w, who, m, n) == w
    decreases n - m
  {
    if m < n {
      if ProcessGuards(w.st, m).Accept? {
        ProcessHitsFirst(w, m);
      }
      NothingPastGap(cfg, w, who, m + 1, n);
    }
  }

  lemma FirstNeedsItsRecord(cfg: Config, w: World, k: nat, j: nat)
    requires cfg.Valid() && FirstDue(cfg, w, k, j) && k <= j
    ensures k < |w.st.proposalQueue|
    ensures ProcessProposalCheck(cfg, w.st, k)
            == if RecordOf(w.st, w.st.proposalQueue[k].applicant) < w.st.proposalQueue[k].tokenTribute then Trap else Accept
  {
    FirstPassesGuards(cfg, w, j);
    ProcessPanicsExactlyOnMissingRecord(cfg, w, k);
  }

  lemma DueAfterNext(cfg: Config, w: World, who: AccountId, k: u128, j: nat)
    requires FirstDue(cfg, w, k, j) && !cfg.Internal(who) && k <= j && ProcessProposalCheck(cfg, w.st, k).Accept?
    ensures FirstDue(cfg, Next(cfg, w, Dispatch(who, ProcessProposal(k))), k + 1, j)
  {
    StepKeepsLive(cfg, w, who, ProcessProposal(k));
    ProcessingKeepsTime(cfg, w, who, k, j);
  }

  /** The claim below for one world: the queue catches up with j exactly when the records cover the pledges. */
  ghost predicate CatchUpIsExact(cfg: Config, w: World, who: AccountId, k: u128, j: nat)
    requires j + 1 < U128_LIMIT
  {
    |ProcessAll(cfg, w, who, k, j + 1).log.processed| == j + 1 <==> RecordsCover(w.st, k, j + 1)
  }

  lemma ExactFromNext(cfg: Config, w: World, who: AccountId, k: u128, j: nat)
    requires !cfg.Internal(who) && k <= j && j + 1 < U128_LIMIT && ProcessProposalCheck(cfg, w.st, k).Accept?
    requires CatchUpIsExact(cfg, Next(cfg, w, Dispatch(who, ProcessProposal(k))), who, k + 1, j)
    ensures CatchUpIsExact(cfg, w, who, k, j)
  {
    CoverAfterProcessing(cfg, w.st, who, k, j + 1);
  }

  lemma ExactWhenStuck(cfg: Config, w: World, who: AccountId, k: u128, j: nat)
    requires QueueOk(cfg, w) && |w.log.processed| == k && k <= j && j + 1 < U128_LIMIT
    requires ProcessProposalCheck(cfg, w.st, k).Trap?
    requires k < |w.st.proposalQueue|
    requires RecordOf(w.st, w.st.proposalQueue[k].applicant) < w.st.proposalQueue[k].tokenTribute
    ensures CatchUpIsExact(cfg, w, who, k, j)
  {
    NothingPastGap(cfg, w, who, k + 1, j + 1);
    assert TributesOf(w.st.proposalQueue, w.st.proposalQueue[k].applicant, k, j + 1)
        >= w.st.proposalQueue[k].tokenTribute;
  }

  lemma {:induction false} WorldCatchesUpIff(cfg: Config, w: World, who: AccountId, k: u128, j: nat)
    requires cfg.Valid() && FirstDue(cfg, w, k, j) && !cfg.Internal(who) && k <= j + 1 < U128_LIMIT
    ensures CatchUpIsExact(cfg, w, who, k, j)
    decreases j + 1 - k
  {
    if k <= j {
      FirstNeedsItsRecord(cfg, w, k, j);
      if ProcessProposalCheck(cfg, w.st, k).Accept? {
        DueAfterNext(cfg, w, who, k, j);
        WorldCatchesUpIff(cfg, Next(cfg, w, Dispatch(who, ProcessProposal(k))), who, k + 1, j);
        ExactFromNext(cfg, w, who, k, j);
      } else {
        ExactWhenStuck(cfg, w, who, k, j);
      }
    }
  }

  lemma RunCatchesUpIff(cfg: Config, balances: Ledger, events: seq<Event>, who: AccountId, k: u128, j: nat)
    requires SingleSummon(cfg, balances, events) && !cfg.Internal(who) && k <= j + 1 < U128_LIMIT
    requires |Run(cfg, balances, events).log.processed| == k && PastGrace(Run(cfg, balances, events).st, j)
    ensures CatchUpIsExact(cfg, Run(cfg, balances, events), who, k, j)
  {
    RunsKeepInv(cfg, balances, events);
    WorldCatchesUpIff(cfg, Run(cfg, balances, events), who, k, j);
  }

  /** From worlds to runs. */
  lemma ClaimOfRange(cfg: Config, balances: Ledger, events: seq<Event>, who: AccountId, k: u128, j: nat)
    requires j + 1 < U128_LIMIT && CatchUpIsExact(cfg, Run(cfg, balances, events), who, k, j)
    ensures |Run(cfg, balances, events + ProcessRange(who, k, j + 1)).log.processed| == j + 1
            <==> RecordsCover(Run(cfg, balances, events).st, k, j + 1)
  {
    RunOfRange(cfg, balances, events, who, k, j + 1);
  }

  /** On any run, processing from the first unprocessed proposal `k` through a due proposal j brings the
      queue up to date if and only if every applicant's record covers all its pledges in between. */
  lemma CatchesUpIff(cfg: Config, balances: Ledger, events: seq<Event>, who: AccountId, k: u128, j: nat)
    requires SingleSummon(cfg, balances, events) && !cfg.Internal(who) && k <= j + 1 < U128_LIMIT
    requires |Run(cfg, balances, events).log.processed| == k && PastGrace(Run(cfg, balances, events).st, j)
    ensures |Run(cfg, balances, events + ProcessRange(who, k, j + 1)).log.processed| == j + 1
            <==> RecordsCover(Run(cfg, balances, events).st, k, j + 1)
  {
    RunCatchesUpIff(cfg, balances, events, who, k, j);
    ClaimOfRange(cfg, balances, events, who, k, j);
  }
}
