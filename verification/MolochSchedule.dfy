/**
 The proposal queue as a timetable: starting periods leave no gaps ahead of the clock,
 proposals are processed strictly in order, and a processed proposal's windows for voting
 and aborting are over.
 */
module MolochSchedule {
  import opened Prelude
  import opened Moloch
  import opened MolochRuns

  ghost predicate RulesOk(cfg: Config, s: Storage) {
    && s.rules.summonTime <= s.now
    && s.rules.abortWindow <= s.rules.votingPeriodLength
    && s.rules.processingReward <= s.rules.proposalDeposit
    && s.rules.dilutionBound <= cfg.maxDilutionBound
  }

  ghost predicate Increasing(q: seq<Proposal>) {
    forall i, j :: 0 <= i < j < |q| ==> q[i].startingPeriod < q[j].startingPeriod
  }

  /** A proposal that starts later than the next period starts right after its predecessor. */
  predicate GapFreeAt(q: seq<Proposal>, period: nat, i: nat)
    requires i < |q|
  {
    1 <= q[i].startingPeriod
    && (q[i].startingPeriod <= period + 1 || (i > 0 && q[i].startingPeriod == q[i - 1].startingPeriod + 1))
  }

  ghost predicate GapFree(q: seq<Proposal>, period: nat) {
    forall i: nat :: i < |q| ==> GapFreeAt(q, period, i)
  }

  ghost predicate ScheduleOk(s: Storage) {
    && (s.proposalQueue != [] ==> HasPeriod(s))
    && Increasing(s.proposalQueue)
    && GapFree(s.proposalQueue, Period(s))
  }

  /** What holds of every proposal by itself, whatever happens to the others. */
  ghost predicate ProposalOk(s: Storage, p: Proposal) {
    && (p.processed ==> s.rules.votingPeriodLength + s.rules.gracePeriodLength + p.startingPeriod <= Period(s))
    && (p.didPass ==> p.processed && !p.aborted && p.yesVotes > p.noVotes)
    && (p.aborted ==> p.tokenTribute == 0)
  }

  ghost predicate ProposalsOk(s: Storage) {
    forall i :: 0 <= i < |s.proposalQueue| ==> ProposalOk(s, s.proposalQueue[i])
  }

  /** The processed proposals are a prefix of the queue, and they were processed in this order. */
  ghost predicate OrderOk(w: World) {
    && |w.log.processed| <= |w.st.proposalQueue|
    && (forall i :: 0 <= i < |w.log.processed| ==> w.log.processed[i] == i)
    && (forall i :: 0 <= i < |w.st.proposalQueue| ==> (w.st.proposalQueue[i].processed <==> i < |w.log.processed|))
  }

  ghost predicate QueueOk(cfg: Config, w: World) {
    RulesOk(cfg, w.st) && ScheduleOk(w.st) && ProposalsOk(w.st) && OrderOk(w)
  }

  lemma {:induction false} MultiplesApart(x: nat, y: nat, d: nat)
    ensures x <= y || d * y + d <= d * x
  {
    if x > y {
      MultiplesApart(x - 1, y, d);
      assert d * x == d * (x - 1) + d;
    }
  }

  lemma DivMonotone(a: nat, b: nat, d: nat)
    requires a <= b && d > 0
    ensures a / d <= b / d
  {
    MultiplesApart(a / d, b / d, d);
  }

  lemma PeriodMonotone(s: Storage, millis: nat)
    ensures Period(s) <= Period(s.(now := s.now + millis)) || !HasPeriod(s)
    ensures HasPeriod(s) ==> HasPeriod(s.(now := s.now + millis))
  {
    if HasPeriod(s) {
      var t := s.now - s.rules.summonTime;
      DivMonotone(t, t + millis, 1000);
      DivMonotone(t / 1000, (t + millis) / 1000, s.rules.periodDuration);
    }
  }

  lemma AdvanceKeepsQueue(cfg: Config, w: World, millis: nat)
    requires QueueOk(cfg, w)
    ensures QueueOk(cfg, Next(cfg, w, Advance(millis)))
  {
    PeriodMonotone(w.st, millis);
    if HasPeriod(w.st) {
      LaterPeriodGapFree(w.st.proposalQueue, Period(w.st), Period(w.st.(now := w.st.now + millis)));
    }
    assert forall i :: 0 <= i < |w.st.proposalQueue| ==> ProposalOk(w.st, w.st.proposalQueue[i]);
  }

  /** A vote is cast before the voting window closes, and nothing is processed before that. */
  lemma VoteHitsUnprocessed(cfg: Config, w: World, who: AccountId, i: nat, unit: u8)
    requires QueueOk(cfg, w) && SubmitVoteCheck(w.st, who, i, unit).Accept?
    ensures !w.st.proposalQueue[i].processed
  {
    assert ProposalOk(w.st, w.st.proposalQueue[i]);
  }

  lemma AbortHitsUnprocessed(cfg: Config, w: World, who: AccountId, i: nat)
    requires QueueOk(cfg, w) && AbortCheck(w.st, who, i).Accept?
    ensures !w.st.proposalQueue[i].processed
  {
    assert ProposalOk(w.st, w.st.proposalQueue[i]);
  }

  /** The only index that can be processed is the first unprocessed one. */
  lemma ProcessHitsFirst(w: World, i: nat)
    requires OrderOk(w) && ProcessGuards(w.st, i).Accept?
    ensures i == |w.log.processed|
  {
  }

  lemma SubmitKeepsQueue(cfg: Config, w: World, who: AccountId, c: Call)
    requires QueueOk(cfg, w) && c.SubmitProposal?
    requires Possible(cfg, w.st, Dispatch(who, c)) && Check(cfg, w.st, who, c).Accept?
    ensures QueueOk(cfg, Next(cfg, w, Dispatch(who, c)))
  {
    var q := w.st.proposalQueue;
    var p := NewProposal(w.st, who, c.applicant, c.tokenTribute, c.sharesRequested, c.details);
    QueueAppended(q, p, Period(w.st));
    assert forall i :: 0 <= i < |q| ==> ProposalOk(w.st, q[i]);
  }

  lemma QueueAppended(q: seq<Proposal>, p: Proposal, period: nat)
    requires Increasing(q) && GapFree(q, period)
    requires p.startingPeriod == (if LastStart(q) < period then period else LastStart(q)) + 1
    ensures Increasing(q + [p]) && GapFree(q + [p], period)
  {
    assert forall i :: 0 <= i < |q| ==> q[i].startingPeriod <= LastStart(q) < p.startingPeriod;
    forall i: nat | i < |q|
      ensures GapFreeAt(q + [p], period, i)
    {
      assert GapFreeAt(q, period, i);
    }
    assert GapFreeAt(q + [p], period, |q|);
  }

  lemma SameStartsSameSchedule(q: seq<Proposal>, q': seq<Proposal>, period: nat)
    requires Increasing(q) && GapFree(q, period) && |q'| == |q|
    requires forall j :: 0 <= j < |q| ==> q'[j].startingPeriod == q[j].startingPeriod
    ensures Increasing(q') && GapFree(q', period)
  {
    forall i: nat | i < |q'|
      ensures GapFreeAt(q', period, i)
    {
      assert GapFreeAt(q, period, i);
      if i > 0 {
        assert q'[i - 1].startingPeriod == q[i - 1].startingPeriod;
      }
    }
  }

  lemma PrefixSchedule(q: seq<Proposal>, n: nat, period: nat)
    requires Increasing(q) && GapFree(q, period) && n <= |q|
    ensures Increasing(q[..n]) && GapFree(q[..n], period)
  {
    forall i: nat | i < n
      ensures GapFreeAt(q[..n], period, i)
    {
      assert GapFreeAt(q, period, i);
    }
  }

  lemma LaterPeriodGapFree(q: seq<Proposal>, period: nat, later: nat)
    requires GapFree(q, period) && period <= later
    ensures GapFree(q, later)
  {
    forall i: nat | i < |q|
      ensures GapFreeAt(q, later, i)
    {
      assert GapFreeAt(q, period, i);
    }
  }

  /** Overwriting one proposal in place, without moving it in time. */
  lemma OverwriteKeepsQueue(cfg: Config, w: World, w': World, i: nat, p: Proposal)
    requires QueueOk(cfg, w) && i < |w.st.proposalQueue|
    requires w'.st.rules == w.st.rules && w'.st.now == w.st.now
    requires w'.st.proposalQueue == w.st.proposalQueue[i := p]
    requires p.startingPeriod == w.st.proposalQueue[i].startingPeriod && ProposalOk(w.st, p)
    requires (w'.log.processed == w.log.processed && p.processed == w.st.proposalQueue[i].processed)
             || (w'.log.processed == w.log.processed + [i] && i == |w.log.processed| && p.processed)
    ensures QueueOk(cfg, w')
  {
    var q, q' := w.st.proposalQueue, w'.st.proposalQueue;
    assert Period(w'.st) == Period(w.st);
    SameStartsSameSchedule(q, q', Period(w.st));
    forall j | 0 <= j < |q'|
      ensures ProposalOk(w'.st, q'[j])
    {
      assert ProposalOk(w.st, q[j]);
    }
  }

  lemma VoteKeepsQueue(cfg: Config, w: World, who: AccountId, i: nat, unit: u8)
    requires i < U128_LIMIT && Possible(cfg, w.st, Dispatch(who, SubmitVote(i, unit)))
    requires QueueOk(cfg, w) && SubmitVoteCheck(w.st, who, i, unit).Accept?
    ensures QueueOk(cfg, Next(cfg, w, Dispatch(who, SubmitVote(i, unit))))
  {
    VoteHitsUnprocessed(cfg, w, who, i, unit);
    var w' := Next(cfg, w, Dispatch(who, SubmitVote(i, unit)));
    OverwriteKeepsQueue(cfg, w, w', i, w'.st.proposalQueue[i]);
  }

  lemma ProcessKeepsQueue(cfg: Config, w: World, who: AccountId, i: nat)
    requires i < U128_LIMIT && Possible(cfg, w.st, Dispatch(who, ProcessProposal(i)))
    requires QueueOk(cfg, w) && ProcessProposalCheck(cfg, w.st, i).Accept?
    ensures QueueOk(cfg, Next(cfg, w, Dispatch(who, ProcessProposal(i))))
  {
    ProcessHitsFirst(w, i);
    var w' := Next(cfg, w, Dispatch(who, ProcessProposal(i)));
    OverwriteKeepsQueue(cfg, w, w', i, w'.st.proposalQueue[i]);
  }

  lemma AbortKeepsQueue(cfg: Config, w: World, who: AccountId, i: nat)
    requires i < U128_LIMIT && Possible(cfg, w.st, Dispatch(who, Abort(i)))
    requires QueueOk(cfg, w) && AbortCheck(w.st, who, i).Accept?
    ensures QueueOk(cfg, Next(cfg, w, Dispatch(who, Abort(i))))
  {
    AbortHitsUnprocessed(cfg, w, who, i);
    var w' := Next(cfg, w, Dispatch(who, Abort(i)));
    OverwriteKeepsQueue(cfg, w, w', i, w'.st.proposalQueue[i]);
  }

  lemma StepKeepsQueue(cfg: Config, w: World, who: AccountId, c: Call)
    requires QueueOk(cfg, w) && !c.Summon?
    requires Possible(cfg, w.st, Dispatch(who, c)) && Check(cfg, w.st, who, c).Accept?
    ensures QueueOk(cfg, Next(cfg, w, Dispatch(who, c)))
  {
    match c
    case SubmitProposal(_, _, _, _) => SubmitKeepsQueue(cfg, w, who, c);
    case SubmitVote(i, unit) => VoteKeepsQueue(cfg, w, who, i, unit);
    case ProcessProposal(i) => ProcessKeepsQueue(cfg, w, who, i);
    case Abort(i) => AbortKeepsQueue(cfg, w, who, i);
    case _ =>
  }

  // ----- the timetable -----

  /** How many proposals have not started yet. */
  function Waiting(q: seq<Proposal>, period: nat): nat {
    if q == [] then 0
    else Waiting(q[..|q| - 1], period) + if q[|q| - 1].startingPeriod > period then 1 else 0
  }

  /** A proposal can be voted on from its starting period on, for as many periods as voting lasts. */
  predicate IsOpen(p: Proposal, period: nat, votingLength: nat) {
    p.startingPeriod <= period < p.startingPeriod + votingLength
  }

  /** How many proposals can be voted on. */
  function Open(q: seq<Proposal>, period: nat, votingLength: nat): nat {
    if q == [] then 0
    else Open(q[..|q| - 1], period, votingLength)
         + if IsOpen(q[|q| - 1], period, votingLength) then 1 else 0
  }

  /** The u proposals that have not started are the last u, and they occupy the next u periods. */
  lemma {:induction false} WaitingOccupyNextPeriods(q: seq<Proposal>, period: nat)
    requires Increasing(q) && GapFree(q, period)
    ensures Waiting(q, period) <= |q|
    ensures forall i :: 0 <= i < |q| - Waiting(q, period) ==> q[i].startingPeriod <= period
    ensures forall i :: |q| - Waiting(q, period) <= i < |q| ==>
              q[i].startingPeriod == period + 1 + (i - (|q| - Waiting(q, period)))
  {
    if q != [] {
      var n := |q| - 1;
      var init := q[..n];
      assert forall i :: 0 <= i < n ==> init[i] == q[i];
      PrefixSchedule(q, n, period);
      WaitingOccupyNextPeriods(init, period);
      assert GapFreeAt(q, period, n);
      assert forall i :: 0 <= i < n ==> init[i].startingPeriod < q[n].startingPeriod;
      if n > 0 {
        assert init[n - 1].startingPeriod == q[n - 1].startingPeriod;
      }
    }
  }

  lemma {:induction false} OpenBelow(q: seq<Proposal>, period: nat, votingLength: nat, last: nat)
    requires Increasing(q)
    requires forall i :: 0 <= i < |q| ==> 1 <= q[i].startingPeriod <= last
    requires last <= period
    ensures Open(q, period, votingLength) <= if last + votingLength < period then 0 else last + votingLength - period
  {
    if q != [] {
      var n := |q| - 1;
      assert forall i :: 0 <= i < n ==> q[..n][i] == q[i] && q[i].startingPeriod < q[n].startingPeriod;
      OpenBelow(q[..n], period, votingLength, q[n].startingPeriod - 1);
    }
  }

  /** Never more proposals are open for voting than the voting period is long. */
  lemma {:induction false} OpenAtMostVotingLength(q: seq<Proposal>, period: nat, votingLength: nat)
    requires Increasing(q)
    requires forall i: nat :: i < |q| ==> 1 <= q[i].startingPeriod
    ensures Open(q, period, votingLength) <= votingLength
  {
    if q != [] {
      var n := |q| - 1;
      assert forall i :: 0 <= i < n ==> q[..n][i] == q[i] && q[i].startingPeriod < q[n].startingPeriod;
      if q[n].startingPeriod <= period {
        OpenBelow(q, period, votingLength, q[n].startingPeriod);
      } else {
        OpenAtMostVotingLength(q[..n], period, votingLength);
      }
    }
  }
}
