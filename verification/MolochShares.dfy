/**
 Conservation of shares: the running totals that the pallet updates call by call are the sums
 they stand for, and what is issued plus what is promised never exceeds the cap.
 */
module MolochShares {
  import opened Prelude
  import opened Sums
  import opened Moloch
  import opened MolochRuns

  function ShareMap(members: map<AccountId, Member>): map<AccountId, nat> {
    map a | a in members :: members[a].shares
  }

  /** The shares of all members. */
  ghost function SumShares(members: map<AccountId, Member>): nat {
    SumMap(ShareMap(members))
  }

  function PendingWeights(q: seq<Proposal>): seq<int> {
    seq(|q|, i requires 0 <= i < |q| => if q[i].processed then 0 else q[i].sharesRequested)
  }

  /** The shares requested by the proposals that are not processed yet. */
  function Pending(q: seq<Proposal>): int {
    SumSeq(PendingWeights(q))
  }

  function PassedWeights(q: seq<Proposal>): seq<int> {
    seq(|q|, i requires 0 <= i < |q| => if q[i].didPass then q[i].sharesRequested else 0)
  }

  /** The shares requested by the proposals that passed. */
  function Minted(q: seq<Proposal>): int {
    SumSeq(PassedWeights(q))
  }

  ghost predicate SharesOk(cfg: Config, w: World) {
    && w.st.totalShares == SumShares(w.st.members)
    && w.st.totalSharesRequested == Pending(w.st.proposalQueue)
    && w.st.totalShares + w.log.burned == 1 + Minted(w.st.proposalQueue)
    && w.st.totalShares + w.st.totalSharesRequested <= cfg.maxShares
  }

  lemma SharesUpdate(members: map<AccountId, Member>, a: AccountId, m: Member)
    ensures SumShares(members[a := m]) == SumShares(members) - MemberOf(members, a).shares + m.shares
  {
    SumMapUpdate(ShareMap(members), a, m.shares);
    assert ShareMap(members[a := m]) == ShareMap(members)[a := m.shares];
  }

  /** One member's shares are part of the total. */
  lemma SharesAtMostTotal(members: map<AccountId, Member>, a: AccountId)
    ensures MemberOf(members, a).shares <= SumShares(members)
  {
    if a in members {
      SumMapAtLeast(ShareMap(members), a);
    }
  }

  /** Minting adds exactly the requested shares, also when a delegate key is reset on the way and
      a member without shares comes into being. */
  lemma MintAddsShares(members: map<AccountId, Member>, delegates: map<AccountId, AccountId>, a: AccountId, shares: nat)
    ensures SumShares(MembersAfterPass(members, delegates, a, shares)) == SumShares(members) + shares
  {
    if a in members {
      SharesUpdate(members, a, members[a].(shares := members[a].shares + shares));
    } else {
      var reset := MembersAfterReset(members, delegates, a);
      if a in delegates {
        SharesUpdate(members, delegates[a], MemberOf(members, delegates[a]).(delegateKey := delegates[a]));
      }
      SharesUpdate(reset, a, Member(shares, 0, true, a));
    }
  }

  lemma QueueUpdate(q: seq<Proposal>, i: nat, p: Proposal)
    requires i < |q|
    ensures Pending(q[i := p]) == Pending(q) - PendingWeights(q)[i] + PendingWeights([p])[0]
    ensures Minted(q[i := p]) == Minted(q) - PassedWeights(q)[i] + PassedWeights([p])[0]
  {
    SumSeqUpdate(PendingWeights(q), i, PendingWeights([p])[0]);
    SumSeqUpdate(PassedWeights(q), i, PassedWeights([p])[0]);
    assert PendingWeights(q[i := p]) == PendingWeights(q)[i := PendingWeights([p])[0]];
    assert PassedWeights(q[i := p]) == PassedWeights(q)[i := PassedWeights([p])[0]];
  }

  lemma QueueAppend(q: seq<Proposal>, p: Proposal)
    ensures Pending(q + [p]) == Pending(q) + PendingWeights([p])[0]
    ensures Minted(q + [p]) == Minted(q) + PassedWeights([p])[0]
  {
    SumSeqAppend(PendingWeights(q), PendingWeights([p])[0]);
    SumSeqAppend(PassedWeights(q), PassedWeights([p])[0]);
    assert PendingWeights(q + [p]) == PendingWeights(q) + [PendingWeights([p])[0]];
    assert PassedWeights(q + [p]) == PassedWeights(q) + [PassedWeights([p])[0]];
  }

  /** An unprocessed proposal's request is part of the requested total. */
  lemma RequestAtMostPending(q: seq<Proposal>, i: nat)
    requires i < |q| && !q[i].processed
    ensures q[i].sharesRequested <= Pending(q)
  {
    SumSeqAtLeast(PendingWeights(q), i);
  }

  lemma PendingNonNegative(q: seq<Proposal>)
    ensures 0 <= Pending(q)
  {
    SumSeqNonNegative(PendingWeights(q));
  }

  lemma SummonSetsShares(cfg: Config, w: World, who: AccountId, c: Call)
    requires cfg.Valid() && c.Summon?
    requires w.st.members == map[] && w.st.proposalQueue == [] && w.st.totalSharesRequested == 0 && w.log.burned == 0
    requires Possible(cfg, w.st, Dispatch(who, c)) && Check(cfg, w.st, who, c).Accept?
    ensures SharesOk(cfg, Next(cfg, w, Dispatch(who, c)))
  {
    SharesUpdate(map[], who, Member(1, 0, true, who));
  }

  /** Processing takes a request off the requested total, and adds it to all other sums if it passes. */
  lemma ProcessMovesShares(cfg: Config, s: Storage, who: AccountId, i: nat)
    requires ProcessProposalCheck(cfg, s, i).Accept? && !s.proposalQueue[i].didPass
    ensures var s', p := ProcessProposalEffect(cfg, s, who, i), s.proposalQueue[i];
            var gain := if Passes(cfg, s, p) then p.sharesRequested else 0;
            && s'.totalShares == s.totalShares + gain && SumShares(s'.members) == SumShares(s.members) + gain
            && Minted(s'.proposalQueue) == Minted(s.proposalQueue) + gain
            && s'.totalSharesRequested == s.totalSharesRequested - p.sharesRequested
            && Pending(s'.proposalQueue) == Pending(s.proposalQueue) - p.sharesRequested
  {
    var p := s.proposalQueue[i];
    QueueUpdate(s.proposalQueue, i, p.(processed := true, didPass := Passes(cfg, s, p) || p.didPass));
    MintAddsShares(s.members, s.addressOfDelegates, p.applicant, p.sharesRequested);
  }

  lemma ProcessKeepsShares(cfg: Config, w: World, who: AccountId, i: nat)
    requires i < U128_LIMIT && Possible(cfg, w.st, Dispatch(who, ProcessProposal(i)))
    requires SharesOk(cfg, w) && ProcessProposalCheck(cfg, w.st, i).Accept?
    requires !w.st.proposalQueue[i].didPass
    ensures SharesOk(cfg, Next(cfg, w, Dispatch(who, ProcessProposal(i))))
  {
    ProcessMovesShares(cfg, w.st, who, i);
  }

  lemma VoteKeepsShares(cfg: Config, w: World, who: AccountId, i: nat, unit: u8)
    requires i < U128_LIMIT && Possible(cfg, w.st, Dispatch(who, SubmitVote(i, unit)))
    requires SharesOk(cfg, w) && SubmitVoteCheck(w.st, who, i, unit).Accept?
    ensures SharesOk(cfg, Next(cfg, w, Dispatch(who, SubmitVote(i, unit))))
  {
    var voter := DelegateOf(w.st, who);
    var m := w.st.members[voter];
    QueueUpdate(w.st.proposalQueue, i, Tallied(w.st.proposalQueue[i], unit, m.shares, w.st.totalShares));
    SharesUpdate(w.st.members, voter, m.(highestIndexYesVote := i));
  }

  lemma StepKeepsShares(cfg: Config, w: World, who: AccountId, c: Call)
    requires SharesOk(cfg, w) && !c.Summon?
    requires Possible(cfg, w.st, Dispatch(who, c)) && Check(cfg, w.st, who, c).Accept?
    requires forall i :: 0 <= i < |w.st.proposalQueue| && !w.st.proposalQueue[i].processed ==>
               !w.st.proposalQueue[i].didPass
    ensures SharesOk(cfg, Next(cfg, w, Dispatch(who, c)))
  {
    var s := w.st;
    match c
    case SubmitProposal(a, tribute, shares, details) =>
      QueueAppend(s.proposalQueue, NewProposal(s, who, a, tribute, shares, details));
    case SubmitVote(i, unit) => VoteKeepsShares(cfg, w, who, i, unit);
    case ProcessProposal(i) => ProcessKeepsShares(cfg, w, who, i);
    case Ragequit(burn) =>
      SharesUpdate(s.members, who, s.members[who].(shares := s.members[who].shares - burn));
    case Abort(i) =>
      QueueUpdate(s.proposalQueue, i, s.proposalQueue[i].(tokenTribute := 0, aborted := true));
    case _ =>
  }
}
