/**
 What holds in every state that a run with a single summoning can reach.
 */
module MolochInvariant {
  import opened Prelude
  import opened Currency
  import opened Moloch
  import opened MolochRuns
  import opened MolochShares
  import opened MolochSchedule
  import opened MolochVoting

  ghost predicate Unsummoned(w: World) {
    && w.st.members == map[] && w.st.proposalQueue == [] && w.st.proposalVotes == map[]
    && w.st.totalShares == 0 && w.st.totalSharesRequested == 0
    && w.log.ballots == map[] && w.log.mintedOver == map[] && w.log.burned == 0 && w.log.processed == []
  }

  ghost predicate Live(cfg: Config, w: World) {
    SharesOk(cfg, w) && QueueOk(cfg, w) && VoteRegisterOk(w.st) && BallotsOk(w) && DilutionOk(w)
  }

  ghost predicate Inv(cfg: Config, w: World) {
    (w.log.summons == 0 ==> Unsummoned(w)) && (w.log.summons == 1 ==> Live(cfg, w))
  }

  lemma FirstSummonStartsLive(cfg: Config, w: World, who: AccountId, c: Call)
    requires cfg.Valid() && Unsummoned(w) && c.Summon?
    requires Possible(cfg, w.st, Dispatch(who, c)) && Check(cfg, w.st, who, c).Accept?
    ensures Live(cfg, Next(cfg, w, Dispatch(who, c)))
  {
    SummonSetsShares(cfg, w, who, c);
    var w' := Next(cfg, w, Dispatch(who, c));
    assert QueueOk(cfg, w');
    assert HighestIsVoted(w'.st, who);
  }

  /** Before the first summoning there are no members, so nothing but custody and delegate keys can change. */
  lemma UnsummonedStays(cfg: Config, w: World, who: AccountId, c: Call)
    requires Unsummoned(w) && !c.Summon?
    requires Possible(cfg, w.st, Dispatch(who, c)) && Check(cfg, w.st, who, c).Accept?
    ensures Unsummoned(Next(cfg, w, Dispatch(who, c))) && Next(cfg, w, Dispatch(who, c)).log.summons == w.log.summons
  {
  }

  lemma StepKeepsLive(cfg: Config, w: World, who: AccountId, c: Call)
    requires Live(cfg, w) && !c.Summon?
    requires Possible(cfg, w.st, Dispatch(who, c)) && Check(cfg, w.st, who, c).Accept?
    ensures Live(cfg, Next(cfg, w, Dispatch(who, c)))
  {
    assert forall i :: 0 <= i < |w.st.proposalQueue| ==> ProposalOk(w.st, w.st.proposalQueue[i]);
    StepKeepsShares(cfg, w, who, c);
    StepKeepsQueue(cfg, w, who, c);
    StepKeepsRegister(cfg, w.st, who, c);
    StepKeepsBallots(cfg, w, who, c);
    StepKeepsDilution(cfg, w, who, c);
  }

  /** The books of two worlds agree in everything but the clock and the ledger. */
  lemma SameBooks(cfg: Config, w: World, w': World)
    requires Live(cfg, w) && w'.log == w.log
    requires w'.st == w.st.(now := w'.st.now, balances := w'.st.balances)
    ensures SharesOk(cfg, w') && VoteRegisterOk(w'.st) && BallotsOk(w') && DilutionOk(w')
  {
    SameVotesKeepBallots(w, w');
    SamePassedKeepDilution(w, w');
    assert forall m :: m in w.st.members ==> HighestIsVoted(w.st, m) && HighestIsVoted(w'.st, m);
  }

  lemma ElsewhereKeepsQueue(cfg: Config, w: World, ledger: Ledger)
    requires QueueOk(cfg, w)
    ensures QueueOk(cfg, Next(cfg, w, Elsewhere(ledger)))
  {
    var s' := w.st.(balances := ledger);
    assert Period(s') == Period(w.st);
    assert forall i :: 0 <= i < |w.st.proposalQueue| ==> ProposalOk(w.st, w.st.proposalQueue[i]);
  }

  /** Neither the clock nor the rest of the chain touches the guild's books. */
  lemma OutsideKeepsLive(cfg: Config, w: World, e: Event)
    requires Live(cfg, w) && !e.Dispatch?
    ensures Live(cfg, Next(cfg, w, e))
  {
    SameBooks(cfg, w, Next(cfg, w, e));
    if e.Advance? {
      AdvanceKeepsQueue(cfg, w, e.millis);
    } else {
      ElsewhereKeepsQueue(cfg, w, e.ledger);
    }
  }

  lemma NextKeepsInv(cfg: Config, w: World, e: Event)
    requires cfg.Valid() && Inv(cfg, w) && Next(cfg, w, e).log.summons <= 1
    ensures Inv(cfg, Next(cfg, w, e))
  {
    SummonsGrow(cfg, w, e);
    if e.Dispatch? && Possible(cfg, w.st, e) && Check(cfg, w.st, e.who, e.call).Accept? {
      if e.call.Summon? {
        FirstSummonStartsLive(cfg, w, e.who, e.call);
      } else if w.log.summons == 0 {
        UnsummonedStays(cfg, w, e.who, e.call);
      } else {
        StepKeepsLive(cfg, w, e.who, e.call);
      }
    } else if !e.Dispatch? && w.log.summons == 1 {
      OutsideKeepsLive(cfg, w, e);
    }
  }

  lemma {:induction false} RunsKeepInv(cfg: Config, balances: Ledger, events: seq<Event>)
    requires cfg.Valid() && Run(cfg, balances, events).log.summons <= 1
    ensures Inv(cfg, Run(cfg, balances, events))
  {
    if events != [] {
      var prefix := events[..|events| - 1];
      SummonsGrow(cfg, Run(cfg, balances, prefix), events[|events| - 1]);
      RunsKeepInv(cfg, balances, prefix);
      NextKeepsInv(cfg, Run(cfg, balances, prefix), events[|events| - 1]);
    }
  }
}
