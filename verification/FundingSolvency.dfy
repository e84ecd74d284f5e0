/**
 The one account behind all rounds. It always holds what every round may still have to pay out and
 everything that no round will ever pay out, on runs in which the transfers that came with the
 donations and votes went through.
 */
module FundingSolvency {
  import opened Prelude
  import opened Sums
  import opened Currency
  import opened QuadraticFunding
  import opened FundingRuns
  import opened FundingSums
  import opened FundingBooks

  // ----- what the account has to hold -----

  /** The part of the pool that `end_round` does not hand out: the remainder of the division, or the
      whole pool if there is no support area. */
  function Undistributed(rnd: Round): nat {
    if rnd.totalSupportArea > 0 then rnd.supportPool % rnd.totalSupportArea else rnd.supportPool
  }

  ghost function Reserve(projects: Projects, r: nat, rnd: Round): nat {
    if rnd.ongoing then rnd.supportPool + GrantsOf(projects, r) + rnd.totalTax
    else Undistributed(rnd) + rnd.totalTax
  }

  ghost function Reserves(rounds: map<nat, Round>, projects: Projects): nat {
    if rounds == map[] then 0 else
      var r :| r in rounds;
      Reserve(projects, r, rounds[r]) + Reserves(rounds - {r}, projects)
  }

  lemma {:induction false} ReservesRemove(rounds: map<nat, Round>, projects: Projects, r: nat)
    requires r in rounds
    ensures Reserves(rounds, projects) == Reserve(projects, r, rounds[r]) + Reserves(rounds - {r}, projects)
    decreases |rounds|
  {
    var j :| j in rounds
             && Reserves(rounds, projects) == Reserve(projects, j, rounds[j]) + Reserves(rounds - {j}, projects);
    if j != r {
      ReservesRemove(rounds - {j}, projects, r);
      ReservesRemove(rounds - {r}, projects, j);
      assert rounds - {j} - {r} == rounds - {r} - {j};
    }
  }

  lemma {:induction false} ReservesAgree(rounds: map<nat, Round>, projects: Projects, projects': Projects)
    requires forall r :: r in rounds ==> GrantsOf(projects', r) == GrantsOf(projects, r)
    ensures Reserves(rounds, projects') == Reserves(rounds, projects)
    decreases |rounds|
  {
    if rounds != map[] {
      var r :| r in rounds;
      ReservesRemove(rounds, projects, r);
      ReservesRemove(rounds, projects', r);
      ReservesAgree(rounds - {r}, projects, projects');
    }
  }

  /** One round's record and its projects' grants change; the other rounds' reserves do not. */
  lemma ReservesAfterChange(rounds: map<nat, Round>, projects: Projects, projects': Projects, r: nat, rnd: Round)
    requires forall j :: j in rounds && j != r ==> GrantsOf(projects', j) == GrantsOf(projects, j)
    ensures Reserves(rounds[r := rnd], projects')
            == Reserves(rounds, projects) - (if r in rounds then Reserve(projects, r, rounds[r]) else 0)
               + Reserve(projects', r, rnd)
  {
    ReservesRemove(rounds[r := rnd], projects', r);
    assert rounds[r := rnd] - {r} == rounds - {r};
    if r in rounds {
      ReservesRemove(rounds, projects, r);
    } else {
      assert rounds - {r} == rounds;
    }
    ReservesAgree(rounds - {r}, projects, projects');
  }

  ghost predicate Solvent(cfg: Config, s: Storage) {
    cfg.existentialDeposit + Reserves(s.rounds, s.projects) <= Free(s.balances, cfg.account)
  }

  /** What the account holds beyond all it has to hold. */
  ghost function Surplus(cfg: Config, s: Storage): int {
    Free(s.balances, cfg.account) - cfg.existentialDeposit - Reserves(s.rounds, s.projects)
  }

  /** An accepted donation keeps the surplus if and only if its transfer goes through; the pallet does not
      look, and a donation without its money lowers the surplus by the whole amount. */
  lemma SurplusAfterDonate(cfg: Config, s: Storage, who: AccountId, r: nat, amount: nat)
    requires DonateCheck(cfg, s, r, amount).Accept? && who != cfg.account
    ensures Surplus(cfg, DonateEffect(cfg, s, who, r, amount))
            == Surplus(cfg, s) - if Transferable(cfg.existentialDeposit, s.balances, who, cfg.account, amount, KeepAlive)
                                 then 0 else amount
  {
    ReservesAfterChange(s.rounds, s.projects, s.projects, r, Donated(cfg, s.rounds[r], amount));
  }

  /** And so with a vote and what it costs. */
  lemma SurplusAfterVote(cfg: Config, s: Storage, who: AccountId, r: nat, hash: Hash, ballot: nat)
    requires VoteCheck(cfg, s, who, r, hash, ballot).Accept? && who != cfg.account
    ensures var amount := CalAmount(cfg, CalCost(VotesBy(s, (r, hash), who), ballot));
            Surplus(cfg, VoteEffect(cfg, s, who, r, hash, ballot))
            == Surplus(cfg, s) - if Transferable(cfg.existentialDeposit, s.balances, who, cfg.account, amount, KeepAlive)
                                 then 0 else amount
  {
    var s', key := VoteEffect(cfg, s, who, r, hash, ballot), (r, hash);
    forall j
      ensures j != r ==> GrantsOf(s'.projects, j) == GrantsOf(s.projects, j)
    {
      GrantsAfterUpdate(s.projects, key, s'.projects[key], j);
    }
    GrantsAfterUpdate(s.projects, key, s'.projects[key], r);
    ReservesAfterChange(s.rounds, s.projects, s'.projects, r, s'.rounds[r]);
  }

  // ----- runs whose incoming transfers succeed -----

  predicate Funded(cfg: Config, s: Storage, e: Event) {
    Succeeds(cfg, s, e) && e.Dispatch? ==>
      match e.call
      case Donate(_, amount) =>
        Transferable(cfg.existentialDeposit, s.balances, e.origin.who, cfg.account, amount, KeepAlive)
      case Vote(r, hash, ballot) =>
        Transferable(cfg.existentialDeposit, s.balances, e.origin.who, cfg.account,
                     CalAmount(cfg, CalCost(VotesBy(s, (r, hash), e.origin.who), ballot)), KeepAlive)
      case _ => true
  }

  predicate FundedRun(cfg: Config, balances: Ledger, events: seq<Event>) {
    events == [] ||
    (var prefix := events[..|events| - 1];
     FundedRun(cfg, balances, prefix) && Funded(cfg, Run(cfg, balances, prefix).st, events[|events| - 1]))
  }

  // ----- the payouts of one round -----

  function Finals(s: Storage, r: nat, order: seq<Hash>): seq<int>
    requires r in s.rounds && forall i :: 0 <= i < |order| ==> (r, order[i]) in s.projects
  {
    seq(|order|, i requires 0 <= i < |order| => FinalGrants(s.projects[(r, order[i])], s.rounds[r]))
  }

  function Shares(s: Storage, r: nat, order: seq<Hash>): seq<int>
    requires r in s.rounds && forall i :: 0 <= i < |order| ==> (r, order[i]) in s.projects
  {
    seq(|order|, i requires 0 <= i < |order| => MatchingShare(s.projects[(r, order[i])], s.rounds[r]))
  }

  function Areas(s: Storage, r: nat, order: seq<Hash>): seq<int>
    requires forall i :: 0 <= i < |order| ==> (r, order[i]) in s.projects
  {
    seq(|order|, i requires 0 <= i < |order| => s.projects[(r, order[i])].supportArea)
  }

  function GrantFigures(s: Storage, r: nat, order: seq<Hash>): seq<int>
    requires forall i :: 0 <= i < |order| ==> (r, order[i]) in s.projects
  {
    seq(|order|, i requires 0 <= i < |order| => s.projects[(r, order[i])].grants)
  }

  lemma EnumeratedSums(s: Storage, r: nat, order: seq<Hash>)
    requires Enumerates(s, r, order)
    ensures SumSeq(Areas(s, r, order)) == AreaOf(s.projects, r)
    ensures SumSeq(GrantFigures(s, r, order)) == GrantsOf(s.projects, r)
  {
    EnumerationSum(s.projects, r, Area, order, Areas(s, r, order));
    EnumerationSum(s.projects, r, Grants, order, GrantFigures(s, r, order));
  }

  lemma WholeQuotient(pool: nat, area: nat)
    requires area > 0
    ensures PerArea(pool, area) * area == pool - pool % area
  {
    var q, r := pool / area, pool % area;
    assert pool == q * area + r;
  }

  /** Whatever the order, the shares add up to the pool less the remainder of the division. */
  lemma SharesAddUp(s: Storage, r: nat, order: seq<Hash>)
    requires Enumerates(s, r, order) && r in s.rounds && s.rounds[r].totalSupportArea == AreaOf(s.projects, r)
    ensures SumSeq(Shares(s, r, order)) == s.rounds[r].supportPool - Undistributed(s.rounds[r])
  {
    var rnd := s.rounds[r];
    var c := if rnd.totalSupportArea > 0 then PerArea(rnd.supportPool, rnd.totalSupportArea) else 0;
    var zeros := seq(|order|, i => 0);
    EnumeratedSums(s, r, order);
    SumSeqLinear(zeros, Areas(s, r, order), c, Shares(s, r, order));
    SumOfZeros(|order|);
    if rnd.totalSupportArea > 0 {
      WholeQuotient(rnd.supportPool, rnd.totalSupportArea);
    }
  }

  lemma {:induction false} SumOfZeros(n: nat)
    ensures SumSeq(seq(n, i => 0)) == 0
  {
    if n > 0 {
      SumOfZeros(n - 1);
      assert seq(n, i => 0)[..n - 1] == seq(n - 1, i => 0);
    }
  }

  /** No share exceeds the pool it is a part of. */
  lemma ShareAtMostPool(s: Storage, r: nat, key: ProjectKey)
    requires r in s.rounds && key in s.projects && key.0 == r && s.rounds[r].totalSupportArea == AreaOf(s.projects, r)
    ensures MatchingShare(s.projects[key], s.rounds[r]) <= s.rounds[r].supportPool
  {
    var rnd := s.rounds[r];
    RoundSumRemove(s.projects, r, Area, key);
    if rnd.totalSupportArea > 0 {
      WholeQuotient(rnd.supportPool, rnd.totalSupportArea);
      TimesMonotone(s.projects[key].supportArea, rnd.totalSupportArea, PerArea(rnd.supportPool, rnd.totalSupportArea));
    }
  }

  lemma ShareAlgebra(a: nat, pool: nat, area: nat)
    requires area > 0
    ensures a * PerArea(pool, area) * area <= pool * a
    ensures a > 0 ==> pool * a < (a * PerArea(pool, area) + a) * area
  {
    var c, rest := PerArea(pool, area), pool % area;
    WholeQuotient(pool, area);
    assert pool == c * area + rest;
    assert pool * a == a * c * area + rest * a;
    assert (a * c + a) * area == a * c * area + area * a;
    if a > 0 {
      TimesMonotone(rest + 1, area, a);
    }
  }

  /** A share is at most the pool times the project's part of the area, and short of it by less than the
      project's area; a pool smaller than the area gives every project nothing. */
  lemma ShareIsProportional(p: Project, rnd: Round)
    requires rnd.totalSupportArea > 0
    ensures var share := MatchingShare(p, rnd);
            && share * rnd.totalSupportArea <= rnd.supportPool * p.supportArea
            && (p.supportArea > 0 ==> rnd.supportPool * p.supportArea < (share + p.supportArea) * rnd.totalSupportArea)
            && (rnd.supportPool < rnd.totalSupportArea ==> share == 0)
  {
    ShareAlgebra(p.supportArea, rnd.supportPool, rnd.totalSupportArea);
    if rnd.supportPool < rnd.totalSupportArea {
      assert PerArea(rnd.supportPool, rnd.totalSupportArea) == 0;
    }
  }

  lemma FinalsAddUp(s: Storage, r: nat, order: seq<Hash>)
    requires Enumerates(s, r, order) && r in s.rounds && s.rounds[r].totalSupportArea == AreaOf(s.projects, r)
    ensures SumSeq(Finals(s, r, order)) == GrantsOf(s.projects, r) + s.rounds[r].supportPool - Undistributed(s.rounds[r])
  {
    SumSeqLinear(GrantFigures(s, r, order), Shares(s, r, order), 1, Finals(s, r, order));
    EnumeratedSums(s, r, order);
    SharesAddUp(s, r, order);
  }

  /** What of the payouts stays in the account: those that cannot be transferred, and those the account
      would pay to itself. */
  function Kept(cfg: Config, s: Storage, r: nat, order: seq<Hash>): nat
    requires r in s.rounds && forall i :: 0 <= i < |order| ==> (r, order[i]) in s.projects
  {
    if order == [] then 0
    else
      var n := |order| - 1;
      var p := s.projects[(r, order[n])];
      Kept(cfg, s, r, order[..n])
      + if p.owner != cfg.account
           && Transferable(cfg.existentialDeposit, PayAll(cfg, s, r, order[..n]), cfg.account, p.owner,
                           FinalGrants(p, s.rounds[r]), KeepAlive)
        then 0 else FinalGrants(p, s.rounds[r])
  }

  /** The account pays exactly the sum of the final grants, less what it keeps. */
  lemma {:induction false} PaidIsFinalsLessKept(cfg: Config, s: Storage, r: nat, order: seq<Hash>)
    requires r in s.rounds && forall i :: 0 <= i < |order| ==> (r, order[i]) in s.projects
    ensures Free(PayAll(cfg, s, r, order), cfg.account)
            == Free(s.balances, cfg.account) - SumSeq(Finals(s, r, order)) + Kept(cfg, s, r, order)
  {
    if order != [] {
      var n := |order| - 1;
      PaidIsFinalsLessKept(cfg, s, r, order[..n]);
      assert Finals(s, r, order)[..n] == Finals(s, r, order[..n]);
    }
  }

  /** The sender's side of the n-th payout of the loop. */
  predicate PayoutAffordable(cfg: Config, s: Storage, r: nat, order: seq<Hash>, n: nat)
    requires n < |order| && r in s.rounds && forall i :: 0 <= i < |order| ==> (r, order[i]) in s.projects
  {
    Affordable(cfg.existentialDeposit, PayAll(cfg, s, r, order[..n]), cfg.account,
               FinalGrants(s.projects[(r, order[n])], s.rounds[r]), KeepAlive)
  }

  lemma EveryPayoutAffordable(cfg: Config, s: Storage, r: nat, order: seq<Hash>, n: nat)
    requires Solvent(cfg, s) && Ongoing(s, r) && Enumerates(s, r, order) && n < |order|
    requires s.rounds[r].totalSupportArea == AreaOf(s.projects, r)
    ensures PayoutAffordable(cfg, s, r, order, n)
    ensures PayoutFits(s.projects[(r, order[n])], s.rounds[r])
  {
    var finals := Finals(s, r, order);
    PaidIsFinalsLessKept(cfg, s, r, order[..n]);
    assert Finals(s, r, order[..n]) == finals[..n];
    assert finals[..n + 1][..n] == finals[..n];
    SumSeqPrefix(finals, n + 1);
    FinalsAddUp(s, r, order);
    ReservesRemove(s.rounds, s.projects, r);
  }

  // ----- what the other calls do to the surplus -----

  /** Ending a round keeps the surplus, plus whatever payouts stay in the account. */
  lemma SurplusAfterEndRound(cfg: Config, s: Storage, r: nat, order: seq<Hash>)
    requires Enumerates(s, r, order) && EndRoundCheck(s, r, order).Accept?
    requires s.rounds[r].totalSupportArea == AreaOf(s.projects, r)
    ensures Surplus(cfg, EndRoundEffect(cfg, s, r, order)) == Surplus(cfg, s) + Kept(cfg, s, r, order)
  {
    PaidIsFinalsLessKept(cfg, s, r, order);
    FinalsAddUp(s, r, order);
    ReservesAfterChange(s.rounds, s.projects, s.projects, r, s.rounds[r].(ongoing := false));
  }

  lemma SurplusAfterRegister(cfg: Config, s: Storage, key: ProjectKey, p: Project)
    requires key !in s.projects && p.grants == 0
    ensures Surplus(cfg, s.(projects := s.projects[key := p])) == Surplus(cfg, s)
  {
    forall j
      ensures GrantsOf(s.projects[key := p], j) == GrantsOf(s.projects, j)
    {
      GrantsAfterUpdate(s.projects, key, p, j);
    }
    ReservesAgree(s.rounds, s.projects, s.projects[key := p]);
  }

  lemma SurplusAfterStart(cfg: Config, s: Storage, r: nat)
    requires BooksOk(cfg, s) && r !in s.rounds
    ensures Surplus(cfg, s.(rounds := s.rounds[r := FRESH_ROUND])) == Surplus(cfg, s)
  {
    UnstartedRoundIsEmpty(cfg, s, r);
    ReservesAfterChange(s.rounds, s.projects, s.projects, r, FRESH_ROUND);
  }

  // ----- the surplus of a run -----

  /** The part of an accepted donation or vote that did not come with its money. */
  function Unfunded(cfg: Config, s: Storage, who: AccountId, amount: nat): nat {
    if Transferable(cfg.existentialDeposit, s.balances, who, cfg.account, amount, KeepAlive) then 0 else amount
  }

  /** What one successful event does to the surplus: outside credits and kept payouts raise it, unfunded
      donations and votes lower it, and nothing else touches it. */
  function SurplusChange(cfg: Config, s: Storage, e: Event): int
    requires Succeeds(cfg, s, e)
  {
    match e
    case Elsewhere(ledger) => Free(ledger, cfg.account) - Free(s.balances, cfg.account)
    case Dispatch(o, c) =>
      match c
      case Donate(_, amount) => 0 - Unfunded(cfg, s, o.who, amount)
      case Vote(r, hash, ballot) =>
        0 - Unfunded(cfg, s, o.who, CalAmount(cfg, CalCost(VotesBy(s, (r, hash), o.who), ballot)))
      case EndRound(r, order) => Kept(cfg, s, r, order)
      case _ => 0
  }

  function SurplusChanges(cfg: Config, balances: Ledger, events: seq<Event>): int {
    if events == [] then 0
    else
      var prefix, e := events[..|events| - 1], events[|events| - 1];
      var s := Run(cfg, balances, prefix).st;
      SurplusChanges(cfg, balances, prefix) + if Succeeds(cfg, s, e) then SurplusChange(cfg, s, e) else 0
  }

  lemma SurplusAfterEvent(cfg: Config, s: Storage, e: Event)
    requires cfg.Valid() && BooksOk(cfg, s) && Succeeds(cfg, s, e)
    ensures Surplus(cfg, NextStorage(cfg, s, e)) == Surplus(cfg, s) + SurplusChange(cfg, s, e)
  {
    if e.Dispatch? {
      match e.call
      case Donate(r, amount) => SurplusAfterDonate(cfg, s, e.origin.who, r, amount);
      case StartRound(r) => SurplusAfterStart(cfg, s, r);
      case EndRound(r, order) =>
        assert RoundOk(cfg, s.projectVotes, s.projects, r, s.rounds[r]);
        SurplusAfterEndRound(cfg, s, r, order);
      case RegisterProject(r, hash, name) =>
        SurplusAfterRegister(cfg, s, (r, hash), Project(0, 0, 0, name, e.origin.who));
      case Vote(r, hash, ballot) => SurplusAfterVote(cfg, s, e.origin.who, r, hash, ballot);
    }
  }

  lemma {:induction false} SurplusOfRun(cfg: Config, balances: Ledger, events: seq<Event>)
    requires cfg.Valid()
    ensures Surplus(cfg, Run(cfg, balances, events).st) == SurplusChanges(cfg, balances, events)
  {
    if events != [] {
      var prefix, e := events[..|events| - 1], events[|events| - 1];
      SurplusOfRun(cfg, balances, prefix);
      RunsKeepBooks(cfg, balances, prefix);
      if Succeeds(cfg, Run(cfg, balances, prefix).st, e) {
        SurplusAfterEvent(cfg, Run(cfg, balances, prefix).st, e);
      }
    }
  }

  lemma {:induction false} FundedRunsGain(cfg: Config, balances: Ledger, events: seq<Event>)
    requires FundedRun(cfg, balances, events)
    ensures 0 <= SurplusChanges(cfg, balances, events)
  {
    if events != [] {
      FundedRunsGain(cfg, balances, events[..|events| - 1]);
    }
  }

  lemma RunsKeepSolvent(cfg: Config, balances: Ledger, events: seq<Event>)
    requires cfg.Valid() && FundedRun(cfg, balances, events)
    ensures Solvent(cfg, Run(cfg, balances, events).st)
  {
    SurplusOfRun(cfg, balances, events);
    FundedRunsGain(cfg, balances, events);
  }
}
