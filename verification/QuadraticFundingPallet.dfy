/**
 The quadratic funding pallet in the form in which it runs, proved against module
 QuadraticFunding. As in MolochPallet, an error means that nothing was written, and after a panic
 `Dispatch`, the host, throws the writes away. Lines in comments are those of
 pallets/quadratic-funding/src/lib.rs.
 */
module QuadraticFundingPallet {
  import opened Prelude
  import opened Currency
  import opened QuadraticFunding

  class Funding {
    const cfg: Config
    var rounds: map<nat, Round>
    var projects: map<ProjectKey, Project>
    var projectVotes: map<VoteKey, nat>
    var balances: Ledger

    function Store(): Storage
      reads this
    {
      Storage(rounds, projects, projectVotes, balances)
    }

    constructor (cfg: Config, s: Storage)
      ensures this.cfg == cfg && Store() == s
    {
      this.cfg := cfg;
      rounds, projects, projectVotes, balances := s.rounds, s.projects, s.projectVotes, s.balances;
    }

    method PriceOf(voted: nat, ballot: nat) returns (ok: bool, points: nat)
      ensures ok == CostFits(voted, ballot)
      ensures ok ==> points == CalCost(voted, ballot)
    {
      points := 0;
      if !Fits(ballot + 1) || !Fits(ballot * (ballot + 1)) { return false, points; }
      points := ballot * (ballot + 1) / 2;
      if !Fits(ballot * voted) || !Fits(points + ballot * voted) { return false, points; }
      points := points + ballot * voted;
      return true, points;
    }

    method Donate(o: Origin, r: u32, amount: u128) returns (v: Verdict<Error>)
      modifies this`balances, this`rounds
      ensures v == if o.Signed? then DonateCheck(cfg, old(Store()), r, amount) else Reject(BadOrigin)
      ensures v.Accept? ==> Store() == DonateEffect(cfg, old(Store()), o.who, r, amount)
      ensures v.Reject? ==> Store() == old(Store())
    {
      if !o.Signed? { return Reject(BadOrigin); }
      var who := o.who;
      if r !in rounds { return Reject(RoundNotExist); }
      if !rounds[r].ongoing { return Reject(RoundHasEnded); }
      if !AmountFits(cfg, 1) || cfg.numberOfUnitPerVote == 0 { return Trap; }
      var minUnit := CalAmount(cfg, 1);
      var fee := DonationFee(cfg, amount);
      if !Fits(fee) { return Trap; }
      if amount <= minUnit { return Reject(DonationTooSmall); }
      balances := Transfer(cfg.existentialDeposit, balances, who, cfg.account, amount, KeepAlive);
      var rnd := rounds[r];
      if !Fits(amount + rnd.preTaxSupportPool) { return Trap; }
      rnd := rnd.(preTaxSupportPool := amount + rnd.preTaxSupportPool);
      if amount < fee || !Fits(amount - fee + rnd.supportPool) { return Trap; }
      rnd := rnd.(supportPool := amount - fee + rnd.supportPool);
      if !Fits(fee + rnd.totalTax) { return Trap; }
      rnd := rnd.(totalTax := fee + rnd.totalTax);
      rounds := rounds[r := rnd];
      return Accept;
    }

    method StartRound(o: Origin, r: u32) returns (v: Verdict<Error>)
      modifies this`rounds
      ensures v == if o.Root? then StartRoundCheck(old(Store()), r) else Reject(BadOrigin)
      ensures Store() == if v.Accept? then old(Store()).(rounds := old(rounds)[r := FRESH_ROUND]) else old(Store())
    {
      if !o.Root? { return Reject(BadOrigin); }
      if r in rounds { return Reject(RoundExisted); }
      rounds := rounds[r := Round(true, 0, 0, 0, 0)];
      return Accept;
    }

    method RegisterProject(o: Origin, r: u32, hash: Hash, name: seq<u8>) returns (v: Verdict<Error>)
      modifies this`projects
      ensures v == if o.Signed? then RegisterProjectCheck(cfg, old(Store()), r, hash, name) else Reject(BadOrigin)
      ensures Store() == if v.Accept?
                         then old(Store()).(projects := old(projects)[(r, hash) := Project(0, 0, 0, name, o.who)])
                         else old(Store())
    {
      if !o.Signed? { return Reject(BadOrigin); }
      if |name| < cfg.nameMinLength { return Reject(ProjectNameTooShort); }
      if |name| > cfg.nameMaxLength { return Reject(ProjectNameTooLong); }
      if (r, hash) in projects { return Reject(DuplicateProject); }
      projects := projects[(r, hash) := Project(0, 0, 0, name, o.who)];
      return Accept;
    }

    method Vote(o: Origin, r: u32, hash: Hash, ballot: u128) returns (v: Verdict<Error>)
      modifies this
      ensures v == if o.Signed? then VoteCheck(cfg, old(Store()), o.who, r, hash, ballot) else Reject(BadOrigin)
      ensures v.Accept? ==> Store() == VoteEffect(cfg, old(Store()), o.who, r, hash, ballot)
      ensures v.Reject? ==> Store() == old(Store())
    {
      if !o.Signed? { return Reject(BadOrigin); }
      var who := o.who;
      if (r, hash) !in projects { return Reject(ProjectNotExist); }
      if ballot == 0 { return Reject(InvalidBallot); }
      if r !in rounds { return Reject(RoundNotExist); }
      if !rounds[r].ongoing { return Reject(RoundHasEnded); }
      var voteHash := ((r, hash), who);
      var voted := GetOr(projectVotes, voteHash, 0);
      var priced, cost := PriceOf(voted, ballot);
      if !priced { return Trap; }
      if !AmountFits(cfg, cost) || !FeeFits(cfg, cost) { return Trap; }
      var amount, fee := CalAmount(cfg, cost), CalFee(cfg, cost);
      balances := Transfer(cfg.existentialDeposit, balances, who, cfg.account, amount, KeepAlive);
      if !Fits(ballot + voted) { return Trap; }
      projectVotes := projectVotes[voteHash := ballot + voted];
      var ok := Account((r, hash), voted, ballot, amount, fee);
      if !ok { return Trap; }
      return Accept;
    }

    /** Lines 289-302: the project and its round after a ballot. */
    method Account(key: ProjectKey, voted: nat, ballot: nat, amount: nat, fee: nat) returns (ok: bool)
      requires key in projects && key.0 in rounds
      modifies this`projects, this`rounds
      ensures ok == !BookingPanics(old(projects)[key], old(rounds)[key.0], voted, ballot, amount, fee)
      ensures ok ==> projects == old(projects)[key := VotedProject(old(projects)[key], voted, ballot, amount, fee)]
      ensures ok ==> rounds == old(rounds)[key.0 :=
                                 VotedRound(old(rounds)[key.0], old(projects)[key], voted, ballot, fee)]
    {
      var poj := projects[key];
      if poj.totalVotes < voted { return false; }
      var supportArea := ballot * (poj.totalVotes - voted);
      if !Fits(supportArea) || !Fits(supportArea + poj.supportArea) { return false; }
      poj := poj.(supportArea := supportArea + poj.supportArea);
      if !Fits(poj.totalVotes + ballot) { return false; }
      poj := poj.(totalVotes := poj.totalVotes + ballot);
      if amount < fee || !Fits(poj.grants + (amount - fee)) { return false; }
      poj := poj.(grants := poj.grants + (amount - fee));
      var rnd := rounds[key.0];
      if !Fits(supportArea + rnd.totalSupportArea) { return false; }
      rnd := rnd.(totalSupportArea := supportArea + rnd.totalSupportArea);
      if !Fits(fee + rnd.totalTax) { return false; }
      rnd := rnd.(totalTax := fee + rnd.totalTax);
      rounds := rounds[key.0 := rnd];
      projects := projects[key := poj];
      return true;
    }

    /** Lines 226-239: add the matching share to a copy of the project and pay out its grants. */
    method PayProject(p: Project, rnd: Round) returns (ok: bool)
      modifies this`balances
      ensures ok == PayoutFits(p, rnd)
      ensures ok ==> balances == Transfer(cfg.existentialDeposit, old(balances), cfg.account, p.owner,
                                          FinalGrants(p, rnd), KeepAlive)
    {
      var project := p;
      if rnd.totalSupportArea > 0 {
        var share := project.supportArea * PerArea(rnd.supportPool, rnd.totalSupportArea);
        if !Fits(share) || !Fits(project.grants + share) { return false; }
        project := project.(grants := project.grants + share);
      }
      balances := Transfer(cfg.existentialDeposit, balances, cfg.account, project.owner, project.grants, KeepAlive);
      return true;
    }

    /** The loop pays project after project out of the pallet's account. */
    method EndRound(o: Origin, r: u32, order: seq<Hash>) returns (v: Verdict<Error>)
      requires Enumerates(Store(), r, order)
      modifies this`balances, this`rounds
      ensures v == if o.Root? then EndRoundCheck(old(Store()), r, order) else Reject(BadOrigin)
      ensures v.Accept? ==> Store() == EndRoundEffect(cfg, old(Store()), r, order)
      ensures v.Reject? ==> Store() == old(Store())
    {
      if !o.Root? { return Reject(BadOrigin); }
      if r !in rounds { return Reject(RoundNotExist); }
      var rnd := rounds[r];
      if !rnd.ongoing { return Reject(RoundHasEnded); }
      ghost var s := Store();
      for k := 0 to |order|
        invariant rounds == s.rounds && projects == s.projects && projectVotes == s.projectVotes
        invariant forall i :: 0 <= i < k ==> PayoutFits(s.projects[(r, order[i])], rnd)
        invariant balances == PayAll(cfg, s, r, order[..k])
      {
        var ok := PayProject(projects[(r, order[k])], rnd);
        if !ok { return Trap; }
        PayNext(cfg, s, r, order, k);
      }
      assert order[..|order|] == order;
      rounds := rounds[r := rnd.(ongoing := false)];
      return Accept;
    }

    /** The ranking shown to clients; it panics when a number does not fit its 32 bits. */
    method ProjectsPerRound(r: u32, order: seq<Hash>) returns (ok: bool, rows: seq<(Hash, u32, u32, u32)>)
      requires Enumerates(Store(), r, order)
      ensures ok <==> forall k :: 0 <= k < |order| ==> RowFits(cfg, projects[(r, order[k])], GetOr(rounds, r, NO_ROUND))
      ensures ok ==> |rows| == |order|
      ensures ok ==> forall k :: 0 <= k < |rows| ==>
                rows[k] == Row(cfg, order[k], projects[(r, order[k])], GetOr(rounds, r, NO_ROUND))
    {
      rows := [];
      var rnd := GetOr(rounds, r, NO_ROUND);
      for k := 0 to |order|
        invariant |rows| == k
        invariant forall i :: 0 <= i < k ==> RowFits(cfg, projects[(r, order[i])], rnd)
        invariant forall i :: 0 <= i < k ==> rows[i] == Row(cfg, order[i], projects[(r, order[i])], rnd)
      {
        var project := projects[(r, order[k])];
        var sg := 0;
        if rnd.totalSupportArea > 0 {
          sg := project.supportArea * PerArea(rnd.supportPool, rnd.totalSupportArea);
          if !Fits(sg) { return false, rows; }
        }
        assert sg == MatchingShare(project, rnd);
        if project.totalVotes >= U32_LIMIT || cfg.unitOfVote == 0 { return false, rows; }
        var grants, supportGrants := InUnits(cfg, project.grants), InUnits(cfg, sg);
        if grants >= U32_LIMIT || supportGrants >= U32_LIMIT { return false, rows; }
        rows := rows + [(order[k], project.totalVotes, grants, supportGrants)];
      }
      return true, rows;
    }

    /** One extrinsic: the dispatchable runs in place, and after a panic the host restores the storage. */
    method Dispatch(o: Origin, c: Call) returns (v: Verdict<Error>)
      requires WellFormed(Store(), c)
      modifies this
      ensures v == Check(cfg, old(Store()), o, c)
      ensures Store() == Step(cfg, old(Store()), o, c)
    {
      var saved := Store();
      match c {
        case Donate(r, amount) => v := Donate(o, r, amount);
        case StartRound(r) => v := StartRound(o, r);
        case EndRound(r, order) => v := EndRound(o, r, order);
        case RegisterProject(r, hash, name) => v := RegisterProject(o, r, hash, name);
        case Vote(r, hash, ballot) => v := Vote(o, r, hash, ballot);
      }
      if v.Trap? {
        rounds, projects, projectVotes, balances := saved.rounds, saved.projects, saved.projectVotes, saved.balances;
      }
    }
  }
}
