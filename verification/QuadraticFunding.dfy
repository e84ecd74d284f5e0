/**
 Quadratic funding rounds as a state machine: the pallet's storage, and for every dispatchable
 the conditions it checks and the storage it leaves behind.
 */
module QuadraticFunding {
  import opened Prelude
  import opened Currency

  type Hash = nat

  datatype Error =
    | DuplicateProject
    | ProjectNotExist
    | ProjectNameTooLong
    | ProjectNameTooShort
    | InvalidBallot
    | DonationTooSmall
    | RoundExisted
    | RoundNotExist
    | RoundHasEnded
    | BadOrigin

  /** Where a call comes from: the runtime's administrator, who is root, or a signer. */
  datatype Origin = Root | Signed(who: AccountId)

  datatype Project = Project(
    totalVotes: nat,
    grants: nat,
    supportArea: nat,
    name: seq<u8>,
    owner: AccountId)

  datatype Round = Round(
    ongoing: bool,
    supportPool: nat,
    preTaxSupportPool: nat,
    totalSupportArea: nat,
    totalTax: nat)

  datatype Config = Config(
    existentialDeposit: u128,
    account: AccountId,
    unitOfVote: u128,
    numberOfUnitPerVote: u128,
    feeRatioPerVote: u128,
    nameMinLength: nat,
    nameMaxLength: nat)
  {
    /** What the runtime's parameters satisfy: a fee is a fraction of the amount. */
    ghost predicate Valid() {
      feeRatioPerVote <= numberOfUnitPerVote
    }
  }

  /** A project is known by its round and its hash. */
  type ProjectKey = (nat, Hash)

  /** Votes are kept under the hash of project hash and round id, taken to be injective. */
  type VoteKey = (ProjectKey, AccountId)

  datatype Storage = Storage(
    rounds: map<nat, Round>,
    projects: map<ProjectKey, Project>,
    projectVotes: map<VoteKey, nat>,
    balances: Ledger)

  datatype Call =
    | Donate(donatedRound: u32, amount: u128)
    | StartRound(startedRound: u32)
    | EndRound(endedRound: u32, order: seq<Hash>)  // with the order in which the map yields the projects
    | RegisterProject(registeredRound: u32, registeredHash: Hash, name: seq<u8>)
    | Vote(votedRound: u32, votedHash: Hash, ballot: u128)

  function VotesOf(votes: map<VoteKey, nat>, k: VoteKey): nat {
    GetOr(votes, k, 0)
  }

  function VotesBy(s: Storage, key: ProjectKey, who: AccountId): nat {
    VotesOf(s.projectVotes, (key, who))
  }

  predicate Ongoing(s: Storage, r: nat) {
    r in s.rounds && s.rounds[r].ongoing
  }

  // ----- prices -----

  /** `ballot` further votes on top of `voted`: the next `ballot` terms of 1 + 2 + 3 + .. */
  function CalCost(voted: nat, ballot: nat): nat {
    ballot * (ballot + 1) / 2 + ballot * voted
  }

  predicate CostFits(voted: nat, ballot: nat) {
    Fits(ballot + 1) && Fits(ballot * (ballot + 1)) && Fits(ballot * voted) && Fits(CalCost(voted, ballot))
  }

  function CalAmount(cfg: Config, points: nat): nat {
    cfg.unitOfVote * cfg.numberOfUnitPerVote * points
  }

  function CalFee(cfg: Config, points: nat): nat {
    cfg.unitOfVote * cfg.feeRatioPerVote * points
  }

  predicate AmountFits(cfg: Config, points: nat) {
    Fits(cfg.unitOfVote * cfg.numberOfUnitPerVote) && Fits(CalAmount(cfg, points))
  }

  predicate FeeFits(cfg: Config, points: nat) {
    Fits(cfg.unitOfVote * cfg.feeRatioPerVote) && Fits(CalFee(cfg, points))
  }

  // ----- donate -----

  function DonationFee(cfg: Config, amount: nat): nat
    requires cfg.numberOfUnitPerVote > 0
  {
    var units: nat := amount / cfg.numberOfUnitPerVote;
    cfg.feeRatioPerVote * units
  }

  function DonateCheck(cfg: Config, s: Storage, r: nat, amount: nat): Verdict<Error> {
    if r !in s.rounds then Reject(RoundNotExist)
    else if !s.rounds[r].ongoing then Reject(RoundHasEnded)
    else if !AmountFits(cfg, 1) || cfg.numberOfUnitPerVote == 0 || !Fits(DonationFee(cfg, amount)) then Trap
    else if amount <= CalAmount(cfg, 1) then Reject(DonationTooSmall)
    else if !Fits(s.rounds[r].preTaxSupportPool + amount) then Trap
    else if amount < DonationFee(cfg, amount) then Trap
    else if !Fits(s.rounds[r].supportPool + amount - DonationFee(cfg, amount)) then Trap
    else if !Fits(s.rounds[r].totalTax + DonationFee(cfg, amount)) then Trap
    else Accept
  }

  function Donated(cfg: Config, rnd: Round, amount: nat): Round
    requires cfg.numberOfUnitPerVote > 0 && DonationFee(cfg, amount) <= amount
  {
    rnd.(preTaxSupportPool := rnd.preTaxSupportPool + amount,
         supportPool := rnd.supportPool + (amount - DonationFee(cfg, amount)),
         totalTax := rnd.totalTax + DonationFee(cfg, amount))
  }

  function DonateEffect(cfg: Config, s: Storage, who: AccountId, r: nat, amount: nat): Storage
    requires DonateCheck(cfg, s, r, amount).Accept?
  {
    s.(balances := Transfer(cfg.existentialDeposit, s.balances, who, cfg.account, amount, KeepAlive),
       rounds := s.rounds[r := Donated(cfg, s.rounds[r], amount)])
  }

  // ----- start_round -----

  function StartRoundCheck(s: Storage, r: nat): Verdict<Error> {
    if r in s.rounds then Reject(RoundExisted) else Accept
  }

  const FRESH_ROUND := Round(true, 0, 0, 0, 0)

  // ----- register_project -----

  /** The round is not looked at: it need not be running, nor even exist. */
  function RegisterProjectCheck(cfg: Config, s: Storage, r: nat, hash: Hash, name: seq<u8>): Verdict<Error> {
    if |name| < cfg.nameMinLength then Reject(ProjectNameTooShort)
    else if |name| > cfg.nameMaxLength then Reject(ProjectNameTooLong)
    else if (r, hash) in s.projects then Reject(DuplicateProject)
    else Accept
  }

  // ----- vote -----

  /** What one ballot adds to the support area: a product with the votes of everybody else. */
  function AreaGained(p: Project, voted: nat, ballot: nat): nat
    requires voted <= p.totalVotes
  {
    ballot * (p.totalVotes - voted)
  }

  /** The panics inside the update of the project and its round. */
  predicate BookingPanics(p: Project, rnd: Round, voted: nat, ballot: nat, amount: nat, fee: nat) {
    || p.totalVotes < voted
    || !Fits(AreaGained(p, voted, ballot)) || !Fits(AreaGained(p, voted, ballot) + p.supportArea)
    || !Fits(p.totalVotes + ballot)
    || amount < fee || !Fits(p.grants + (amount - fee))
    || !Fits(AreaGained(p, voted, ballot) + rnd.totalSupportArea) || !Fits(fee + rnd.totalTax)
  }

  /** The panics that a vote on a running round can run into. */
  predicate VotePanics(cfg: Config, p: Project, rnd: Round, voted: nat, ballot: nat) {
    var cost := CalCost(voted, ballot);
    || !CostFits(voted, ballot) || !AmountFits(cfg, cost) || !FeeFits(cfg, cost)
    || !Fits(ballot + voted)
    || BookingPanics(p, rnd, voted, ballot, CalAmount(cfg, cost), CalFee(cfg, cost))
  }

  function VoteCheck(cfg: Config, s: Storage, who: AccountId, r: nat, hash: Hash, ballot: nat): Verdict<Error> {
    if (r, hash) !in s.projects then Reject(ProjectNotExist)
    else if ballot == 0 then Reject(InvalidBallot)
    else if r !in s.rounds then Reject(RoundNotExist)
    else if !s.rounds[r].ongoing then Reject(RoundHasEnded)
    else if VotePanics(cfg, s.projects[(r, hash)], s.rounds[r], VotesBy(s, (r, hash), who), ballot) then Trap
    else Accept
  }

  function VotedProject(p: Project, voted: nat, ballot: nat, amount: nat, fee: nat): Project
    requires voted <= p.totalVotes && fee <= amount
  {
    p.(supportArea := p.supportArea + AreaGained(p, voted, ballot),
       totalVotes := p.totalVotes + ballot,
       grants := p.grants + (amount - fee))
  }

  function VotedRound(rnd: Round, p: Project, voted: nat, ballot: nat, fee: nat): Round
    requires voted <= p.totalVotes
  {
    rnd.(totalSupportArea := rnd.totalSupportArea + AreaGained(p, voted, ballot),
         totalTax := rnd.totalTax + fee)
  }

  function VoteEffect(cfg: Config, s: Storage, who: AccountId, r: nat, hash: Hash, ballot: nat): Storage
    requires VoteCheck(cfg, s, who, r, hash, ballot).Accept?
  {
    var key := (r, hash);
    var voted := VotesBy(s, key, who);
    var amount, fee := CalAmount(cfg, CalCost(voted, ballot)), CalFee(cfg, CalCost(voted, ballot));
    s.(balances := Transfer(cfg.existentialDeposit, s.balances, who, cfg.account, amount, KeepAlive),
       projectVotes := s.projectVotes[(key, who) := voted + ballot],
       projects := s.projects[key := VotedProject(s.projects[key], voted, ballot, amount, fee)],
       rounds := s.rounds[r := VotedRound(s.rounds[r], s.projects[key], voted, ballot, fee)])
  }

  // ----- end_round -----

  /** The hashes of a round's projects, each once: what the iteration over the map yields. */
  predicate Enumerates(s: Storage, r: nat, order: seq<Hash>) {
    && (forall i :: 0 <= i < |order| ==> (r, order[i]) in s.projects)
    && (forall i, j :: 0 <= i < j < |order| ==> order[i] != order[j])
    && (forall key :: key in s.projects && key.0 == r ==> key.1 in order)
  }

  /** A project's part of the support pool, in proportion to its support area. */
  function MatchingShare(p: Project, rnd: Round): nat {
    if rnd.totalSupportArea > 0 then p.supportArea * PerArea(rnd.supportPool, rnd.totalSupportArea) else 0
  }

  /** The part of the pool that one unit of area is worth, rounded down. */
  function PerArea(pool: nat, area: nat): nat
    requires area > 0
  {
    pool / area
  }

  function InUnits(cfg: Config, amount: nat): nat
    requires cfg.unitOfVote > 0
  {
    amount / cfg.unitOfVote
  }

  function FinalGrants(p: Project, rnd: Round): nat {
    p.grants + MatchingShare(p, rnd)
  }

  predicate PayoutFits(p: Project, rnd: Round) {
    rnd.totalSupportArea > 0 ==> Fits(MatchingShare(p, rnd)) && Fits(FinalGrants(p, rnd))
  }

  function EndRoundCheck(s: Storage, r: nat, order: seq<Hash>): Verdict<Error>
    requires Enumerates(s, r, order)
  {
    if r !in s.rounds then Reject(RoundNotExist)
    else if !s.rounds[r].ongoing then Reject(RoundHasEnded)
    else if exists i :: 0 <= i < |order| && !PayoutFits(s.projects[(r, order[i])], s.rounds[r]) then Trap
    else Accept
  }

  /** The ledger after the projects in `order` were paid one after the other. */
  function PayAll(cfg: Config, s: Storage, r: nat, order: seq<Hash>): Ledger
    requires r in s.rounds
    requires forall i :: 0 <= i < |order| ==> (r, order[i]) in s.projects
  {
    if order == [] then s.balances
    else
      var n := |order| - 1;
      var p := s.projects[(r, order[n])];
      Transfer(cfg.existentialDeposit, PayAll(cfg, s, r, order[..n]), cfg.account, p.owner,
               FinalGrants(p, s.rounds[r]), KeepAlive)
  }

  /** One more turn of the loop. */
  lemma PayNext(cfg: Config, s: Storage, r: nat, order: seq<Hash>, k: nat)
    requires r in s.rounds && k < |order|
    requires forall i :: 0 <= i < |order| ==> (r, order[i]) in s.projects
    ensures var p := s.projects[(r, order[k])];
            PayAll(cfg, s, r, order[..k + 1])
            == Transfer(cfg.existentialDeposit, PayAll(cfg, s, r, order[..k]), cfg.account, p.owner,
                        FinalGrants(p, s.rounds[r]), KeepAlive)
  {
    assert order[..k + 1][..k] == order[..k];
  }

  /** The payouts go to the ledger only: the projects keep their grants as they were. */
  function EndRoundEffect(cfg: Config, s: Storage, r: nat, order: seq<Hash>): Storage
    requires Enumerates(s, r, order) && EndRoundCheck(s, r, order).Accept?
  {
    s.(balances := PayAll(cfg, s, r, order),
       rounds := s.rounds[r := s.rounds[r].(ongoing := false)])
  }

  // ----- the ranking -----

  const NO_ROUND := Round(false, 0, 0, 0, 0)

  /** What a line of the ranking can carry: 32-bit numbers, counted in units. */
  predicate RowFits(cfg: Config, p: Project, rnd: Round) {
    && cfg.unitOfVote > 0 && Fits(MatchingShare(p, rnd))
    && p.totalVotes < U32_LIMIT && InUnits(cfg, p.grants) < U32_LIMIT && InUnits(cfg, MatchingShare(p, rnd)) < U32_LIMIT
  }

  /** A line of the ranking shown to clients: votes, grants so far and the matching share. */
  function Row(cfg: Config, hash: Hash, p: Project, rnd: Round): (Hash, u32, u32, u32)
    requires RowFits(cfg, p, rnd)
  {
    (hash, p.totalVotes, InUnits(cfg, p.grants), InUnits(cfg, MatchingShare(p, rnd)))
  }

  // ----- one dispatch -----

  /** The order passed along with `end_round` is the map's own; nothing else is constrained. */
  predicate WellFormed(s: Storage, c: Call) {
    c.EndRound? ==> Enumerates(s, c.endedRound, c.order)
  }

  /** Rounds are started and ended by root, everything else is signed. */
  predicate Authorized(o: Origin, c: Call) {
    if c.StartRound? || c.EndRound? then o.Root? else o.Signed?
  }

  function Check(cfg: Config, s: Storage, o: Origin, c: Call): Verdict<Error>
    requires WellFormed(s, c)
  {
    if !Authorized(o, c) then Reject(BadOrigin)
    else
      match c
      case Donate(r, amount) => DonateCheck(cfg, s, r, amount)
      case StartRound(r) => StartRoundCheck(s, r)
      case EndRound(r, order) => EndRoundCheck(s, r, order)
      case RegisterProject(r, hash, name) => RegisterProjectCheck(cfg, s, r, hash, name)
      case Vote(r, hash, ballot) => VoteCheck(cfg, s, o.who, r, hash, ballot)
  }

  function Effect(cfg: Config, s: Storage, o: Origin, c: Call): Storage
    requires WellFormed(s, c) && Check(cfg, s, o, c).Accept?
  {
    match c
    case Donate(r, amount) => DonateEffect(cfg, s, o.who, r, amount)
    case StartRound(r) => s.(rounds := s.rounds[r := FRESH_ROUND])
    case EndRound(r, order) => EndRoundEffect(cfg, s, r, order)
    case RegisterProject(r, hash, name) => s.(projects := s.projects[(r, hash) := Project(0, 0, 0, name, o.who)])
    case Vote(r, hash, ballot) => VoteEffect(cfg, s, o.who, r, hash, ballot)
  }

  /** A rejected or trapped dispatch leaves no trace. */
  function Step(cfg: Config, s: Storage, o: Origin, c: Call): Storage
    requires WellFormed(s, c)
  {
    if Check(cfg, s, o, c).Accept? then Effect(cfg, s, o, c) else s
  }
}
