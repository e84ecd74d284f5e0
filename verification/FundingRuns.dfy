/**
 Runs of the funding pallet: any sequence of dispatches, with the rest of the chain doing as it
 pleases in between, from genesis on; and a log of the ballots that were cast and of the donations,
 which the pallet never reads.
 */
module FundingRuns {
  import opened Prelude
  import opened Currency
  import opened QuadraticFunding

  datatype Event =
    | Dispatch(origin: Origin, call: Call)
    | Elsewhere(ledger: Ledger)

  /** A successful vote: how many ballots it added and how many points it was charged for. */
  datatype Cast = Cast(round: nat, hash: Hash, voter: AccountId, ballot: nat, cost: nat) {
    function Key(): VoteKey {
      ((round, hash), voter)
    }
  }

  /** A successful donation. */
  datatype Gift = Gift(round: nat, amount: nat)

  datatype World = World(st: Storage, log: seq<Cast>, gifts: seq<Gift>)

  /** The pallet's account never signs and nobody else can debit it; `end_round` sees the projects
      of its round in some order, each once. */
  predicate Possible(cfg: Config, s: Storage, e: Event) {
    match e
    case Dispatch(o, c) => o != Signed(cfg.account) && WellFormed(s, c)
    case Elsewhere(ledger) => Free(s.balances, cfg.account) <= Free(ledger, cfg.account)
  }

  predicate Succeeds(cfg: Config, s: Storage, e: Event) {
    Possible(cfg, s, e) && (e.Dispatch? ==> Check(cfg, s, e.origin, e.call).Accept?)
  }

  function NextStorage(cfg: Config, s: Storage, e: Event): Storage
    requires Succeeds(cfg, s, e)
  {
    match e
    case Dispatch(o, c) => Effect(cfg, s, o, c)
    case Elsewhere(ledger) => s.(balances := ledger)
  }

  function Recorded(s: Storage, log: seq<Cast>, e: Event): seq<Cast> {
    if e.Dispatch? && e.call.Vote? && e.origin.Signed? then
      var voted := VotesBy(s, (e.call.votedRound, e.call.votedHash), e.origin.who);
      log + [Cast(e.call.votedRound, e.call.votedHash, e.origin.who, e.call.ballot, CalCost(voted, e.call.ballot))]
    else log
  }

  function Received(gifts: seq<Gift>, e: Event): seq<Gift> {
    if e.Dispatch? && e.call.Donate? then gifts + [Gift(e.call.donatedRound, e.call.amount)] else gifts
  }

  /** Whatever does not succeed changes nothing. */
  function Next(cfg: Config, w: World, e: Event): World {
    if Succeeds(cfg, w.st, e)
    then World(NextStorage(cfg, w.st, e), Recorded(w.st, w.log, e), Received(w.gifts, e))
    else w
  }

  function Genesis(cfg: Config, balances: Ledger): World {
    World(Storage(map[], map[], map[], balances[cfg.account := cfg.existentialDeposit]), [], [])
  }

  function Run(cfg: Config, balances: Ledger, events: seq<Event>): World {
    if events == [] then Genesis(cfg, balances)
    else Next(cfg, Run(cfg, balances, events[..|events| - 1]), events[|events| - 1])
  }

  lemma RunSnoc(cfg: Config, balances: Ledger, events: seq<Event>, e: Event)
    ensures Run(cfg, balances, events + [e]) == Next(cfg, Run(cfg, balances, events), e)
  {
    assert (events + [e])[..|events|] == events;
  }

  /** All the ballots a voter ever cast on a project. */
  function Cumulative(log: seq<Cast>, key: VoteKey): nat {
    if log == [] then 0
    else Cumulative(log[..|log| - 1], key) + if log[|log| - 1].Key() == key then log[|log| - 1].ballot else 0
  }

  /** All the points that voter was charged for them, vote by vote. */
  function Charged(log: seq<Cast>, key: VoteKey): nat {
    if log == [] then 0
    else Charged(log[..|log| - 1], key) + if log[|log| - 1].Key() == key then log[|log| - 1].cost else 0
  }

  /** Everything ever donated to a round .. */
  function Given(gifts: seq<Gift>, r: nat): nat {
    if gifts == [] then 0
    else Given(gifts[..|gifts| - 1], r) + if gifts[|gifts| - 1].round == r then gifts[|gifts| - 1].amount else 0
  }

  /** The whole units in it, donation by donation. */
  function UnitsGiven(gifts: seq<Gift>, r: nat, unit: nat): nat
    requires unit > 0
  {
    if gifts == [] then 0
    else UnitsGiven(gifts[..|gifts| - 1], r, unit)
         + if gifts[|gifts| - 1].round == r then gifts[|gifts| - 1].amount / unit else 0
  }

  /** .. and the fees on it, donation by donation. */
  function GivenFees(cfg: Config, gifts: seq<Gift>, r: nat): nat
    requires cfg.numberOfUnitPerVote > 0
  {
    if gifts == [] then 0
    else GivenFees(cfg, gifts[..|gifts| - 1], r)
         + if gifts[|gifts| - 1].round == r then DonationFee(cfg, gifts[|gifts| - 1].amount) else 0
  }
}
