/**
 Runs of the guild: any sequence of dispatches by any signers, with the clock moving forward
 and the rest of the chain doing as it pleases in between, from genesis on. Beside the storage a
 run keeps a log of what happened. The pallet never reads the log; it is there so that
 properties about the past can be stated.
 */
module MolochRuns {
  import opened Prelude
  import opened Currency
  import opened Moloch

  datatype Event =
    | Dispatch(who: AccountId, call: Call)
    | Advance(millis: nat)          // the timestamp pallet sets a later time
    | Elsewhere(ledger: Ledger)     // anything else the chain does to its balances

  /** What a voter brought to a vote: its shares and the guild's total at that moment. */
  datatype Ballot = Ballot(weight: nat, totalShares: nat)

  datatype Log = Log(
    summons: nat,                   // successful summonings
    ballots: map<VoteKey, Ballot>,  // one entry for every successful vote
    mintedOver: map<nat, nat>,      // for each passed proposal, TotalShares just before its shares were minted
    burned: nat,                    // shares burned by ragequits
    processed: seq<nat>)            // the indices successfully processed, in order

  datatype World = World(st: Storage, log: Log)

  /** Internal accounts have no key, so they never sign; time does not run backwards and a
      timestamp fits 64 bits; nobody else can debit the pallet's internal accounts. */
  predicate Possible(cfg: Config, s: Storage, e: Event) {
    match e
    case Dispatch(who, _) => !cfg.Internal(who)
    case Advance(millis) => s.now + millis < U64_LIMIT
    case Elsewhere(ledger) =>
      Free(s.balances, cfg.guildBank) <= Free(ledger, cfg.guildBank)
      && Free(s.balances, cfg.custodyAccount) <= Free(ledger, cfg.custodyAccount)
  }

  function NextStorage(cfg: Config, s: Storage, e: Event): Storage
    requires Possible(cfg, s, e)
  {
    match e
    case Dispatch(who, c) => Step(cfg, s, who, c)
    case Advance(millis) => s.(now := s.now + millis)
    case Elsewhere(ledger) => s.(balances := ledger)
  }

  /** What the log records about a dispatch that succeeded in storage `s`. */
  function Recorded(cfg: Config, s: Storage, log: Log, who: AccountId, c: Call): Log
    requires Check(cfg, s, who, c).Accept?
  {
    match c
    case Summon(_, _, _, _, _, _, _) => log.(summons := log.summons + 1)
    case SubmitVote(i, _) =>
      var voter := DelegateOf(s, who);
      log.(ballots := log.ballots[(i, voter) := Ballot(MemberOf(s.members, voter).shares, s.totalShares)])
    case ProcessProposal(i) =>
      log.(processed := log.processed + [i],
           mintedOver := if Passes(cfg, s, s.proposalQueue[i]) then log.mintedOver[i := s.totalShares]
                         else log.mintedOver)
    case Ragequit(burn) => log.(burned := log.burned + burn)
    case _ => log
  }

  /** An impossible event changes nothing, so that every sequence of events is a run. */
  function Next(cfg: Config, w: World, e: Event): World {
    if !Possible(cfg, w.st, e) then w
    else World(NextStorage(cfg, w.st, e),
               if e.Dispatch? && Check(cfg, w.st, e.who, e.call).Accept?
               then Recorded(cfg, w.st, w.log, e.who, e.call) else w.log)
  }

  const NO_RULES := Rules(0, 0, 0, 0, 0, 0, 0, 0)

  /** Genesis endows the two internal accounts with exactly the existential deposit. */
  function Genesis(cfg: Config, balances: Ledger): World {
    World(Storage(NO_RULES, 0, 0, map[], map[], [], map[], map[], 0,
                  balances[cfg.guildBank := cfg.existentialDeposit][cfg.custodyAccount := cfg.existentialDeposit]),
          Log(0, map[], map[], 0, []))
  }

  function Run(cfg: Config, balances: Ledger, events: seq<Event>): World {
    if events == [] then Genesis(cfg, balances)
    else Next(cfg, Run(cfg, balances, events[..|events| - 1]), events[|events| - 1])
  }

  lemma RunSnoc(cfg: Config, balances: Ledger, events: seq<Event>, e: Event)
    ensures Run(cfg, balances, events + [e]) == Next(cfg, Run(cfg, balances, events), e)
  {
    assert (events + [e])[..|events|] == events;
  }

  /** Summonings are never forgotten, so a run with at most one has prefixes with at most one. */
  lemma SummonsGrow(cfg: Config, w: World, e: Event)
    ensures w.log.summons <= Next(cfg, w, e).log.summons
  {
  }
}
