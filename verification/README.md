# Moloch V1 and quadratic funding, verified

This project models the two pallets of the repository in Dafny and proves what their bookkeeping is
relied upon for.

* **The guild** (`pallets/moloch-v1`): an on-chain guild that takes tributes into custody, queues
  membership proposals, votes on them by shares, processes them after a grace period, lets applicants
  abort and members leave with their part of the bank.
* **Quadratic funding** (`pallets/quadratic-funding`): rounds with a donated pool, projects that collect
  ballots of triangular cost, and a final split of the pool by support area.

`dafny verify dfyconfig.toml` checks everything.

## How it is organised

| files | contents |
|---|---|
| `Prelude.dfy`, `Sums.dfy`, `Currency.dfy` | verdicts and integer widths, finite sums, the ledger |
| `Moloch.dfy` | storage of the guild; for each call its checks in order and its effect |
| `MolochPallet.dfy` | the pallet as a class whose methods write storage items in place, proved against `Moloch.dfy` |
| `MolochCalls.dfy`, `FundingCalls.dfy` | when each call is accepted and what it leaves, in the terms of the design |
| `MolochRuns.dfy` | runs: any events from genesis on, with an observer's log |
| `MolochDelegates.dfy`, `MolochShares.dfy`, `MolochSchedule.dfy`, `MolochVoting.dfy`, `MolochEveryRun.dfy`, `MolochInvariant.dfy` | what every step keeps |
| `MolochRagequit.dfy`, `MolochEscrow.dfy`, `MolochPayments.dfy`, `MolochAccounts.dfy` | exits, custody, who is paid what, and what every balance of a run is made of |
| `MolochTheorems.dfy`, `MolochBacking.dfy`, `MolochProgress.dfy`, `MolochLimits.dfy` | the guarantees over whole runs, liveness, and what the code does not give |
| `QuadraticFunding.dfy`, `QuadraticFundingPallet.dfy` | storage, checks and effects of the funding pallet, and its class |
| `FundingRuns.dfy`, `FundingSums.dfy`, `FundingBooks.dfy`, `FundingDonations.dfy`, `FundingSolvency.dfy`, `FundingTheorems.dfy`, `FundingLimits.dfy` | runs, closed forms, what every step keeps, the guarantees, and what the code does not give |

A call ends in `Accept`, in `Reject` with the error of an `ensure!`, or in `Trap`, a panic. The methods of
the two classes write in the order of the source; that an error has written nothing is proved of them, and
`Dispatch` is the host that discards the writes of a panicked call. The theorems are about the
specification functions and about runs built from them, and reach the classes through the contracts of
`Dispatch`. What a call leaves of its own entries, beside the rows below, is in `StartedRound`, `EndedRound`,
`RegisteredProject`, `VoteIsEntered`, `AbortedProposal`, `MembersStay` and `NewMembers`; `DonationsNeedUnits` and
`TransferKeepsNoDust` are two corner cases.

A *run* is any sequence of dispatches by any signers, clock advances and foreign ledger changes. A *single-
summon* run contains exactly one successful `summon`; the code does not refuse a second one, which resets
TotalShares, the rules and the clock's origin (`SecondSummonLosesCount`, `TotalIsSumIff`). A *disciplined*
run follows the two steps of the repository's README (lines 9-13) and test guide (line 23): an applicant's
deposit goes through, a proposal is submitted for exactly that tribute, at most one proposal per applicant
is live, and no new deposit is made while it is.

## Assumptions

* Plain `+` and `-` panic when they leave the integer range. `Cargo.toml:1-2` does not switch overflow checks
  on for release builds. It matters in `pallets/moloch-v1/src/lib.rs` at 381 (early processing), 442 and 448
  (the record subtraction); `ProcessingSucceedsIff` says when the latter two do not depend on it.
* A transfer moves exactly the amount or changes nothing. It needs the funds, a receiver whose new balance
  is at least the existential deposit and fits 128 bits, and under `KeepAlive` a sender who keeps the
  existential deposit. Under `AllowDeath` a sender left with less loses the rest, which is burned as dust
  (`runtime/src/lib.rs:242`). Balances are 128 bits wide, as in the runtime.
* The pallets' internal accounts start with the existential deposit, never sign, and are not debited by
  anyone else. The clock never runs backwards and fits 64 bits.
* `hash_of((hash, round_id))` is injective: votes are keyed by the pair. The iteration over a round's
  projects yields each once, in any order.
* Funding rounds are started and ended by root, as in the runtime (`runtime/src/lib.rs:307`).
* Runtime constants are parameters: MaxShares >= 1, MaxShares * MaxDilutionBound < 2^128, FeeRatio <=
  NumberOfUnitPerVote.

## Where code and documentation differ

* A member's delegate key is documented as one key that updates replace (`pallets/moloch-v1/src/lib.rs:39-40`),
  but `update_delegate` assigns it on a local copy only. `UpdateRevokesOnlyOwnAddress` states exactly which
  keys still sign afterwards; `TwoKeysSignForOneMember` is an example. A caller who is no member revokes the key
  of the default account.
* The test guide asks applicants not to deposit more or less than the tribute; nothing enforces it. One
  deposit can carry two proposals, and the second then stops the whole queue (`TwoProposalsOneDepositStall`)
  until that applicant deposits at least the tribute again (`StallEndsIff`). `ProcessingSucceedsIff` is the exact
  condition for one proposal, `CatchesUpIff` for the whole queue.
* A member who never voted YES is not free to leave at any time: its highest YES index is 0 by default, so
  proposal 0 must exist and be processed (`RagequitLock`, `FounderCannotLeaveEmptyGuild`).
* The comment at `pallets/quadratic-funding/src/lib.rs:284` says that the transfer makes sure of the funds, but
  its result is ignored: an accepted donation, vote or deposit may come without its money
  (`UnfundedDonationIsAccepted`, `UnfundedVoteIsAccepted`, `UnfundedDepositIsRecorded`). `SolventIff` and
  `BackedIff` say exactly, for any run, when the accounts still hold what they have to.
* "End an `ongoing` round" (`pallets/quadratic-funding/src/lib.rs:215`) fails, though the round is running, if a
  project's final grants do not fit their type (`EndRoundSucceedsIff`). With donations that came with their
  money that never happens (`EndRoundNeverFails`); without it can (`UnfundedRoundCannotEnd`).
* `register_project` is documented for an ongoing round and does not look at the round
  (`RegistrationNeedsNoRound`, `RegistrationIgnoresRounds`). Projects registered in a round that has not started,
  or has ended, are covered by all theorems.
* The custody account may die: a refund that leaves it with less than the existential deposit burns the rest
  (`RefundBurnsDust`). Disciplined runs never get there (`DisciplinedRunsLeaveNoDust`).
* `end_round` adds the matching share to a copy of each project: stored grants stay as they were.

## Model

| member | source | states |
|---|---|---|
| `MolochPallet.MolochV1.GetCurrentPeriod` | pallets/moloch-v1/src/lib.rs:578-584 | the period is whole period lengths since the summoning; it panics exactly before the summoning or under a zero period length |
| `MolochPallet.MolochV1.Summon` | pallets/moloch-v1/src/lib.rs:228-259 | every limit check with its error, in order; on success exactly the rules, the founding member and its key are written; an error writes nothing |
| `MolochPallet.MolochV1.Custody` | pallets/moloch-v1/src/lib.rs:263-269 | the record is set to the tribute whatever became of the transfer |
| `MolochPallet.MolochV1.SubmitProposal` | pallets/moloch-v1/src/lib.rs:274-321 | exact verdict (errors and panics); on success the proposal is queued with the next free starting period, the request is added to the total and the signer's deposit goes to the bank; an error writes nothing |
| `MolochPallet.MolochV1.SubmitVote` | pallets/moloch-v1/src/lib.rs:325-370 | exact verdict; on success one register entry, one tally and, for YES, the running maxima change; an error writes nothing |
| `MolochPallet.MolochV1.ProcessProposal` | pallets/moloch-v1/src/lib.rs:374-471 | exact verdict; on success exactly the specified mint or refund, record, payments and processed proposal; an error writes nothing |
| `MolochPallet.MolochV1.EnterMember` | pallets/moloch-v1/src/lib.rs:411-433 | the three membership branches: shares added, new member entered, taken delegate key reset |
| `MolochPallet.MolochV1.Ragequit` | pallets/moloch-v1/src/lib.rs:475-501 | exact verdict; on success the shares are burned and the rounded-down part of the bank is paid; an error writes nothing |
| `MolochPallet.MolochV1.Abort` | pallets/moloch-v1/src/lib.rs:505-532 | exact verdict; on success the tribute is zeroed and returned and the record deleted; an error writes nothing |
| `MolochPallet.MolochV1.UpdateDelegate` | pallets/moloch-v1/src/lib.rs:536-551 | exact verdict; on success the recorded key is removed and the new key entered, the member's record staying as it was |
| `MolochPallet.MolochV1.Dispatch` | pallets/moloch-v1/src/lib.rs:214-553 | one extrinsic: the verdict of the specification, and its storage on success, the old storage otherwise |
| `MolochCalls.PeriodIsElapsed` | pallets/moloch-v1/src/lib.rs:578-584 | on every run a guild with periods of some seconds is in period p exactly while between p and p + 1 period lengths of 1000 ms per second have passed since its summoning |
| `MolochCalls.SummonKeepsLimits` | pallets/moloch-v1/src/lib.rs:232-237 | a summoning is accepted if and only if the rules it asks for keep all five limits |
| `MolochCalls.RulesAreLastAsked` | pallets/moloch-v1/src/lib.rs:239-247 | on every run the rules in force, item by item, are those asked for by the last summoning within the limits; no other call changes any, and they always keep the limits |
| `MolochCalls.SubmitAcceptedIff` | pallets/moloch-v1/src/lib.rs:277-290 | on every single-summon run a proposal is accepted if and only if its signer signs for an account with shares, issued, promised and requested shares are within MaxShares, the applicant has a record, custody holds the tribute, and the next free period exists and fits |
| `MolochCalls.SubmittedProposal` | pallets/moloch-v1/src/lib.rs:296-317 | an accepted proposal is appended on behalf of the account signed for, with the figures asked for, and starts right after the u waiting ones at p+u+1, later than the present period; the rest of the queue stays |
| `MolochCalls.VoteAcceptedIff` | pallets/moloch-v1/src/lib.rs:327-345 | on every single-summon run a vote is accepted if and only if it is 1 or 2, the signer signs for somebody with shares who has not voted on it, the proposal is open exactly as the agenda counts it and not aborted, the end of the window fits, and a NO tally has room |
| `MolochCalls.ProcessedProposal` | pallets/moloch-v1/src/lib.rs:387-449 | on every run processing sets the flags of one proposal by the votes cast and the tribute in custody, and changes no other field, no other proposal and no record but the applicant's, by the tribute |
| `MolochCalls.PassNeedsCustody` | pallets/moloch-v1/src/lib.rs:399-404 | in any state, a proposal that processing lets pass has an applicant on record and its tribute in the custody account just before |
| `MolochCalls.AbortAcceptedIff` | pallets/moloch-v1/src/lib.rs:511-519 | on every single-summon run an abort is accepted if and only if it comes from the applicant, the proposal is not aborted, and the present period lies before start plus abort window, which fits |
| `MolochCalls.UpdateAcceptedIff` | pallets/moloch-v1/src/lib.rs:538-543 | a key can be taken if and only if it is the caller's own address, or it is no member's address and signs for no member; a key that was never used signs for the default account here |
| `MolochCalls.KeysCannotBeTaken` | pallets/moloch-v1/src/lib.rs:540-543 | nobody else can take over a key that signs for a member |
| `MolochCalls.OthersStay` | pallets/moloch-v1/src/lib.rs:214-553 | which storage items each call leaves alone, and which entries of the others |
| `MolochCalls.RejectionsAreTrue` | pallets/moloch-v1/src/lib.rs:179-208 | whatever error a call returns, what the error says is true of the call and the storage |
| `MolochCalls.FirstErrorIsReturned` | pallets/moloch-v1/src/lib.rs:214-553 | of several errors that apply the one the call looks for first is returned |
| `MolochCalls.PanicsIff` | pallets/moloch-v1/src/lib.rs:280-497 | on every single-summon run exactly when each call panics: a figure does not fit, the periods have no length, it is too early for any processing, a record is below its tribute, or a member leaves when no shares exist |
| `MolochDelegates.DelegateIsolation` | pallets/moloch-v1/src/lib.rs:254-255 | on every run, repeated summonings included, an address that is a member never signs for another member; a member's recorded key is always its own address |
| `MolochDelegates.UpdateRevokesOnlyOwnAddress` | pallets/moloch-v1/src/lib.rs:536-551 | after anybody's update_delegate the new key signs for the caller, and of all other keys exactly one is revoked: a member's own address, or the default address if the caller is no member; keys from earlier updates go on signing |
| `MolochDelegates.NewMemberSignsForItself` | pallets/moloch-v1/src/lib.rs:415-433 | a new member signs for itself, and whoever used its address as a delegate key signs for itself again |
| `MolochTheorems.ShareConservation` | pallets/moloch-v1/src/lib.rs:280-292 | TotalShares is the sum over members and 1 + minted - burned; TotalSharesRequested is the sum over unprocessed proposals; together they stay within MaxShares |
| `MolochTheorems.TotalIsSumIff` | pallets/moloch-v1/src/lib.rs:254-256 | on every run, repeated summonings included, TotalShares is the sum over members if and only if nobody but its signer held shares at the last summoning; TotalSharesRequested is the sum over unprocessed proposals |
| `MolochShares.MintAddsShares` | pallets/moloch-v1/src/lib.rs:411-437 | minting adds exactly the requested shares to the sum over members, also on the path that resets a delegate key and may create a member without shares |
| `MolochPayments.SharesMoveOnlyByMintAndBurn` | pallets/moloch-v1/src/lib.rs:486-492 | account by account, for every call: summoning leaves its signer with one share, only the applicant of a passed proposal gains shares and only the signer of a ragequit loses any; members are never removed |
| `MolochAccounts.SharesAreAccounted` | pallets/moloch-v1/src/lib.rs:411-492 | on every run, repeated summonings included, each member has exactly the founding share, if it is the founder, plus the shares of all its passed proposals, less the shares it burned and those that founding again overwrote |
| `MolochTheorems.GapFreeSchedule` | pallets/moloch-v1/src/lib.rs:296-317 | starting periods strictly increase; at period p the u proposals not started are the last u and occupy exactly p+1 .. p+u; the next one gets p+u+1 |
| `MolochTheorems.BoundedAgenda` | pallets/moloch-v1/src/lib.rs:337-341 | on every run, in any period at most VotingPeriodLength proposals are open for voting |
| `MolochTheorems.ProcessedInOrder` | pallets/moloch-v1/src/lib.rs:384-387 | on every run successful processing visits 0, 1, 2, .. in this order, each once, and exactly the processed proposals carry the flag |
| `MolochSchedule.VoteHitsUnprocessed` | pallets/moloch-v1/src/lib.rs:337-343 | no vote is accepted on a processed proposal |
| `MolochSchedule.AbortHitsUnprocessed` | pallets/moloch-v1/src/lib.rs:511-516 | no abort is accepted on a processed proposal |
| `MolochTheorems.VerdictsAreFinal` | pallets/moloch-v1/src/lib.rs:374-390 | nothing in any continuation of a run changes a processed proposal in any field |
| `MolochTheorems.PassedMeansWon` | pallets/moloch-v1/src/lib.rs:390-408 | a passed proposal is processed, not aborted, past voting and grace, with more YES than NO shares |
| `MolochTheorems.TalliesAreVoteSums` | pallets/moloch-v1/src/lib.rs:342-367 | on every run, repeated summonings included, each tally is the sum over the members recorded with that vote of the shares they held when voting, one entry per member and proposal |
| `MolochTheorems.VerdictByVotes` | pallets/moloch-v1/src/lib.rs:390-408 | on every run a proposal passes if and only if its YES weight exceeds its NO weight, no YES vote was cast in a guild more than DilutionBound times the present one, its applicant has a record and custody holds its tribute, and it is not aborted |
| `MolochVoting.DilutionTestIsExact` | pallets/moloch-v1/src/lib.rs:351-360 | the comparison with the remembered maximum is equivalent to looking at every YES vote |
| `MolochTheorems.DilutionGuarantee` | pallets/moloch-v1/src/lib.rs:393-408 | every YES vote on a passed proposal was cast at a TotalShares of at most DilutionBound times TotalShares just before its mint |
| `MolochVoting.LockIsExact` | pallets/moloch-v1/src/lib.rs:480-484 | the one look at the highest YES index is equivalent to: proposal 0 and everything the member ever voted YES on are processed |
| `MolochTheorems.RagequitLock` | pallets/moloch-v1/src/lib.rs:475-496 | a ragequit succeeds if and only if the member has the shares, nothing it voted YES on is unprocessed, proposal 0 is processed, some shares exist and the product with the bank's balance fits |
| `MolochBacking.YesVotesAreBacked` | pallets/moloch-v1/src/lib.rs:475-484 | what the lock is for: on every single-summon run each YES vote on an unprocessed proposal weighs at most what its voter still holds, and the YES tally is at most TotalShares, which is at most MaxShares |
| `MolochBacking.YesVoteTrapsIff` | pallets/moloch-v1/src/lib.rs:325-352 | so adding a YES vote to the tally never overflows: a YES vote panics if and only if it gets as far as the voting window and the end of that window does not fit its type |
| `MolochRagequit.RagequitKeepsValuePerShare` | pallets/moloch-v1/src/lib.rs:486-497 | the bank per remaining share never falls by a ragequit, paid or not |
| `MolochRagequit.SplittingNeverGains` | pallets/moloch-v1/src/lib.rs:494-497 | n exits burning S of T shares of a bank B are together paid at most floor(B S / T) and at least that less n - 1 |
| `MolochRagequit.ConsecutiveRagequits` | pallets/moloch-v1/src/lib.rs:475-501 | the same for any sequence of accepted ragequit calls whose transfers succeed, on the pallet's storage |
| `MolochTheorems.CustodyIsSolvent` | pallets/moloch-v1/src/lib.rs:263-289 | on disciplined runs the custody account holds the existential deposit plus all records; every live proposal's tribute equals its record and never meets the outage branch |
| `MolochTheorems.ProcessingSucceedsIff` | pallets/moloch-v1/src/lib.rs:374-449 | on every single-summon run processing succeeds if and only if the index is the first unprocessed one, past grace, and the applicant's record covers the tribute |
| `MolochEscrow.ProcessPanicsExactlyOnMissingRecord` | pallets/moloch-v1/src/lib.rs:388-459 | once the guards pass, no share, dilution or deposit computation panics; only the record subtraction can, exactly when the record is smaller than the tribute |
| `MolochEscrow.EscrowCoversTribute` | pallets/moloch-v1/src/lib.rs:399-449 | under the discipline the record always covers the tribute of an unprocessed proposal |
| `MolochProgress.QueueCatchesUp` | pallets/moloch-v1/src/lib.rs:376-387 | on disciplined runs, once proposal j is past grace, processing from the first unprocessed proposal through j by anyone succeeds at every step |
| `MolochProgress.CaughtUpIsProcessed` | pallets/moloch-v1/src/lib.rs:376-387 | after that every proposal up to j is processed |
| `MolochProgress.CatchesUpIff` | pallets/moloch-v1/src/lib.rs:374-449 | on any single-summon run, processing from the first unprocessed proposal through a due proposal j brings the queue up to date if and only if each applicant's record covers the sum of its tributes in that range |
| `MolochLimits.TwoProposalsOneDepositStall` | doc/test-guide.md:23 | a run off the documented procedure, by any accounts with funds, in which a due proposal cannot be processed |
| `MolochLimits.StallEndsOnlyByDeposit` | pallets/moloch-v1/src/lib.rs:441-448 | a queue stalled by a missing record stays stalled under any further events other than a deposit by that one applicant that covers the tribute |
| `MolochLimits.StallEndsIff` | pallets/moloch-v1/src/lib.rs:263-269 | the next event ends a stall if and only if it is such a deposit, and then processing the due proposal succeeds |
| `MolochLimits.FounderCannotLeaveEmptyGuild` | pallets/moloch-v1/src/lib.rs:480-484 | a founder who never voted and still cannot leave |
| `MolochLimits.TwoKeysSignForOneMember` | pallets/moloch-v1/src/lib.rs:545-548 | a run of two updates, with any two keys, after which both sign for one member |
| `MolochLimits.SecondSummonLosesCount` | pallets/moloch-v1/src/lib.rs:254-256 | a run of two summonings after which TotalShares is one less than the sum over members |
| `MolochLimits.UnfundedDepositIsRecorded` | pallets/moloch-v1/src/lib.rs:263-269 | a deposit of more than its account has is recorded in full, so that custody no longer backs its records |
| `MolochLimits.RefundBurnsDust` | pallets/moloch-v1/src/lib.rs:522-528 | a run in which a refund leaves the custody account below the existential deposit, and the rest is burned |
| `MolochEscrow.SurplusAfterCustody` | pallets/moloch-v1/src/lib.rs:263-269 | what custody holds beyond its records rises by the record that the deposit overwrites and falls by the tribute if the ignored transfer fails |
| `MolochAccounts.BackedIff` | pallets/moloch-v1/src/lib.rs:263-269 | on every run, repeated summonings included, custody covers its records and the existential deposit if and only if refused transfers and dust cost it no more than outside credits and dropped records left it |
| `MolochPayments.EveryAccountGetsItsDue` | pallets/moloch-v1/src/lib.rs:438-460 | for every accepted call each account's balance changes by exactly what the rules grant it (tribute, reward, rest of deposit, payout, refund), less what refused transfers and dust leave out |
| `MolochAccounts.BankIsAccounted` | pallets/moloch-v1/src/lib.rs:294-460 | on every run with at most one summoning the bank holds exactly the existential deposit, outside credits, the tributes of all passed proposals and the deposits of all unprocessed ones, less what ragequits were worth and what refused transfers left out |
| `MolochAccounts.DepositsAreCoveredIff` | pallets/moloch-v1/src/lib.rs:451-460 | the bank can return the deposits of all unprocessed proposals and stay alive if and only if ragequits and refused transfers cost it no more than outside credits and tributes brought |
| `MolochTheorems.DispatchConservesCurrency` | pallets/moloch-v1/src/lib.rs:438-460 | no call of the guild creates currency, whether its transfers succeed or not, and none destroys any but the dust of the custody account |
| `MolochTheorems.DisciplinedRunsLeaveNoDust` | pallets/moloch-v1/src/lib.rs:438-446 | on disciplined runs every call conserves the currency exactly |
| `QuadraticFundingPallet.Funding.Donate` | pallets/quadratic-funding/src/lib.rs:173-195 | exact verdict; on success the amount is split between pool and tax and added to the pre-tax pool; an error writes nothing |
| `QuadraticFundingPallet.Funding.StartRound` | pallets/quadratic-funding/src/lib.rs:199-213 | refused unless it comes from root, then refused for a used round id; otherwise an empty running round |
| `QuadraticFundingPallet.Funding.EndRound` | pallets/quadratic-funding/src/lib.rs:217-245 | for any iteration order: exact verdict, the root origin first; on success the ledger after all payouts and the round ended, stored grants unchanged |
| `QuadraticFundingPallet.Funding.RegisterProject` | pallets/quadratic-funding/src/lib.rs:249-265 | exact verdict; on success an empty project of the signer, whatever the state of the round |
| `QuadraticFundingPallet.Funding.Vote` | pallets/quadratic-funding/src/lib.rs:269-305 | exact verdict; on success register, project, round and ledger after the ballot; an error writes nothing |
| `QuadraticFundingPallet.Funding.PriceOf` | pallets/quadratic-funding/src/lib.rs:320-324 | the cost of a ballot, and exactly when computing it overflows |
| `QuadraticFundingPallet.Funding.ProjectsPerRound` | pallets/quadratic-funding/src/lib.rs:355-371 | it fails exactly when the unit is zero, a share overflows or a figure in units does not fit 32 bits; otherwise a row per project in iteration order, with the same matching share that ending the round would pay |
| `QuadraticFundingPallet.Funding.Dispatch` | pallets/quadratic-funding/src/lib.rs:158-307 | one extrinsic with its origin: the verdict of the specification, and its storage on success, the old storage otherwise |
| `FundingCalls.StorageKeepsFacts` | pallets/quadratic-funding/src/lib.rs:199-265 | on every run the storage knows exactly the rounds that root started, which of them root ended, and the projects registered, each with its name and the signer as owner |
| `FundingCalls.StartAcceptedIff` | pallets/quadratic-funding/src/lib.rs:199-202 | a round is started if and only if root asks and its id was never used before, not even by a round that has ended |
| `FundingCalls.EndAcceptedIff` | pallets/quadratic-funding/src/lib.rs:217-231 | a round is ended if and only if root asks, it was started and not ended before, and every final grant fits |
| `FundingCalls.RegisterAcceptedIff` | pallets/quadratic-funding/src/lib.rs:249-253 | a project is registered if and only if the call is signed, the name has an allowed length, and its hash was not registered in that round before |
| `FundingTheorems.FeeOnWholeUnits` | pallets/quadratic-funding/src/lib.rs:181-181 | only whole units are taxed: the fee is FeeRatio times the number q of units with q n <= amount < (q + 1) n |
| `FundingCalls.DonateAcceptedIff` | pallets/quadratic-funding/src/lib.rs:174-191 | a donation is accepted if and only if it is signed, the round was started and not ended, the amount exceeds the price of one point, and the new pool, pre-tax pool and tax fit |
| `FundingCalls.DonatedRound` | pallets/quadratic-funding/src/lib.rs:185-192 | a donation with q whole units adds the amount to the pre-tax pool, FeeRatio times q to the tax and the rest to the pool, and touches nothing else |
| `FundingCalls.VoteAcceptedIff` | pallets/quadratic-funding/src/lib.rs:270-302 | on every run a vote of b on top of v cumulative votes is accepted if and only if it is signed and not empty, the project was registered, the round runs, and eight figures of the closed form fit; in particular no subtraction ever fails |
| `FundingCalls.OthersStayAfterVote` | pallets/quadratic-funding/src/lib.rs:288-302 | a vote changes one voter's votes, one project's figures and one round's area and tax, and nothing else |
| `FundingCalls.RowColumns` | pallets/quadratic-funding/src/lib.rs:364-368 | the columns of the ranking: hash, votes, whole units of the grants, whole units of the matching share |
| `FundingCalls.RowFitsIff` | pallets/quadratic-funding/src/lib.rs:361-367 | a line of the ranking can be shown if and only if there is a unit, the share fits, the votes are below 2^32 and grants and share below 2^32 units |
| `FundingCalls.RejectionsAreTrue` | pallets/quadratic-funding/src/lib.rs:136-153 | whatever error a call returns, what the error says is true of the call and the storage |
| `FundingCalls.FirstErrorIsReturned` | pallets/quadratic-funding/src/lib.rs:173-276 | of several errors that apply the one the call looks for first is returned |
| `FundingCalls.PanicsIff` | pallets/quadratic-funding/src/lib.rs:179-324 | on every run exactly when each call panics: points without units or figures that do not fit; no subtraction ever underflows |
| `FundingTheorems.PairwiseSupportArea` | pallets/quadratic-funding/src/lib.rs:288-292 | the support area is the sum over pairs of different voters of the product of their votes; total_votes is the sum of all votes, so the subtraction never underflows |
| `FundingTheorems.AreaNeedsTwoVoters` | pallets/quadratic-funding/src/lib.rs:289-292 | a project has support area if and only if two different accounts voted for it |
| `FundingTheorems.BallotOrderIrrelevant` | pallets/quadratic-funding/src/lib.rs:280-302 | any two runs that end with the same cumulative votes give a project the same votes, area and grants |
| `FundingSums.CostIsTriangleStep` | pallets/quadratic-funding/src/lib.rs:320-324 | a ballot costs the difference of two triangular numbers |
| `FundingTheorems.TriangularCost` | pallets/quadratic-funding/src/lib.rs:280-288 | all points a voter was ever charged on a project are v (v + 1) / 2 for its cumulative v |
| `FundingTheorems.GrantsAreNetPrice` | pallets/quadratic-funding/src/lib.rs:281-293 | grants are UnitOfVote (NumberOfUnit - FeeRatio) times the sum of the voters' triangular numbers |
| `FundingTheorems.FeesNeverExceedAmounts` | pallets/quadratic-funding/src/lib.rs:181-190 | the fee of a donation or a vote never exceeds the amount |
| `FundingTheorems.RoundConservation` | pallets/quadratic-funding/src/lib.rs:185-192 | donations plus everything the voters paid equal pool plus grants plus tax; the round's area is the sum over its projects |
| `FundingTheorems.PoolAndTaxByDonation` | pallets/quadratic-funding/src/lib.rs:181-192 | the pool is the donations less the fee ratio for every whole unit in each of them; the tax is that and the fee on every point |
| `FundingTheorems.ExactMatchingSplit` | pallets/quadratic-funding/src/lib.rs:223-231 | in any order the matching shares add up to pool - pool mod area, or to nothing without area |
| `FundingSolvency.SharesAddUp` | pallets/quadratic-funding/src/lib.rs:225-231 | the same for any storage in which the round's area is the sum over its projects |
| `FundingSolvency.ShareIsProportional` | pallets/quadratic-funding/src/lib.rs:223-231 | each share is at most the pool times the project's part of the area and short of it by less than the project's area; a pool smaller than the area gives every project nothing |
| `FundingTheorems.MultiRoundSolvency` | pallets/quadratic-funding/src/lib.rs:173-305 | with funded donations and votes the account always holds the existential deposit, pool, grants and tax of every running round, and tax and remainder of every ended one |
| `FundingTheorems.SolventIff` | pallets/quadratic-funding/src/lib.rs:173-305 | on every run, funded or not, the account covers all its rounds if and only if outside credits and payouts that stayed behind make up for the donations and votes that came without their money |
| `FundingSolvency.SurplusAfterDonate` | pallets/quadratic-funding/src/lib.rs:183-192 | what the account holds beyond its obligations stays the same if the ignored transfer goes through and falls by the amount if it does not |
| `FundingSolvency.SurplusAfterVote` | pallets/quadratic-funding/src/lib.rs:285-302 | the same for a vote and its cost |
| `FundingLimits.UnfundedDonationIsAccepted` | pallets/quadratic-funding/src/lib.rs:183-192 | a donation by an account with nothing is booked in full, after which the pallet's account no longer covers the round |
| `FundingLimits.UnfundedVoteIsAccepted` | pallets/quadratic-funding/src/lib.rs:284-302 | the same for a vote |
| `FundingLimits.RegistrationNeedsNoRound` | pallets/quadratic-funding/src/lib.rs:249-265 | a run that registers a project in a round that does not exist |
| `FundingTheorems.SharesNeverOverflow` | pallets/quadratic-funding/src/lib.rs:229-229 | in every reachable state a matching share is at most the pool, which fits its type, so the product never overflows |
| `FundingTheorems.EndRoundNeverFails` | pallets/quadratic-funding/src/lib.rs:217-245 | with funded donations and votes a running round can always be ended, and no payout fails for want of funds or to keep the account alive, in any order and with other rounds open |
| `FundingTheorems.EndRoundSucceedsIff` | pallets/quadratic-funding/src/lib.rs:217-231 | on every run, funded or not, ending a round succeeds if and only if it is running and the final grants of each of its projects fit 128 bits |
| `FundingLimits.UnfundedRoundCannotEnd` | pallets/quadratic-funding/src/lib.rs:227-231 | a run of an enormous donation and two votes, whatever the balances, after which the running round cannot be ended |
| `FundingTheorems.OwnersArePaidInFull` | pallets/quadratic-funding/src/lib.rs:225-240 | when every payout is received each owner gets the final grants of all its projects and no other balance changes |
| `FundingTheorems.EndedRoundsAreFrozen` | pallets/quadratic-funding/src/lib.rs:197-222 | an ended round is never reopened, donated to, voted in or paid out again, and its projects never change |
| `FundingTheorems.DispatchConservesCurrency` | pallets/quadratic-funding/src/lib.rs:234-239 | no call of the funding pallet creates or destroys currency |

## Left out

- A second successful summoning: theorems marked single-summon exclude it by hypothesis. It is covered for delegate keys, tallies, the pass test, the order of processing, the agenda bound, custody's backing and the shares of each member.
- The guild's signature checks, events, weights, encoding and the internals of the balances and timestamp pallets: plumbing of libraries that are not part of this model.
- `vote_cost`: a conversion of `cal_cost` for clients only.
- The unused `withdrew` field, `Slashed` type and `NoneValue`, `StorageOverflow` and `DuplicateRound` errors: nothing reads them.
- Wrap-around of plain operators in a release build: panicking is assumed instead, as said above.
- Refund of every proposal deposit: not claimed, because deposits lie in the account from which ragequits are paid; `DepositsAreCoveredIff` says exactly when the bank still holds them.
- The eight rules that `summon` stores are one field of the class, since they are only ever written together; order and in-place update within `summon` are not captured for them.
- `node/`, the RPC and runtime-API crates and the rest of `runtime/`: plumbing.
