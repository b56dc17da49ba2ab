# The arena, modelled and verified

The arena runs matches between submitted players. This project models its core in Dafny and proves
what that core is relied on for:

* **Runs.** A queue of runs (`RunQueue`, `RunTypes`, `QueueInvariants`), what leases and the lifecycle come
  to (`RunLeases`), the worker that drives one run to its end and the operator commands (`RunControl`),
  what those come to (`RunOutcomes`), and all of them interleaved call by call with lease recovery,
  summary files and ranking calls (`Arena`). `Arena.System` is the state, `Arena.Step` one call of a
  store, and a run any list of allowed actions.
* **Ranking.** What an update does to a standing and the algebra of folding updates (`Ranking`), the
  list-shaped snapshots (`RankingSnapshots`), the service around them (`RankingLifecycle`), what a
  recompute reads from the queue (`RankedRuns`), and which runs and which last matches a ranking shows
  (`RankedBots`). Crediting a run is a read and a write of the ranking
  store; refreshing a scope reads the promoted run's summary, lists the queue, reads the listed runs'
  summaries one by one and writes. The theorem that the stored ranking is what a recompute would give
  holds in every run that keeps the conditions of `RankingCache` (`ArenaRanking`); one worker loop,
  truthful runners and submissions that agree on their match keep those on promotions and summaries, and
  that ranking calls of one scope do not overlap and are not lost remains a condition
  (`ArenaDiscipline`). Each condition has its exact counterpart, when breaking it leaves the ranking wrong
  (`ArenaExactness`), and runs of the arena that do (`ArenaFailures`).
* **Matches.** The runner and its event log (`MatchRunner`), replay from a log (`Replay`), what a replay
  makes of any log (`ReplayOutcomes`), what every log of a match looks like and that its replay is faithful
  (`RunnerLog`), and what it says around the steps (`RunnerLifecycle`). A game master is any deterministic state
  machine, given by the functions of `GameTypes.Master`; what sessions, contexts and closing do is an
  arbitrary `MatchRunner.Surroundings`.
* **Games.** `Janken` and `Echo` with rounds, turns and players as parameters, over `GamePlay`, and the
  final ranking in `Placements` (`MatchResults`). Each is put under the runner as its master
  (`JankenMatches`, `EchoMatches`): what its own history reader makes of a runner's log (`GameLogs`) and
  what the platform's replay makes of it are both the live state. `JankenScores`, `EchoScores`,
  `JankenResults` and `EchoResults` say what the scores count, in terms of the sessions' answers, and
  `JankenSnapshots` and `EchoSnapshots` which stored states are taken and what they give.
* **Sessions.** One player's request and response protocol with timeouts and late answers
  (`PlayerSession`), and what any one call answers, told from its arrivals (`SessionCalls`).
* **Spectators and owners.** The public match list (`PublicList`, `ArenaPublicList`) and bots with their
  immutable revisions (`BotOwnership`).
* **Bundles.** The import check of uploaded WebAssembly (`WasmImports`), specified against the grammar
  it reads, and how much looser that is than the binary format of the WebAssembly Core Specification 1.0,
  sections 5.2.2, 5.2.4, 5.3.1, 5.3.4, 5.3.6, 5.3.7, 5.5.2 and 5.5.5 (`WasmStandard`).

Code that updates a store or an object is a class whose methods are proved against functions of the old
state; the theorems are about those functions. Identifiers are strings with Go's order and
`strings.TrimSpace` (`Identifiers`), `sort.Slice` promises an order and no more (`Sorting`), time is an
integer, JSON encodes and decodes to the same value, and where Go visits a map the order is arbitrary.

Where the code and what it implements differ, the model follows the code:

* The stored ranking can be wrong with nothing pending, in five ways. Ranking calls of one scope take no
  lock: a refresh, or a credit, that writes after another call has written undoes it
  (`ArenaFailures.RefreshOvertaken`, `ArenaFailures.ReadOvertaken`, `ArenaFailures.SomeRankingIsWrongByOverlap`).
  A promotion that demotes a ranked run in another scope refreshes its own scope alone
  (`ArenaFailures.PromotionAcrossScopes`, `ArenaFailures.SomeRankingIsWrong`). A credit still due when a run
  without bots is promoted over its own comes after the refresh (`ArenaFailures.CreditOvertaken`). A pass
  that lost its lease writes its summary over that of a completed run, whether it then crashes or completes
  the run again (`ArenaFailures.PersistedOver`, `ArenaFailures.CompletedTwice`,
  `ArenaFailures.SomeRankingIsWrongAfterRecovery`). A credit or a refresh whose process ends before the write
  is not made up for (`ArenaFailures.CreditForgotten`).
* A match can have two official runs if a promotion lands between a worker's decision and its update
  (`ArenaFailures.PromotedInBetween`).
* Bot ids that differ only in surrounding blanks leave two entries with one bot id, and the next update
  drops one of them (`RankingSnapshots.ApplyRankingUpdate`).
* The integer reader takes only values below 2^29 of the u32 range of section 5.2.2
  (`WasmImports.ReadsShortest`), and an import section after the first is never read
  (`WasmImports.AcceptedModuleShape`).
* Inside an import section the check is looser than the standard: of the flags of limits only the parity
  matters, padded flags included; element type, value type and mutability are any byte; names need not be
  UTF-8; and a section of id 12 is passed over like those of the standard
  (`WasmStandard.NotStandardButAccepted`, `WasmStandard.ForeignSectionIsSkipped`).
* A replayed status without a player id is given one (`RunnerLog.RefilledIffNamed`), and an echo snapshot
  does not store whose turn it is (`Echo.ResumesExactlyAtBoundaries`).

## Model

| member | source | states |
|---|---|---|
| RunTypes.ValidateSubmission | internal/platform/service/types.go:147-203 | accepts exactly the well-formed submissions: named run, match and game, distinct usable players, and an attempt count and parent that fit the run kind |
| RunQueue.InMemoryQueueStore.Enqueue | internal/platform/service/store_memory.go:35-53 | a new run joins the record map and the end of both indexes; a blank or known id changes nothing |
| RunQueue.InMemoryQueueStore.Claim | internal/platform/service/store_memory.go:56-77 | the first entry of the line that is still waiting is leased to the worker, everything before it is dropped from the line; with none left the line is emptied |
| RunQueue.InMemoryQueueStore.Heartbeat | internal/platform/service/store_memory.go:80-93 | renews the lease of the run only for the worker that holds it |
| RunQueue.InMemoryQueueStore.RecoverExpired | internal/platform/service/store_memory.go:96-111 | exactly the leased, running and persisting runs whose deadline is at or before now go back to waiting without a lease and join the end of the line, each once, in an arbitrary order; all other records stay as they are |
| RunQueue.InMemoryQueueStore.Update | internal/platform/service/store_memory.go:114-136 | a legal transition replaces the record; the completion time is set on the first completion and kept from then on |
| RunQueue.InMemoryQueueStore.Promote | internal/platform/service/store_memory.go:139-157 | of the runs of the match exactly the promoted completed run is official afterwards; a run that is not completed is a conflict |
| RunQueue.InMemoryQueueStore.CancelQueued | internal/platform/service/store_memory.go:160-180 | a waiting run is canceled and taken out of the line |
| RunQueue.InMemoryQueueStore.RemoveFromOrder | internal/platform/service/store_memory.go:210-219 | filtering the line within its own backing array removes exactly the given run |
| RunQueue.InMemoryQueueStore.List | internal/platform/service/store_memory.go:195-208 | the records in insertion order |
| QueueInvariants.AnyCallsKeepIndexed | internal/platform/service/store_memory.go:35-219 | after any calls with any arguments every waiting run is in the line and the insertion index lists the record keys once each |
| QueueInvariants.WorkerCallsKeepLine | internal/platform/service/store_memory.go:35-219 | after any worker and operator calls the line is exactly the waiting runs without duplicates |
| QueueInvariants.WithoutRecoveryFirstInFirstOut | internal/platform/service/store_memory.go:35-77 | without recovery the line is the insertion index filtered to waiting runs |
| QueueInvariants.ClaimTakesFirst | internal/platform/service/store_memory.go:56-77 | with an exact line a claim leases its first run and changes nothing else, so claims are first in, first out |
| RunLeases.RecoveryIsExact | internal/platform/service/store_memory.go:96-111 | a recovery makes exactly the leased, running and persisting runs whose deadline is at or before now queued without a lease, once each at the end of the line; every other record and everybody's place stay as they are |
| RunLeases.LiveLeaseIsKept | internal/platform/service/store_memory.go:56-136 | from a claim or a heartbeat at time t on, whatever calls follow, recoveries before t + 30 and updates of the run under its worker's lease among them, the run stays in work under its worker's lease: it is not recovered and nobody else claims it |
| RunLeases.LiveLeaseIsLeftAlone | internal/platform/service/store_memory.go:250-260 | a recovery before t + 30 leaves such a run, its lease and the line before it unchanged |
| RunLeases.ClaimVerdict | internal/platform/service/store_memory.go:56-77 | exactly a named worker gets a run while one waits in the line: the first that does, for thirty seconds from the claim, and the line goes on behind it; with none the line is emptied |
| RunLeases.HeartbeatVerdict | internal/platform/service/store_memory.go:80-93 | a heartbeat is heard from the worker of the lease alone and renews it for thirty seconds; which error the others get |
| RunLeases.TransitionIff | internal/platform/service/types.go:206-235 | a run stays, moves on by one stage from queued to completed, fails out of a worker's hands or is canceled while queued, and nothing else is legal |
| RunLeases.UpdateVerdict | internal/platform/service/store_memory.go:114-136 | an update is refused with the error that fits, or replaces that record alone, keeping a completion time that is set and stamping the first completion |
| RunLeases.PromotionVerdict | internal/platform/service/store_memory.go:139-157 | exactly a completed run is promoted; of the runs of its match it alone is official then, and nothing else about any run changes |
| RunLeases.CancellationVerdict | internal/platform/service/store_memory.go:160-180 | exactly a queued run is canceled: it leaves the line and everybody else keeps the place |
| RunControl.Worker.ShouldAutoPromote | internal/platform/service/worker.go:146-166 | promotes unless the run is a rerun or another run of its match is completed and official |
| RunControl.Worker.ProcessNext | internal/platform/service/worker.go:44-122 | the sequence of claim, running, persisting and final updates has the effect of one step that ends the claimed run as completed or failed, and then credits it when it is official: runs and matches of every standing for any bot ids, and the whole standings while entries are keyed and the ids carry no surrounding blanks |
| RunControl.PassesDrainTheLine | internal/platform/service/worker.go:44-122 | as many passes as there are waiting runs empty the line; the i-th in line is completed or failed by what the i-th pass came back with, and no other run changes |
| RunOutcomes.PassVerdict | internal/platform/service/worker.go:44-166 | one pass takes the first waiting run out of the line and leaves it completed exactly if its execution tells of its match and its artifacts are stored, failed otherwise; a won match makes it official exactly if it is no rerun and no other completed run of the match is official; no other run changes |
| RunOutcomes.PassIsCredited | internal/platform/service/worker.go:110-117 | exactly a run of bots that the pass completed as a won match and made official changes the ranking, in the scope of its game alone; the credit fails exactly if such a run cannot be ranked |
| RunControl.RunCommandService.Submit | internal/platform/service/command.go:31-46 | an admitted, well-formed, new submission is enqueued, anything else is an error without effect |
| RunOutcomes.SubmitVerdict | internal/platform/service/command.go:31-46 | exactly a well-formed, admitted submission of an unknown run joins the end of the line; which error others get |
| RunControl.RunCommandService.Retry | internal/platform/service/run_commands.go:36-51 | only a failed run is followed by a queued retry of the same match, one attempt later, unofficial, under its parent |
| RunControl.RunCommandService.Rerun | internal/platform/service/run_commands.go:54-69 | the same for completed runs and reruns |
| RunOutcomes.FollowUpVerdict | internal/platform/service/run_commands.go:36-69 | a retry follows exactly a failed run and a rerun exactly a completed one, for a well-formed parent and an admitted, unused run id; the new run is of the same match, game and players, one attempt later, unofficial, under its parent |
| RunControl.RunCommandService.Promote | internal/platform/service/run_commands.go:72-84 | the queue step of the promotion followed by a refresh of the ranking of the promoted run, whose failure is reported but leaves the promotion in place; for queues with any bot ids |
| Arena.OneOfficialAndExactLine | internal/platform/service/worker.go:98-112 | in every run of the whole system each match has at most one official run, official runs are completed, and the line holds exactly the waiting runs |
| Arena.LateDecisionIsSafeIff | internal/platform/service/worker.go:100-112 | were the decision an earlier call of its own, recording it would be safe exactly when no other run of the match has become official in between |
| ArenaFailures.PromotedInBetween | internal/platform/service/worker.go:100-112 | a run of the arena after which another run of the match can be promoted between the decision and its update, which then leaves two official runs |
| Arena.RunTree | internal/platform/service/run_commands.go:36-69 | in every run, following parents leads through runs of the same match, game and players to an initial run, reached in exactly attempt count minus one steps |
| Arena.TerminalIsFinal | internal/platform/service/types.go:206-235 | terminal states never change, a completion time is set exactly on completed runs and never changes, a retry's parent stays failed and a rerun's completed |
| Arena.StepKeepsSound | internal/platform/service/store_memory.go:114-157 | every single call, in any interleaving, keeps all of these invariants, and that a completed record refers to a summary file of its match |
| ArenaRanking.StoredRankingIsRecomputed | internal/platform/service/ranking.go:129-231 | in every run, with known matches submitted again under any game and with any players, runners that report any game, leases that expire under live passes, and ranking calls between any other calls, whose steps keep the conditions: for every scope with nothing pending or under way, when a recompute succeeds the stored standing has the same runs and matches and for every bot the same matches, first places and placement counts |
| ArenaDiscipline.DisciplinedRankingIsRecomputed | internal/platform/service/worker_loop.go:79-87 | the same for every run whose submissions agree with the known runs of their match on scope and on having bots, whose runners report the game they were asked to run, whose leases are recovered between passes, as the one caller of the recovery does, and whose ranking calls of one scope come one after the other and are not lost |
| ArenaDiscipline.DisciplinedRunIsTended | internal/platform/service/worker_loop.go:79-87 | such runs keep all the conditions: no two passes hold one run, the runs of a match stay in one scope, every pass finds its own summary in its file, and no pass persists or completes a run that is completed |
| ArenaExactness.PromotionSparesScopeIff | internal/platform/service/run_commands.go:72-84 | after a promotion and the refresh of its own scope any other scope that was counted right is counted right still if and only if the promotion demoted no run that is ranked there |
| ArenaExactness.OvertakenCreditIff | internal/platform/service/ranking.go:445-451 | a credit that reads and writes after a promotion in its own scope and its refresh leaves the scope counted right if and only if the promoted run is of identified bots |
| ArenaExactness.OvertakenReadIsWrong | internal/platform/service/ranking.go:140-152 | a credit that has read before the promotion, found its match not stored, and writes after the refresh leaves the scope counted wrong, whether the promoted run is of identified bots or not |
| ArenaExactness.LateCreditIff | internal/platform/service/ranking.go:140-152 | a credit that writes what it made of an earlier standing leaves the scope counted right if and only if the runs ranked by then are those it read and, unless it read the match already, its own |
| ArenaExactness.LateRefreshIff | internal/platform/service/ranking.go:157-175 | a refresh that writes late leaves the scope counted right if and only if the same runs are ranked there as when it listed the queue |
| ArenaExactness.RefreshedAtIs | internal/platform/service/ranking.go:157-231 | a refresh between whose calls nothing comes, summary by summary, has the effect of a recompute stored in one step |
| ArenaExactness.CreditedAtIs | internal/platform/service/ranking.go:129-154 | a credit between whose calls nothing comes has the effect of one update of the stored standing |
| ArenaExactness.LostCreditIff | internal/platform/service/worker.go:110-117 | a credit that is lost leaves the scope counted right if and only if its run is not ranked there or is stored already |
| ArenaExactness.LostRefreshIff | internal/platform/service/run_commands.go:72-84 | a promotion whose refresh is lost leaves its scope counted right if and only if it ranked and demoted nothing there |
| ArenaExactness.SecondPersistIff | internal/platform/service/worker.go:86-94 | a summary that is written over that of a ranked run leaves the scope counted right if and only if it ranks the run in the same scope at the same places, or cannot be ranked so that a recompute fails |
| ArenaExactness.FiledOtherwiseIff | internal/platform/service/worker.go:86-117 | a pass that completes and credits a run whose file another pass has written in between leaves the scope counted right if and only if the file ranks the run there at the places credited, or cannot be ranked |
| ArenaExactness.SecondPassIff | internal/platform/service/store_memory.go:114-136 | after a ranked run is persisted, completed and credited once more its scope is counted right if and only if the second summary leaves the run official and ranks it in the same scope at the same places, or cannot be ranked |
| ArenaFailures.PromotionAcrossScopes | internal/platform/service/run_commands.go:72-84 | for any two submissions of one match: a run of allowed actions, orderly up to the promotion, followed by the calls of its refresh, that ends with nothing pending and the first scope counted right if and only if the second submission is in that scope too |
| ArenaFailures.CreditOvertaken | internal/platform/service/worker.go:113-117 | the run in which the promotion and its refresh come between completing and crediting: the scope is counted right if and only if the promoted run is of identified bots |
| ArenaFailures.ReadOvertaken | internal/platform/service/ranking.go:140-152 | for any two submissions of one match in one scope, both of bots: a run whose one action out of order is the listing of a refresh between the two calls of a credit, after which nothing is pending and the scope is counted wrong |
| ArenaFailures.RefreshOvertaken | internal/platform/service/run_commands.go:72-84 | the same for the listing of a second refresh between the listing and the write of a first: the first promotion writes last and undoes the second |
| ArenaFailures.SomeRankingIsWrongByOverlap | internal/platform/service/ranking.go:157-175 | such a run exists |
| ArenaFailures.PersistedOver | internal/platform/service/worker.go:86-94 | the run in which a lease expires under a live pass, a second pass completes and credits, and the first persists and crashes: counted right if and only if its summary ranks the run in the same scope at the same places, or cannot be ranked |
| ArenaFailures.CompletedTwice | internal/platform/service/store_memory.go:96-136 | the same run in which the first pass completes the run as well: counted right if and only if moreover its match was completed |
| ArenaFailures.CreditForgotten | internal/platform/service/worker.go:110-117 | a run of seven actions in which the worker ends between completing a won match and writing the ranking: nothing is pending and the scope is counted wrong |
| ArenaFailures.SomeRankingIsWrong | internal/platform/service/run_commands.go:72-84 | the theorem without its conditions is false: such a run exists, with nothing pending and a scope counted wrong |
| ArenaFailures.SomeRankingIsWrongAfterRecovery | internal/platform/service/store_memory.go:96-136 | and one without any promotion, by a summary that a pass writes after its lease has expired |
| ArenaRanking.OrderlyRunIsTrimmed | internal/platform/service/ranking.go:445-490 | in these runs every known bot id is free of surrounding blanks, which is what the service methods ask to keep the whole standings |
| ArenaRanking.StepKeepsCached | internal/platform/service/worker.go:98-117 | every step, including a promotion that lands between a worker's update and its crediting or between the calls of a refresh, keeps the invariant behind that theorem |
| ArenaRanking.CreditedIsStored | internal/platform/service/ranking.go:445-451 | a run about to be credited, with no other ranking call of its scope under way, is still the official run of its match unless the match is already stored: the match dedupe is what keeps a credit out that reads after it was overtaken |
| RankedRuns.RecomputedShape | internal/platform/service/ranking.go:191-231 | a recompute succeeds exactly when every run it reads can be credited, for named scopes, and then holds exactly the eligible runs, each once |
| RankedRuns.SameRunsSameCounts | internal/platform/service/ranking.go:445-490 | two standings that hold the same runs of the queue, in whatever order, have the same matches and the same counts for every bot |
| RankedBots.RecomputedRuns | internal/platform/service/ranking.go:191-231 | a recompute succeeds exactly when the scope is named and every official, completed run of identified bots and of a game of the scope can be ranked, and then it holds exactly those runs |
| RankedBots.CreditVerdict | internal/platform/service/ranking.go:129-154 | a run is credited exactly when it is official and all its players play for bots, and refused exactly when it then cannot be ranked; its scope alone changes, by its run and its match unless one of them is known |
| RankedBots.EntriesShowTheLast | internal/platform/service/ranking.go:455-483 | after any list of credits the entries are those of the bots placed, and each shows the player, run, match and status of the bot's last placement and the last name the bot was given |
| ArenaPublicList.OfficialIsShown | internal/platform/service/public_state.go:362-378 | in every run of the system the public page of a match shows its official run as soon as there is one |
| ArenaPublicList.ListIsOrdered | internal/platform/service/public_state.go:202-231 | in every run of the system the items of a page are in the order asked for, newest or oldest completion first and uncompleted matches last |
| Ranking.FoldIsOrderFree | internal/platform/service/ranking.go:445-490 | folding updates with pairwise distinct runs and matches gives the same counts, runs and matches for every order of the list |
| Ranking.ReapplyingChangesNothing | internal/platform/service/ranking.go:450-452 | applying again an update whose run or match was already taken changes nothing |
| Ranking.AppliedHolds | internal/platform/service/ranking.go:445-490 | one update adds exactly its placements to the bots it names, or nothing when its run or match is known |
| Ranking.RankingIsConserved | internal/platform/service/ranking.go:445-490 | over any list of updates each bot's matches are the sum of its placement counts, first places are the count at place one, counts are positive, all matches together are the applied placements, and the applied matches are distinct |
| Ranking.TotalIsOrderFree | internal/platform/service/ranking.go:459-476 | what a list of updates adds up to depends only on the updates in it |
| RankingSnapshots.NormalizeSnapshot | internal/platform/service/ranking.go:524-546 | trims and sorts the entries and recounts the matches; with one entry per bot the standing is unchanged and the bots are strictly sorted |
| RankingSnapshots.ApplyRankingUpdate | internal/platform/service/ranking.go:445-490 | the list-shaped snapshot follows the abstract update, entries sorted by bot, strictly with one entry per bot; and one entry per bot is left exactly when no two bot ids differ only in surrounding blanks |
| RankingSnapshots.SameTable | internal/platform/service/ranking.go:455-458 | the order of the stored entries does not matter to what they say |
| RankingLifecycle.BuildUpdate | internal/platform/service/ranking.go:391-443 | the loops build what the lemma below describes |
| Ranking.BuiltUpdateIff | internal/platform/service/ranking.go:391-443 | an update is built if and only if the summary is completed, names run, match and scope and places someone, every place is positive, and the placed players are pairwise distinct players of the submission, each with a bot; and then the i-th placement gives the bot of the i-th placed player, as the submission lists that player last, the place of that player |
| RankingLifecycle.EqualPlacementCounts | internal/platform/service/ranking.go:586-596 | without zero counts it decides equality of the two maps |
| RankingLifecycle.ZeroCountGoesUnnoticed | internal/platform/service/ranking.go:586-596 | that condition is exact: any zero count can be swapped for a missing place unnoticed |
| RankingLifecycle.RankingService.ApplyCompleted | internal/platform/service/ranking.go:129-154 | an official run with identified bots is applied to the stored standing of its scope, others change nothing, errors store nothing: runs and matches for any bot ids, the whole standing while entries are keyed and the ids carry no surrounding blanks |
| RankingLifecycle.RankingService.Recompute | internal/platform/service/ranking.go:191-231 | the snapshot computed is the fold of the eligible official records in insertion order, or the error of the first that cannot be credited: runs and matches for any bot ids, the whole standing, normalized, when the ids carry no surrounding blanks |
| RankingLifecycle.RankingService.RefreshCompletedRun | internal/platform/service/ranking.go:157-175 | stores the recomputed standing of the run's scope, or nothing on an error; for any bot ids in the same two strengths |
| PublicList.ShownRun | internal/platform/service/public_state.go:362-378 | a match is listed exactly when some run of it is discoverable; it shows its last official completed run if there is one and otherwise its last discoverable run |
| PublicList.SelectedPublicRecords | internal/platform/service/public_state.go:362-378 | lists the shown run of every listed match once, in an order of no consequence |
| PublicList.PrecedesTotal | internal/platform/service/public_state.go:264-281 | in both sort orders any two records of different matches are ordered one way, and no record before itself |
| PublicList.PrecedesTransitive | internal/platform/service/public_state.go:264-281 | the order is transitive |
| PublicList.ListingIsOrdered | internal/platform/service/public_state.go:264-281 | of any two entries of a list: one without a completion time is never before one with; of two completed ones the earlier in an ascending list never has the later time and in a descending list never the earlier; at equal times match ids ascend |
| PublicList.ListedIff | internal/platform/service/public_state.go:202-216 | a run is in the list exactly when its match shows it and it is of the game, the major version and the ruleset asked for |
| PublicList.ListingIsUnique | internal/platform/service/public_state.go:202-216 | the sorted, filtered list is determined by the queue and the filters, whatever order a map was visited in |
| PublicList.List | internal/platform/service/public_state.go:202-231 | returns the requested page of that list, as the public sees it, with the total, the number of pages and the ruleset versions on offer; and its items are, two by two, in the public order asked for |
| PublicList.PublicMatchFromRecord | internal/platform/service/public_state.go:393-410 | shows match, run, game, state and, of a completed run, when; and the players all or none, only when each has a name and a submission to show |
| PublicList.OfferedIffListed | internal/platform/service/public_state.go:233-251 | a ruleset version is on offer exactly when asking for it, under the same other filters, lists some match |
| PublicList.OfferIsUnique | internal/platform/service/public_state.go:233-246 | the versions on offer are determined by the queue and the filters, whatever order the set was visited in |
| PublicList.PagesAreTheList | internal/platform/service/public_state.go:217-225 | pages one to the last concatenate to exactly the list, every page but the last is full, the last is not empty, and later pages are empty |
| BotOwnership.OwnershipIsSafe | internal/platform/service/bot_ownership.go:147-193 | in every run with a fixed quota per scope no owner exceeds the quota, active normalized names are unique per owner and scope, and every active revision is a stored revision of its bot |
| BotOwnership.HistoryIsImmutable | internal/platform/service/bot_ownership.go:147-209 | stored revisions never change or disappear, bots keep their identity, and retired bots never become active |
| BotOwnership.ResolvedIsReady | internal/platform/service/bot_ownership.go:96-114 | in every run a resolved bot is active in the scope and comes with a stored, ready revision of its own |
| BotOwnership.OnlyOwnersChangeBots | internal/platform/service/bot_ownership.go:147-209 | in every run a bot's active revision changes only by a request of its owner that names it, in its scope and while it is active, its lifecycle only by a retirement that its owner asked for, and it comes into being only by a request of its owner |
| BotOwnership.BotsAreTheirOwners | internal/platform/service/bot_ownership.go:147-209 | in every run each bot plays with what its own account submitted for it in its scope, and each retired bot was retired by its own account |
| BotOwnership.SubmissionVerdict | internal/platform/service/bot_ownership.go:147-193 | exactly which requests are served and which error each other gets: a stored bot is revised exactly when it is active and of the account and scope of the request, a new one is made exactly when its name is free and there is room; and all of what a served one leaves |
| BotOwnership.RetirementVerdict | internal/platform/service/bot_ownership.go:196-209 | exactly the owner of a bot retires it, which error others get, and nothing else changes |
| BotOwnership.ResolvedIff | internal/platform/service/bot_ownership.go:96-114 | exactly the bots that are active in the scope with a stored, ready revision are resolved, as what they are |
| BotOwnership.InMemoryBotOwnershipStore.CreateOrRevise | internal/platform/service/bot_ownership.go:147-193 | the request has exactly the verdict and effect of SubmissionVerdict: the checks in the order of the source, conflict, quota, and a new or revised bot |
| BotOwnership.InMemoryBotOwnershipStore.CountActive | internal/platform/service/bot_ownership.go:171-179 | counts the owner's active bots of the scope, or reports that the name is taken |
| BotOwnership.InMemoryBotOwnershipStore.Retire | internal/platform/service/bot_ownership.go:196-209 | only the owner retires a bot, and nothing else changes |
| BotOwnership.InMemoryBotOwnershipStore.ResolveEligible | internal/platform/service/bot_ownership.go:96-114 | resolves all bots in the order asked, or none at all |
| BotOwnership.InMemoryBotOwnershipStore.ListEligible | internal/platform/service/bot_ownership.go:117-132 | lists exactly the bots that could be resolved, each once |
| PlayerSession.Session.Call | internal/platform/session/session.go:108-174 | the receive loop: what it returns, which late ids it strikes out, how many messages it takes and which of them it reports malformed, for any arrivals |
| PlayerSession.AcceptedAnswersCurrent | internal/platform/session/session.go:119-172 | whatever a player sends, acceptance means a reply without error, carrying the current id, which is not a late id |
| SessionCalls.CallVerdict | internal/platform/session/session.go:108-174 | whatever arrives, a call passes over late responses and blank messages up to the first arrival that is neither and answers as that arrival tells, a closed channel and a stopped runtime included, or times out; it notifies just the late responses it took, in their order, and leaves late just the ids without a response and its own if it timed out |
| SessionCalls.MalformedIsReported | internal/platform/session/session.go:134-139 | a call reports the message that ends it if that cannot be decoded, and no other |
| PlayerSession.CallIsReceive | internal/platform/session/session.go:108-174 | the calls of the step machine are runs of that loop |
| PlayerSession.StepKeeps | internal/platform/session/session.go:108-174 | every step of session and player keeps the protocol invariant |
| PlayerSession.OrderlyPlayerIsServedRight | internal/platform/session/session.go:108-174 | with distinct ids and a player that answers each request once, in order and with any delay: no call is reported mismatched, each accepted payload answers that very request, a call times out exactly when it gave up, the late ids are exactly the timed-out unanswered ones, and each late answer is reported ignored exactly once |
| MatchRunner.Runner.AppendEvent | internal/platform/match/match.go:587-601 | events are numbered one after the other |
| MatchRunner.Runner.RecordTurn | internal/platform/match/match.go:506-524 | one answered request logs its ignored late answers and then exactly one outcome carrying the status |
| MatchRunner.Runner.RunSimultaneousStep | internal/platform/match/match.go:290-322 | all requests are logged, then the outcomes of the answered ones in request order, each normalized by the master |
| MatchRunner.Runner.PlayStep | internal/platform/match/match.go:254-286 | a round either applies the master's step with the normalized answers or leaves the master alone and an unfinished tail in the log |
| MatchRunner.Runner.RunDecisionLoop | internal/platform/match/match.go:239-288 | the log grows by one block per applied step, the master moves only by applied steps, and a clean end means that it has no further step |
| MatchRunner.Runner.InitializeSessions | internal/platform/match/match.go:193-237 | sessions are initialized in order up to the first that fails |
| MatchRunner.Runner.ShutdownSessions | internal/platform/match/match.go:324-370 | players are told of the end only when the match completed, and every session is closed |
| MatchRunner.Runner.ShutdownGameMaster | internal/platform/match/match.go:372-379 | logs the start and the outcome of the shutdown |
| MatchRunner.Runner.CaptureFinalState | internal/platform/match/match.go:549-574 | snapshot, exported snapshot and result are kept together or not at all, and a public replay only from a completed match |
| MatchRunner.Runner.ClassifyTerminalError | internal/platform/match/match.go:437-452 | a context seen done outranks every other error |
| MatchRunner.Runner.EmitTerminalEvent | internal/platform/match/match.go:454-470 | one terminal event whose kind is the final status |
| MatchRunner.Runner.BuildRecord | internal/platform/match/match.go:381-426 | the record, its snapshot and its exported snapshot carry one status, the captured final state stands in it, and each player has the last recorded status |
| MatchRunner.Runner.Run | internal/platform/match/match.go:150-191 | every execution, whatever happens, leaves opening, applied steps, an unfinished tail and closing in the log, and ends in one of three statuses |
| RunnerLog.EveryMatchIsLogged | internal/platform/match/match.go:150-191 | every log is numbered from one, starts with its only match_started, ends with its only terminal event, and that event, the record and both snapshots agree on the status; a public replay only when completed |
| RunnerLog.StepLogsRequestsAndOutcomes | internal/platform/match/match.go:290-322 | every applied step logs one request and one outcome per request, in request order within each kind, the outcome with the applied status |
| RunnerLog.AnswersReachTheMaster | internal/platform/match/match.go:264-322 | in every match the status of each request of each applied step is what the master makes of the request's player and the verdict, reason and action that the session came back with; it is logged under that player and turn in an event of the kind of the reason, and the master applies exactly these statuses |
| RunnerLog.MatchEndedBecause | internal/platform/match/match.go:150-288 | a match completed exactly when the master had no further step and all of its final state was captured, and was canceled exactly when the context was done; nothing is applied once the context is done |
| RunnerLog.LastStatusIsLogged | internal/platform/match/match.go:381-426 | the last status of a player in the record is that of the player's last outcome in the log, or empty without one |
| RunnerLifecycle.LifecycleIsLogged | internal/platform/match/match.go:193-379 | before and after the steps the log of every match says, entry by entry and in exactly the cases they happen: which sessions were initialized, stopped or failed; of a completed match alone, who was told; whose session was closed or could not be; and how the master started and ended |
| RunnerLifecycle.LateAnswersAreLogged | internal/platform/match/match.go:506-540 | in every match each outcome stands in the log right behind one entry for each answer of the player that came too late, and a diagnostic exactly if the runtime stopped and said why |
| RunnerLifecycle.FinalIsCaptured | internal/platform/match/match.go:454-470 | what is kept at the end is what the master then gives, all three or nothing, a public replay only of a completed match; the terminal event carries the turn of the snapshot kept |
| Replay.ConsumeRecordedActionStatus | internal/platform/replay/session_history.go:69-111 | finds the next recorded outcome and takes its status, or reports a mismatch of turn or player |
| Replay.SnapshotFromSessionHistory | internal/platform/replay/session_history.go:16-67 | drives a fresh master with the recorded outcomes in order up to the target turn |
| Replay.BudgetDoesNotMatter | internal/platform/replay/session_history.go:36-66 | an answer found within one number of rounds is found within every larger one, and one round more than the recorded outcomes is always enough for a master whose steps ask someone |
| ReplayOutcomes.ReplayVerdict | internal/platform/replay/session_history.go:16-111 | for any master and any log, also one that no match has left: a replay answers with a snapshot exactly if the recorded outcomes are, turn by turn and player by player, those of the steps that the master asks for up to the target, and the master there gives it; it reports a mismatch exactly if they part from those of a due step, and refuses exactly a negative target |
| RunnerLog.ReplayIsLive | internal/platform/replay/session_history.go:16-111 | for every deterministic master, every match played on it and every target whose steps were all applied, the replay answers with the snapshot the live master had before the first later step |
| RunnerLog.RefilledIffNamed | internal/platform/replay/session_history.go:102-104 | a replay hands the master the very statuses of the match exactly when each of them names its player |
| RunnerLog.UnnamedStatusDiverges | internal/platform/replay/session_history.go:102-104 | a master for which it differs otherwise |
| Janken.ResolveValidOutcomes | internal/games/janken/janken.go:546-571 | the loops over the actions compute the outcome map |
| Janken.RoundOutcome | internal/games/janken/janken.go:546-585 | for any number of players: a win exactly by beating someone and being beaten by no one, a loss exactly the other way round, a draw otherwise |
| Janken.NormalizeTwice | internal/games/janken/janken.go:312-329 | normalizing an answer twice is normalizing it once |
| JankenScores.NormalizedIs | internal/games/janken/janken.go:312-329 | normalizing keeps the hand and nothing else of an action, and names what was accepted without a hand an illegal action |
| Janken.Master.ApplyStep | internal/games/janken/janken.go:332-400 | one round: last statuses, scores, both histories and the round count |
| JankenScores.RoundIsScored | internal/games/janken/janken.go:332-400 | a player whose hand beats another hand of the round and is beaten by none is given a win, one without a hand or beaten and beating none a loss, any other a draw; a timeout and an illegal action are counted by their reason; both histories note that hand and result |
| JankenScores.MatchIsScored | internal/games/janken/janken.go:312-400 | after any number of rounds a player's score is the count of the rounds won, lost and drawn, timed out and illegally answered |
| JankenResults.AnsweredHandIsPlayed | internal/platform/match/match.go:477-524 | in every run of the match runner on the game a hand that a session answers with in time is the player's hand of that round, as applied and logged, and a session without one has none |
| JankenResults.RunIsScored | internal/platform/match/match.go:264-322 | in every such run, after any number of rounds, each player's score is decided by the hands that the sessions answered with, as above |
| Janken.MatchIsBalanced | internal/games/janken/janken.go:332-400 | over every match wins, losses and draws add up to the resolved rounds, both histories have that length, and refusals never exceed losses |
| Janken.SnapshotFromHistory | internal/games/janken/janken.go:174-253 | rebuilds the state from the recorded statuses, indexed by turn and player, and refuses a history of which an outcome it looks at does not decode |
| Janken.HistoryIsLive | internal/games/janken/janken.go:174-253 | rebuilt to any turn from any log that records the match it is the live state of that turn |
| Janken.HistorySnapshotIsLive | internal/games/janken/janken.go:174-253 | for the outcomes as sessions give them the rebuilt snapshot is the live one down to the last statuses |
| JankenMatches.RebuiltFromRun | internal/games/janken/janken.go:174-253 | for every run of the match runner on the game, whatever the sessions do, the log it leaves is readable and rebuilds the state the live master had after any number of applied rounds |
| JankenMatches.BothReplaysAreLive | internal/platform/replay/session_history.go:16-67 | for every such run the game's own history reader and the platform's replay of the same log agree on the live state |
| Janken.Master.ApplySnapshot | internal/games/janken/janken.go:491-544 | on any master, played or not: a snapshot that names its game, decodes and fits restores a state, any other is refused, and changes nothing if it names another game or does not decode |
| Janken.RestoredOverPlayers | internal/games/janken/janken.go:491-544 | on a master that knows its players and nobody else restoring forgets whatever was played |
| JankenSnapshots.RestoredVerdict | internal/games/janken/janken.go:491-544 | a state is restored exactly if its turn is one of the match and it tells of known players alone; then it is what the snapshot tells, players start anew where it tells nothing, and anybody else is kept |
| Janken.RestoredIsLive | internal/games/janken/janken.go:413-544 | restoring a snapshot gives back the state it was taken from |
| Janken.ResumedIsUninterrupted | internal/games/janken/janken.go:491-544 | stopping after any round, restoring and playing on ends as the uninterrupted match |
| Janken.KeyIsComparator | internal/games/janken/janken.go:457-472 | the comparison of two players is the lexicographic order of their ranking keys, and keys are equal exactly when the scores share a place |
| Janken.Master.Result | internal/games/janken/janken.go:455-489 | the placements are the competition ranking of the players by their scores |
| Placements.CompetitionRanking | internal/games/janken/janken.go:475-488 | placements are the players, each placed one below the number of strictly better ones; two share a place exactly when their keys are equal |
| Placements.RankingIsOrderFree | internal/games/janken/janken.go:455-489 | the result does not depend on the order of the players |
| Placements.AssignPlaces | internal/games/janken/janken.go:475-488 | the loop that carries the last place and the previous score |
| Echo.NormalizeTwice | internal/games/echo/echo.go:344-366 | normalizing an answer twice is normalizing it once |
| EchoScores.NormalizedIs | internal/games/echo/echo.go:344-366 | an answer stays accepted exactly when it names just the expected number; any other loses its action, and a wrong echo is named an illegal action |
| Echo.Master.NextStep | internal/games/echo/echo.go:307-341 | while turns remain it asks someone, with a positive expected number |
| Echo.Master.ApplyStep | internal/games/echo/echo.go:369-390 | one step of any mode: scores, last statuses, and the turn or the player whose turn it is; a step of no known mode is counted and reported |
| EchoScores.StepMovesOn | internal/games/echo/echo.go:369-390 | a simultaneous step ends the turn, a sequential one ends it after the last player and else passes it on, one of no known mode leaves it; in all modes the accepted answers of the players asked are counted once and their statuses kept, and nobody else's change |
| EchoScores.StandsAt | internal/games/echo/echo.go:307-390 | after k steps the master stands at the turn and the player that counting steps gives: a turn is one step in simultaneous mode and one for each player in sequential mode |
| EchoScores.MatchIsCounted | internal/games/echo/echo.go:344-390 | in either mode a player's score is the number of steps that asked it and that it answered with just the number of their turn |
| EchoResults.RunIsScored | internal/platform/match/match.go:264-322 | in every run of the match runner on the game in which the sessions answer, each player's score is the number of steps that asked it and in which its session answered with just the expected number |
| Echo.SnapshotFromHistory | internal/games/echo/echo.go:175-266 | recounts the recorded outcomes up to the target turn, and refuses unknown players and outcomes that do not decode |
| EchoSnapshots.RecountIs | internal/games/echo/echo.go:200-232 | recounting any events fails exactly if an outcome up to the target turn does not decode or is nobody's; otherwise a score is the number of the player's accepted outcomes and the last status that of the last one |
| Echo.HistoryIsLiveAtBoundaries | internal/games/echo/echo.go:175-266 | in both modes, at every turn boundary and however the match goes on, recounting gives exactly the live scores and last statuses |
| Echo.HistoryScoreWithinTurn | internal/games/echo/echo.go:175-266 | within a turn the recounted score is the live one exactly when that turn has no accepted echo yet |
| EchoMatches.RecountedFromRun | internal/games/echo/echo.go:175-266 | for every run of the match runner on the game in which the sessions answer, in either mode, recounting its log at a turn boundary gives the live scores and last statuses |
| EchoMatches.BothReplaysAreLive | internal/platform/replay/session_history.go:16-67 | for every such run and boundary the game's own history reader and the platform's replay of the same log agree on the live state |
| Echo.Master.ApplySnapshot | internal/games/echo/echo.go:487-555 | on any master, played or not: a snapshot that names its game, decodes and fits the ruleset restores a state at the start of a turn, any other is refused, and changes nothing if it names another game or does not decode |
| Echo.RestoredOverPlayers | internal/games/echo/echo.go:487-555 | on a master that knows its players and nobody else restoring forgets whatever was played |
| EchoSnapshots.RestoredVerdict | internal/games/echo/echo.go:487-555 | a state is restored exactly if what it says of mode, turn, seed, order and expected number is so and it tells of known players alone; then its turn begins, players start anew where it tells nothing, and anybody else is kept |
| EchoSnapshots.SnapshotIsOfItsGame | internal/games/echo/echo.go:473-555 | a snapshot of one match fits another exactly if mode, range, expected number and, if that one goes by a seed, seed and order are the same |
| Echo.ResumesExactlyAtBoundaries | internal/games/echo/echo.go:487-555 | a snapshot restores the live state exactly at turn boundaries; within a sequential turn the resumed master asks another player than the live one |
| Echo.HistoryResumes | internal/games/echo/echo.go:175-266 | a snapshot rebuilt from the log at a turn boundary resumes the live match |
| Echo.KeyIsComparator | internal/games/echo/echo.go:440-447 | more accepted echoes rank first and equal scores share a place |
| Echo.Master.Result | internal/games/echo/echo.go:434-463 | the placements are the competition ranking of the players by their scores |
| WasmImports.ReadU32 | artifactbundle/bundle.go:291-308 | the shifting and or-ing loop reads what the grammar reads, and its next offset |
| WasmImports.DigitStep | artifactbundle/bundle.go:296-303 | one round or-s in a shifted digit: that adds it at its base-128 place and never wraps |
| WasmImports.MasksOnBits | artifactbundle/bundle.go:299-304 | the remainder and comparison of the grammar are the masks of the code on every byte |
| WasmImports.ReadsExactlySmall | artifactbundle/bundle.go:291-308 | of all well-formed u32 encodings, padded ones included, exactly those of values below 2^29 are read, up to their last byte whatever follows |
| WasmImports.ReadsShortest | artifactbundle/bundle.go:291-308 | the shortest encoding of every u32 is read below 2^29 and rejected from 2^29 on |
| WasmImports.ReadName | artifactbundle/bundle.go:261-268 | a length and that many bytes, within bounds |
| WasmImports.SkipLimits | artifactbundle/bundle.go:277-289 | flags, a minimum and, on odd flags, a maximum |
| WasmImports.SkipTableType | artifactbundle/bundle.go:270-275 | an element type and limits |
| WasmImports.SkipDesc | artifactbundle/bundle.go:230-254 | skips exactly the import description that the grammar takes, of every kind |
| WasmImports.ValidateImport | artifactbundle/bundle.go:219-254 | one round of the section loop |
| WasmImports.ValidateImportSection | artifactbundle/bundle.go:213-259 | count many imports with no byte left |
| WasmImports.ValidateImports | artifactbundle/bundle.go:193-211 | the section scan, which terminates and stays in bounds |
| WasmImports.EncodedSectionVerdict | artifactbundle/bundle.go:213-259 | an encoded import section is accepted exactly when its integers are in range and every module is the allowed one |
| WasmImports.AcceptedIffEncodesWasiSection | artifactbundle/bundle.go:213-259 | arbitrary bytes are accepted exactly when they encode such a section in the grammar the check reads |
| WasmImports.AcceptedIffEveryImportIsWasi | artifactbundle/bundle.go:193-259 | for every section sequence with at most one import section and integers in range, a module is accepted if and only if every import is of wasi_snapshot_preview1 |
| WasmImports.AcceptedModuleShape | artifactbundle/bundle.go:193-259 | an accepted module is sections without imports, then nothing or one such import section; what follows it is not looked at |
| WasmStandard.AcceptedIsStandardIff | artifactbundle/bundle.go:213-259 | accepted bytes are an import section of the standard if and only if every field name is UTF-8 and every description is, byte by byte, one of the standard |
| WasmStandard.StandardDescIff | artifactbundle/bundle.go:230-254 | a description the check skips is one of the standard if and only if its flags are the single byte 0 or 1, its element type funcref, its value type one of four and its mutability 0 or 1 |
| WasmStandard.StandardVerdict | artifactbundle/bundle.go:213-259 | an import section of the standard with integers in range is accepted exactly when every module is the allowed one |
| WasmStandard.LooseDescriptionsAreAccepted | artifactbundle/bundle.go:230-254 | any description the check skips is accepted in a one-import section, and that section is standard exactly when the description is |
| WasmStandard.NotStandardButAccepted | artifactbundle/bundle.go:213-289 | five concrete descriptions, one for each looseness, that are accepted and not standard |
| WasmStandard.ForeignSectionIsSkipped | artifactbundle/bundle.go:193-211 | of the section ids beyond those of the standard 12 is passed over, for every size the reader takes and whatever follows, and any other ends the scan with an error |

## Left out

- ArenaRanking.StoredRankingIsRecomputed: in runs that keep the conditions of RankingCache.Orderly: submitted bot ids carry no surrounding blanks, as the bot store hands them out; a ranked run is demoted only by a run of its own scope, which is ranked or comes when no credit of the match is due; a summary written over that of a ranked run, or of one that a refresh is about to read, counts the same, what a completion credits counts like its file, and a ranked run completed once more stays official; no ranking call of a scope reads between the read and the write of another; and no credit or refresh is lost. The code ensures only the first, see ArenaFailures, and ArenaExactness says exactly when breaking the others does harm. It compares counts, runs and matches, not their order nor the last run, match, player and name of an entry, which do depend on the order of crediting.
- Arena.OneOfficialAndExactLine: a worker's decision to promote and the update that records it are one step; as two store calls a promotion between them can leave two official runs, see Arena.LateDecisionIsSafeIff and ArenaFailures.PromotedInBetween.
- RunnerLog.ReplayIsLive: for logs whose statuses name their player and whose accepted initializations do not report a stopped runtime, as every player session ensures; outside of the first see RunnerLog.UnnamedStatusDiverges. An action that is not valid JSON, which the log replaces by a note, is not modelled.
- Replay.SnapshotFromSessionHistory: takes a number of rounds after which it gives up, because a master could ask for steps without requests for ever; it does not matter otherwise, see Replay.BudgetDoesNotMatter.
- MatchRunner.Runner.RunDecisionLoop: the context is done at some round chosen by the surroundings, so a match that never ends is not modelled. Concurrent sessions of one step are independent and are asked one after the other.
- MatchRunner.Runner.BuildRecord: visible states and standard error are carried by the code but not stated here; resuming a runner from a snapshot is not modelled.
- RankingLifecycle.RankingService.ApplyCompleted: for bot ids with surrounding blanks it states runs and matches of the standings, not the entries, which two such ids can leave with one bot id; calls of others between its read and its write are in Arena, not in the method.
- ArenaDiscipline.DisciplinedRankingIsRecomputed: that ranking calls of one scope come one after the other and are not lost is assumed; one process runs the worker loop beside the operator's requests without a lock around them, see ArenaFailures.RefreshOvertaken.
- RankingLifecycle.RankingService.Recompute: every completed record has a readable summary, which stands in the record; missing and unreadable artifacts are not modelled, nor the entries for bot ids with surrounding blanks. Calls of others between its reads are in Arena, not in the method. Scopes that the file name escaping would map to one file are kept apart.
- Arena.StepKeepsSound: writing the artifacts of a run is one action, so a summary file is never read half written; a queue that fails while a worker decides, which leaves a won match unofficial, is not modelled.
- RunControl.RunCommandService.Promote: for bot ids with surrounding blanks it states runs and matches of the standings, not the entries.
- RunControl.Worker.ProcessNext: for bot ids with surrounding blanks it states runs and matches of the standings, not the entries; heartbeats and other callers between its store calls are in Arena, not in the method.
- Janken.SnapshotFromHistory: visible states per player are derived and not stated.
- EchoMatches.BothReplaysAreLive: at turn boundaries, and for sessions whose answers carry a verdict, as every session gives them.
- Echo.SnapshotFromHistory: compares game states; the visible turn shown under the shuffle ruleset differs between snapshot and history.
- Echo.Master.ApplySnapshot: the expected order is taken as given by the ruleset and the seed; deriving it by SHA-256 is not modelled, and a missing seed in the configuration is not filled in from the snapshot.
- PublicList.List: state and replay resources are not modelled. Reading a major version out of a version string is a parameter.
- BotOwnership.OwnershipIsSafe: a scope's quota is fixed; name normalization is an arbitrary function.
- WasmImports.ReadName: names are compared as bytes; UTF-8 validity is not checked by the code either.
- PostgreSQL and S3 stores: their behaviour lives in SQL and remote services.
- Process and WASI runtimes, transports, timers and heartbeats as such: time and arrival are steps.
- HTTP handlers, commands, the operator pages, sign-in, catalogs, artifacts and manifests: plumbing around the core.
- Verifying a stored snapshot against a recomputed one (ranking.go:243-264): it also compares the order and the last fields, which StoredRankingIsRecomputed does not claim.
