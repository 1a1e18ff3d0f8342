# Verified model of the multiplayer minesweeper lobby

This project models the server of a multiplayer minesweeper map and the browser code that follows it, and proves what
the parts promise. The map is a world of cells cut into leaf chunks of 128 x 128 cells. Players open and flag cells; an
open on a cell without a number opens the area around it; a mine hit by a player who already has a cell open closes the
chunk for a while; a first mine is forgiven. One worker per chunk executes the operations on it. Two teams can be
matched, get a chunk of their own, score cells, and settle the result into ranks. Browsers keep a versioned copy of the
chunks they look at.

`dafny verify dfyconfig.toml` checks everything.

## How it is built

Each file is one module.

| module | what it holds |
|---|---|
| `ChunkIds`, `MineField`, `ChunkState` | names of chunks, where the mines are, the stored record of a leaf |
| `Cascade`, `ChunkMachine`, `CascadeHistory` | the worklist cascade, the state machine of one leaf, whole histories of it |
| `WorkerProtocol` | the table of workers, queues, callers that give up, idle exit, under every interleaving |
| `MineMatch`, `MatchOverlay`, `ChunkService` | match records, the match store, the operations of a worker against the stores |
| `MatchInvariants`, `MatchOutcome` | every history of operations and assignments: scores, exclusivity, endings |
| `LockProtocol`, `LockRuns` | assignment, operations and finishing one store call at a time; what particular runs reach |
| `MatchQueue`, `QueueInvariants` | the queue service and every run of it |
| `RankSettlement` | the settlement transaction and every sequence of deliveries |
| `ClosedLeaves` | the closed-leaf index, its totals over the levels, chunk summaries |
| `MapHub` | the subscription index and broadcasts |
| `Replica`, `ReplicaConsistency` | the browser's copy, and when it equals the server's board |
| `Wrappers`, `FiniteSums` | options, results, finite sets and sums |

Code that updates records, stores and tables in place is a class whose methods are proved against functions on values;
the theorems about whole runs are lemmas about those functions. A store is a map; a missing chunk record means an
untouched chunk, as in the program.

## Assumptions

- One server process, one active season, and a store call takes effect at once. Unless a parameter says otherwise
  (`resultOk`, `OperationCalls`, `ApplyCalls`, `FinishCalls`, `StoreCalls`, `Trouble`, `Outcome`, `Faults`, the `ok` of
  a step, a `Stop`), store calls succeed. A call that fails has no effect on the store.
- Which cells are mines is an arbitrary function of region, level and global cell (`Season.hash`); the random order in
  which leaves are tried, identifiers and clock readings are parameters.
- A reader that finds an expired closure loads, reopens and saves in one step. In `WorkerProtocol` the workers are the
  only writers: a reader's reopening between the load and the save of a worker is not a step there.
- Following a user's pointer to an ongoing match is one read.
- In `MatchInvariants` and `MatchOutcome` an operation is atomic with respect to match assignment. `LockProtocol` takes
  that assumption apart: there assignments and operations run store call by store call beside each other, and the
  lemmas about late writers say exactly what then still holds and what does not. `LockRuns.RequestStepsAreAtomic` links
  the two: without interference the steps of an operation, up to any failure, do what the atomic operation does.
- Queue modes are given without surrounding white space.

## Where the code differs from its documentation

- docs/design.md speaks of levels 1 to 6; the code serves levels 0 to 6, and so does the model.
- README.md of the repository lists a `chunk_reopened` message. The code reopens silently, with a new version and no
  event; the browser notices the gap at the next event.
- `reopenExpiredChunk` runs when somebody next looks at the leaf, so the closed-leaf index counts a leaf until then,
  also after its deadline. The index is exact for what is stored.

## Results that say where a property stops

- `ChunkIds.PrintsBack`: parsing accepts more spellings than the printed one, and exactly those without plain coordinates
  do not print back. `MapHub.OnlyPlainNamesHear`, `DeafNameExists`: a subscription under such a spelling is accepted and
  never hears anything.
- `LockRuns.LateWriterGetsIn`, `StrangerIsIn`: an operation authorised before a chunk was locked may write after the
  second look, and even after the match has started there; `LockProtocol.NoStrangerWithoutLateWriter` shows that nothing
  else lets a stranger in.
- `MatchOverlay.FailedApply`: when saving the score fails, the cells stay open and their points are lost.
- `LockProtocol.FailedAssignmentLeavesNothing`, `FinishedHoldsLock`, `LeaksComeFromFailures`: what a failed assignment or
  a failed finish leaves behind, and when. A finish that fails after its record was saved is not resumed by anybody; its
  lock shuts the chunk for ever (`LeakedRefusesAll`, `LockRuns.LeakIsReachable`).
- `MapHub.BroadcastToChunk`: a broadcast panics exactly when a subscriber had been closed before, which takes a client
  that subscribes again after it left or was evicted.
- `QueueInvariants.MatchedForever`: nothing in the queue service ends a match in its records, so a matched user stays
  matched. `QueueInvariants.JoinMovesQueue`: users whose match failed go to the back of the queue.
- `QueueInvariants.UnknownModeWaits`: a Join with an unknown mode reports an error after it has queued the user, who
  then waits until the own Cancel.
- `RankSettlement.SettledForever`: after the commit a redelivery changes nothing, so a missed leaderboard write stays
  missed; `BoardHoldsAPastScore` says which score is then shown.
- `ReplicaConsistency.BlindIsHarmless`, `EventIsHarmless`: the exact condition under which any live event or own answer
  keeps a browser's copy right; `WithoutSnapshot` the one for starting a copy from an event, `PruningIsHarmless` the one
  for throwing its flag table away. `OlderEventSpoils` and `OwnAnswerSpoils` show which guards on versions alone would
  be needed.

## Model

| member | source | states |
|---|---|---|
| `ChunkIds.ParsePrintRoundTrip` | internal/model/chunk.go:25-57 | Parsing a printed chunk ID gives the ID back exactly when its region is non-empty and colon-free and its coordinates are non-negative and fit the integer type |
| `ChunkIds.PrintInjective` | internal/model/chunk.go:55-57 | Different IDs print differently, so the text is a safe key for workers and stores |
| `ChunkIds.PrintsBack` | internal/model/chunk.go:25-57 | The other round trip: a text that parses prints back to itself exactly when its three coordinates are plain numbers, that is digits without a leading zero, or one digit |
| `ChunkIds.ParseAcceptsAlias` | internal/model/chunk.go:116-125 | So every printable ID has a second spelling that parses to it, for one with a plus sign |
| `ChunkIds.PrintsBackNumber` | internal/model/chunk.go:116-125 | A text that reads as a number that is not negative prints back exactly when it is plain |
| `ChunkIds.GlueSplit` | internal/model/chunk.go:26-29 | Splitting at colons loses nothing, and no part has a colon |
| `ChunkIds.AtoiFormat` | internal/model/chunk.go:116-125 | Reading a printed number gives it back, and fails exactly outside the 64-bit range |
| `ChunkIds.AtoiSpelling` | internal/model/chunk.go:116-125 | Reading a number accepts exactly its spellings, that is a fitting sign, any zeros and the printed form, inside the 64-bit range |
| `ChunkIds.ParseExact` | internal/model/chunk.go:25-53 | A text parses exactly when it has four parts, a region and three coordinates, and to those; each error has its exact condition, the first wrong part deciding |
| `ChunkIds.SplitConcat` | internal/model/chunk.go:26-29 | Splitting at colons distributes over joining with one |
| `MineField.IsMineByGlobalPoint` | internal/model/mine.go:37-59 | Whether a cell is a mine depends only on its global position, and each error arises under its own guard |
| `MineField.AdjacentMineCount` | internal/model/mine.go:61-81 | The nested loop returns the number of mines among the in-world neighbours, or the error it meets first |
| `MineField.SameCellSameCount` | internal/model/mine_state.go:42-61 | Two chunk-relative names of one world cell get the same answer and the same number |
| `MineField.NumbersCountMines` | internal/model/mine.go:61-81 | The numbers of the whole world add up to the in-world neighbour counts of its mines |
| `ChunkState.ZeroHasNoMineAround` | internal/model/mine.go:61-81 | No mine touches a cell whose number is zero |
| `Cascade.OpenZeroArea` | internal/service/chunk_service.go:412-473 | The worklist terminates and opens exactly the area of the start on the record, or fails and leaves it alone; flags and older records are untouched |
| `Cascade.AreaIsLeast` | internal/service/chunk_service.go:412-473 | That area is the least set that holds the start and every unblocked neighbour of its zero cells, whatever the visiting order; it holds no mine, no flag and no open cell |
| `Cascade.TryOpen` | internal/service/chunk_service.go:436-456 | One visited cell is opened exactly when it is neither open, flagged nor a mine |
| `Cascade.PushNeighbours` | internal/service/chunk_service.go:458-470 | Exactly the eight neighbours of a zero cell join the queue |
| `Cascade.OpenCellInState` | internal/service/chunk_service.go:475-485 | Opening writes the full record of one cell, removes its flag and changes nothing else |
| `ChunkMachine.UncoverKeeps` | internal/service/chunk_service.go:361-373 | A safe open keeps all flags and old records, opens the asked cell, and every new record is of a safe unblocked cell |
| `ChunkMachine.OpenBodyInv` | internal/service/chunk_service.go:304-398 | An open keeps the chunk invariant, never alters or removes a record, and moves the version with every change |
| `ChunkMachine.ReopenInv` | internal/service/chunk_service.go:726-752 | So does lazy reopening |
| `ChunkMachine.StepKeeps` | internal/service/chunk_service.go:285-398 | So does every write to a leaf |
| `ChunkMachine.ReachableKeepsInvariant` | internal/service/chunk_service.go:285-398 | In every history from a fresh chunk: keys are y*128+x and in range, no mine is open, numbers are true counts, open and flagged are disjoint, a closed chunk was closed by somebody with an open cell in it |
| `ChunkMachine.VersionDeterminesBoard` | internal/service/chunk_service.go:374 | Along a history, equal versions mean equal cells, flags and closure, and later states extend earlier ones |
| `ChunkMachine.ClosedByMineHit` | internal/service/chunk_service.go:334-360 | In every history a closed chunk was closed by one mine hit of a player with an open cell there, and everything, deadline included, is still as that hit left it |
| `ChunkMachine.MineHitCloses` | internal/service/chunk_service.go:334-360 | An open closes the chunk exactly when it hits an unflagged mine and the player has a cell open there; then for the configured time and with the board of that moment |
| `ChunkMachine.OpenRefusals` | internal/service/chunk_service.go:304-333 | Each refusal of an open has its exact condition and changes nothing: closed chunk, flagged cell, invalid mine rate |
| `ChunkMachine.OpenAnswers` | internal/service/chunk_service.go:307-398 | An accepted open names the asked cell and shows the state it leaves; it is cancelled exactly for a covered mine of a player without an open cell there, and then changes nothing; a safe cell comes with its number |
| `ChunkMachine.OpenEffect` | internal/service/chunk_service.go:334-398 | Any other accepted open of a covered cell moves the version by one, adds records of the player and the moment only, and closes the chunk for the configured time on a mine; the answer shows all of it |
| `ChunkMachine.FlagAnswers` | internal/service/chunk_service.go:508-550 | Each answer to a flag request has its exact condition; an accepted one sets or removes one flag and moves the version |
| `ChunkMachine.ReopenAtDeadline` | internal/service/chunk_service.go:726-752 | Reopening lifts a closure exactly when its deadline has come, and before that only completes missing times |
| `ChunkMachine.FrozenUntilDeadline` | internal/service/chunk_service.go:304-306 | A closed chunk stays exactly as it is under every operation before its deadline |
| `ChunkMachine.ClosedUntilReopened` | internal/service/chunk_service.go:726-752 | Even later it changes only by reopening, which leaves the board and moves the version by one |
| `CascadeHistory.CoveredCellsWereFlagged` | internal/service/chunk_service.go:412-473 | In every history, a covered cell next to an open zero cell has been flagged at some moment |
| `CascadeHistory.FlagFreeUnion` | internal/service/chunk_service.go:285-398 | Without flags, the open cells are the union of what the accepted clicks open one by one on an untouched board |
| `CascadeHistory.FlagFreeConfluence` | internal/service/chunk_service.go:285-398 | Flag-free histories with the same accepted clicks open the same cells, in any order and by any players |
| `WorkerProtocol.WorkerTable.constructor` | internal/service/chunk_service.go:78-86 | The table starts empty |
| `WorkerProtocol.WorkerTable.AcquireChunkWorker` | internal/service/chunk_service.go:599-621 | A caller gets the worker in charge of its chunk, counted, or a new one that is put in charge |
| `WorkerProtocol.WorkerTable.ReleaseChunkWorker` | internal/service/chunk_service.go:623-629 | A caller is counted out, never below zero |
| `WorkerProtocol.WorkerTable.RemoveIdleChunkWorker` | internal/service/chunk_service.go:677-688 | An idle worker leaves the table exactly when it is in charge, nothing is queued and nobody is counted |
| `WorkerProtocol.OneWorkerPerChunk` | internal/service/chunk_service.go:577-688 | At every moment of every interleaving, two workers that may execute operations never serve the same chunk |
| `WorkerProtocol.StoreIsFold` | internal/service/chunk_service.go:577-688 | The stored state is the sequential machine folded over the handled operations; handled plus pending operations are the accepted ones, in order, without loss or repetition |
| `WorkerProtocol.SendersAreCounted` | internal/service/chunk_service.go:599-629 | `activeSenders` is the number of callers between acquire and release; the exit check succeeds exactly when no such caller and no queued operation is left; each such caller holds the live worker of its chunk |
| `WorkerProtocol.ResultsNeverBlock` | internal/service/chunk_service.go:659-675 | A running operation can always deliver its result; each handled call has exactly one, in its channel or with its caller, and no other call has any |
| `WorkerProtocol.ExitIsSafe` | internal/service/chunk_service.go:677-688 | A worker exits only with an empty queue and no caller that could still send |
| `WorkerProtocol.NothingStranded` | internal/service/chunk_service.go:577-688 | From every reachable state the live worker can by itself handle everything accepted for its chunk |
| `WorkerProtocol.Drains` | internal/service/chunk_service.go:631-657 | A worker empties its queue in two steps per operation, whatever it meets |
| `WorkerProtocol.CallerGetsItsAnswer` | internal/service/chunk_service.go:577-597 | What a caller receives is the sequential machine's answer to its own request at its place in the log |
| `WorkerProtocol.HandleIsAtomic` | internal/service/chunk_service.go:659-675 | An uncancelled operation does and answers what the atomic open or flag operation does on the stores it meets, its own result or its own error |
| `WorkerProtocol.CallerGetsItsResult` | internal/service/chunk_service.go:577-675 | In every run the caller receives that result, for all stores that agree with what the worker met |
| `WorkerProtocol.QueuesAreBounded` | internal/service/chunk_service.go:599-621 | In every run a queue never exceeds its capacity |
| `WorkerProtocol.HistoryOnlyGrows` | internal/service/chunk_service.go:577-675 | What is accepted or handled stays so, in the same place |
| `WorkerProtocol.RealTimeOrder` | internal/service/chunk_service.go:577-675 | A call that has its result before another call starts is handled before it |
| `WorkerProtocol.CanceledIsVoid` | internal/service/chunk_service.go:591-663 | An operation whose context is cancelled before a worker takes it up, as that of every caller that gave up on a queued one is, changes nothing and is answered with the cancellation, whenever it is handled |
| `WorkerProtocol.CancellationIsReal` | internal/service/chunk_service.go:659-663 | An operation is answered with a cancellation only if its context is cancelled or one of its own calls returned that error |
| `WorkerProtocol.FoldIsHistory` | internal/service/chunk_service.go:659-675 | The fold over the log of a chunk, with store failures at any call, is a history of the chunk machine |
| `WorkerProtocol.StoreIsHistory` | internal/service/chunk_service.go:577-688 | Under every interleaving, what is stored is the end of one sequential history and satisfies the chunk invariant |
| `MineMatch.BuildMineMatchState` | internal/service/mine_match_service.go:325-347 | A new record has every user of every team, with score zero, and the teams as given |
| `MineMatch.RecordedTeams` | internal/service/mine_match_service.go:325-347 | Every team is recorded under its number, and every user with the number of the own team |
| `MineMatch.TeamTimeIsEarliest` | internal/service/mine_match_service.go:268-297 | The team time is the earliest positive scoring time of its members, or zero when there is none |
| `MineMatch.TeamScoreIsSum` | internal/service/mine_match_service.go:273-288 | The score of a team is the sum of the scores of its members |
| `MineMatch.BeatsIsStrictOrder` | internal/service/mine_match_service.go:268-297 | Ranking by score, then time with zero last, then number is a strict total order of the teams |
| `MineMatch.BestExists` | internal/service/mine_match_service.go:268-297 | Every non-empty set of teams has exactly one best |
| `MineMatch.ScoreWinnerTeam` | internal/service/mine_match_service.go:268-297 | For every iteration order and number of teams the loop returns the one best team, and nothing only when there is no team |
| `MineMatch.AllSafeCellsOpened` | internal/service/mine_match_service.go:236-253 | The counting loops compare the open cells with the number of safe cells, and an empty board is never complete |
| `MineMatch.CompletionByCounting` | internal/service/mine_match_service.go:236-253 | On a reachable board with a safe cell, the counts agree exactly when the open cells are the safe cells |
| `MatchOverlay.MineMatchStore.SaveMatchState` | internal/repository/mine_match_repository.go:50-56 | Saving replaces one record and nothing else |
| `MatchOverlay.MineMatchStore.GetActiveMatchByUser` | internal/repository/mine_match_repository.go:58-78 | The ongoing match that a user's pointer names, if any |
| `MatchOverlay.MineMatchStore.SetActiveMatchForUsers` | internal/repository/mine_match_repository.go:80-87 | The pointers of all users of the match, and no others, name it |
| `MatchOverlay.MineMatchStore.DeleteActiveMatchForUsers` | internal/repository/mine_match_repository.go:89-96 | The pointers of all users of the match, and no others, are gone |
| `MatchOverlay.MineMatchStore.GetChunkLock` | internal/repository/mine_match_repository.go:98-111 | The holder of a lock, or zero |
| `MatchOverlay.MineMatchStore.TryLockChunk` | internal/repository/mine_match_repository.go:113-115 | A lock is taken exactly when it is free |
| `MatchOverlay.MineMatchStore.UnlockChunk` | internal/repository/mine_match_repository.go:117-134 | A lock is given back only by its holder |
| `MatchOverlay.MineMatchStore.AuthorizeChunkOperation` | internal/service/mine_match_service.go:95-117 | Match players may operate only their chunk, everybody else only unlocked chunks |
| `MatchOverlay.MineMatchStore.OpponentTeam` | internal/service/mine_match_service.go:255-266 | Some team other than the user's, exactly when there is one |
| `MatchOverlay.MineMatchStore.Finish` | internal/service/mine_match_service.go:299-323 | The stores and the answer after finishing with a failure at any call, and for a match that is finished already |
| `MatchOverlay.FailedFinish` | internal/service/mine_match_service.go:299-323 | A failed finish has no effect exactly when it failed before the record was saved; otherwise the match is finished, its lock stays, and nobody without another ongoing match passes the authorisation there |
| `MatchOverlay.FinishedCleanly` | internal/service/mine_match_service.go:299-323 | A finish that succeeds leaves the winner in the record, none of the pointers of its users and its lock free; every other match, pointer and lock is as it was |
| `MatchOverlay.AuthorizeAnswers` | internal/service/mine_match_service.go:95-117 | A player is refused exactly outside the own chunk, anybody else exactly at a locked one, each with its own error |
| `MatchOverlay.MineMatchStore.ApplyOpenResult` | internal/service/mine_match_service.go:119-168 | The whole effect of an open on the matches, with a failure at any call: none for outsiders and protected opens, a loss on a mine, else scoring and perhaps completion |
| `MatchOverlay.FailedApply` | internal/service/mine_match_service.go:119-168 | A failed open leaves every lock and every other match alone; its points are kept exactly when their save was reached and went well; the match can be over only if its result and its record were saved |
| `MatchOverlay.ScoredOpen` | internal/service/mine_match_service.go:141-155 | A scored open records points and time for the scorer and nobody else, whatever fails afterwards |
| `MatchOverlay.ViewIsStored` | internal/service/mine_match_service.go:119-168 | The answer shows the match exactly to its players in its chunk, and as it is stored by then |
| `MatchOverlay.ApplySucceeds` | internal/service/mine_match_service.go:119-168 | With a valid rate and an opposing team where needed, it goes well exactly when every call that is due goes well |
| `ChunkService.ChunkStateStore.SaveState` | internal/repository/mine_chunk_state_repository.go:49-63 | The state is stored, and the closed set stays exactly the chunks whose stored state is closed |
| `ChunkService.ChunkStateStore.GetState` | internal/repository/mine_chunk_state_repository.go:28-47 | The stored state, if any |
| `ChunkService.ChunkStateStore.ListClosedLeafChunkIDs` | internal/repository/mine_chunk_state_repository.go:65-75 | The closed set |
| `ChunkService.ChunkStateStore.LoadOrNew` | internal/service/chunk_service.go:715-724 | A missing record reads as an untouched chunk |
| `ChunkService.ChunkStateStore.IsCleanChunk` | internal/service/mine_match_service.go:225-234 | Clean means not closed, no open cell and no flag |
| `ChunkService.MapService.ReopenExpiredChunk` | internal/service/chunk_service.go:726-752 | Record and store after reopening, including the case without stored closing times and a save that fails; the closed set stays exact |
| `ChunkService.MapService.PlayerHasOpenedCell` | internal/service/chunk_service.go:400-410 | True exactly when some open cell is the player's, for every iteration order |
| `ChunkService.MapService.OpenCellInWorker` | internal/service/chunk_service.go:285-398 | The stores and the answer after an open, in every branch, with a failure at any store call |
| `ChunkService.MapService.FlagCellInWorker` | internal/service/chunk_service.go:508-550 | The stores and the answer after a flag request, in every branch, with a failure at any store call |
| `ChunkService.OpenOpAnswers` | internal/service/chunk_service.go:285-398 | Every answer to an open of a cell of the chunk: who is refused, what a store failure leaves behind, and otherwise the answer of the board with the view of the match; other chunks are untouched |
| `ChunkService.FlagOpAnswers` | internal/service/chunk_service.go:508-550 | The same for a flag request, which touches no match |
| `ChunkService.CommittedOrNot` | internal/service/chunk_service.go:726-752 | An operation is carried out exactly when no store call fails that it makes; otherwise it says so and at most a reopening stays |
| `ChunkService.ReadReopens` | internal/service/chunk_service.go:726-752 | A reader lifts the closure of one chunk exactly when its deadline has come, and changes nothing else |
| `ChunkService.MapService.FindAndLockCleanChunk` | internal/service/mine_match_service.go:170-212 | The match store and the answer after the search, with other writers between the looks and a failure at any store call |
| `ChunkService.MapService.AssignChunkForMatch` | internal/service/mine_match_service.go:58-93 | The stores and the answer after an assignment, with a failure at any store call |
| `ChunkService.QuietAssign` | internal/service/mine_match_service.go:58-93 | Without store failures it takes the first unlocked clean chunk that stays clean, and sets lock, record and pointers; or nothing when no chunk is left |
| `ChunkService.FailedAssign` | internal/service/mine_match_service.go:58-93 | A failed assignment leaves no pointer, its record only if setting the pointers failed, and a lock only where giving it back failed; else nothing |
| `ChunkService.AssignedPlayers` | internal/service/mine_match_service.go:58-93 | After a success the new match is the active match of all its users and holds the lock of its chunk |
| `ChunkService.AssignedOthers` | internal/service/mine_match_service.go:58-93 | Pointers of others, other matches and older locks are as they were, and the chunk was not locked before |
| `ChunkService.SearchIsExhaustive` | internal/service/mine_match_service.go:170-212 | No chunk is reported only when every chunk of the order was locked, not clean, or written between the two looks |
| `ChunkService.FirstAssignableFinds` | internal/service/mine_match_service.go:170-212 | A full permutation misses no assignable chunk |
| `ChunkService.FirstAssignableIsPlayable` | internal/service/mine_match_service.go:170-212 | An assigned chunk is a playable leaf, unlocked and clean |
| `MatchInvariants.RunKeeps` | internal/service/mine_match_service.go:58-168 | In every history of assignments, opens, flags and reads: locks belong to ongoing matches, pointers to locked ones, scores count cells |
| `MatchInvariants.ScoresCountCells` | internal/service/mine_match_service.go:141-155 | While a match is ongoing, each player's incremental score is the number of open cells of that player in the chunk, and the scores add up to all open cells |
| `MatchInvariants.ScoresAddUp` | internal/service/mine_match_service.go:141-155 | Exact scores of all players sum to the open cells of the chunk |
| `MatchInvariants.MatchChunksAreExclusive` | internal/service/mine_match_service.go:95-117 | The chunk of an active match can be operated by exactly its players, and two active matches never share a chunk |
| `MatchOutcome.OpenEndsMatch` | internal/service/mine_match_service.go:119-168 | An open by a match player ends the match exactly on a mine with an opposing team or on opening the last safe cell; the winner is an opponent, or the best team by the final scores |
| `MatchOutcome.WinnerOpenedMost` | internal/service/mine_match_service.go:156-297 | When an open completes the board, the winning team has at least as many cells of the chunk open as any other team; among equals the earlier time and then the smaller number decides |
| `MatchOutcome.TeamScoreCountsCells` | internal/service/mine_match_service.go:141-155 | While scores are exact, the score of a team is the number of cells its members have open |
| `MatchOutcome.MatchEndsInTime` | internal/service/mine_match_service.go:156-167 | In a history without failures no active match has all its safe cells open: it ended with the operation that opened the last one |
| `MatchOutcome.FinishedForever` | internal/service/mine_match_service.go:299-323 | A finished match, winner included, is the same in every later state |
| `LockProtocol.OpenWrites` | internal/service/chunk_service.go:285-398 | An open keeps every record, and what is new on the board is its user's |
| `LockProtocol.FlagWrites` | internal/service/chunk_service.go:508-550 | So does a flag request |
| `LockProtocol.RunKeeps` | internal/service/mine_match_service.go:58-93 | At every store call of every interleaving, locks, pointers, records and the hands of the workers agree |
| `LockProtocol.ActiveMatchOwnsChunk` | internal/repository/mine_match_repository.go:58-134 | At every store call, a pointer to an ongoing match implies that match holds the lock of its chunk; its players and nobody else pass the authorisation there; two such matches never share a chunk |
| `LockProtocol.StepLeaks` | internal/service/mine_match_service.go:299-323 | A lock leaks exactly when a worker breaks off after saving the finished record or an assignment cannot give its lock back; every further step keeps it leaked |
| `LockProtocol.LeaksComeFromFailures` | internal/service/mine_match_service.go:299-323 | In every run a lock is leaked exactly when such a failure happened before |
| `LockProtocol.LeakedRefusesAll` | internal/service/mine_match_service.go:95-117 | A leaked lock shuts its chunk to every user |
| `LockProtocol.FinishedHoldsLock` | internal/service/mine_match_service.go:299-323 | A finished match holds a lock only while its worker is finishing it, or for ever after such a failure |
| `LockProtocol.FailedAssignmentLeavesNothing` | internal/service/mine_match_service.go:74-91 | A failed assignment is named by no pointer; its record remains exactly when it had been written, a lock exactly when giving it back failed |
| `LockProtocol.FinishedForever` | internal/service/mine_match_service.go:299-323 | Between the single store calls, too, a finished match never changes |
| `LockProtocol.NoStrangerWithoutLateWriter` | internal/service/mine_match_service.go:170-212 | If no second look that finds a chunk clean falls between an authorisation and its write, every open cell and every flag in the chunk of an active match belongs to a player of it |
| `LockRuns.ApplyStepsAreApply` | internal/service/mine_match_service.go:119-168 | The store calls of a worker after a write, cut off at any failure, together do what the specification of ApplyOpenResult says |
| `LockRuns.RequestStepsAreAtomic` | internal/service/chunk_service.go:285-398 | The store calls of one request that nobody disturbs, cut off at any failure, do what the atomic open or flag operation does to boards and matches |
| `LockRuns.AssignStepsAreAtomic` | internal/service/mine_match_service.go:58-93 | The store calls of one assignment that nobody disturbs, with a failure at any of them, do what the specification of the assignment says |
| `LockRuns.SearchStepsAreFind` | internal/service/mine_match_service.go:170-212 | So do those of its search |
| `LockRuns.LeftRecordIsReachable` | internal/service/mine_match_service.go:85-89 | A failed assignment with its record left behind is reachable, in every chunk and for all teams |
| `LockRuns.LeakIsReachable` | internal/service/mine_match_service.go:119-168 | In every chunk with a safe cell and a mine a match of two players can end with its lock leaked: one scores, then completes the board or hits the mine, the finished record is saved and the next call fails; then everybody is refused there |
| `LockRuns.ClearedChunkIsAssigned` | internal/service/mine_match_service.go:225-234 | A chunk in which a flag was set and removed again is assigned like any other |
| `LockRuns.StrangerIsIn` | internal/service/mine_match_service.go:196-209 | What a stranger writes between the second look and the pointers is in the chunk of the running match |
| `LockRuns.LateWriterGetsIn` | internal/service/chunk_service.go:508-550 | A stranger authorised before the match started may write after it: every accepted flag request leaves the stranger's flag in the chunk of the running match |
| `LockRuns.LateWriterIsReachable` | internal/service/chunk_service.go:294-297 | Real runs lead there, in every chunk, for all teams and strangers and every cell |
| `MatchQueue.TeamsPartitionTheGroup` | internal/service/match_queue_service.go:335-362 | Two teams of equal size that hold the group in order, of one or of two players as the mode says |
| `MatchQueue.MatchQueueRepository.Enqueue` | internal/repository/match_queue_repository.go:31-33 | A user goes to the end of one queue |
| `MatchQueue.MatchQueueRepository.QueueLen` | internal/repository/match_queue_repository.go:35-37 | The length of a queue, zero when it does not exist |
| `MatchQueue.MatchQueueRepository.DequeueBatch` | internal/repository/match_queue_repository.go:39-57 | Popped users and remaining queue are the old queue; as many as asked for if there are |
| `MatchQueue.MatchQueueRepository.RemoveFromQueue` | internal/repository/match_queue_repository.go:59-61 | All occurrences of a user leave one queue, in place |
| `MatchQueue.MatchQueueRepository.GetUserStatus` | internal/repository/match_queue_repository.go:63-76 | The stored status, if any |
| `MatchQueue.MatchQueueRepository.SetUserStatus` | internal/repository/match_queue_repository.go:78-84 | One status is replaced |
| `MatchQueue.MatchQueueRepository.DeleteUserStatus` | internal/repository/match_queue_repository.go:86-88 | One status is removed |
| `MatchQueue.MatchQueueService.Join` | internal/service/match_queue_service.go:38-146 | Store and answer after a Join in every branch, restores included, with the chunk that the minesweeper service assigns; and the map after it |
| `MatchQueue.AssignedTogether` | internal/service/match_queue_service.go:122-137 | A chunk assigned by a Join is the match chunk of exactly the players of the group, under the match of the Join, and locked for it |
| `MatchQueue.MatchQueueService.Cancel` | internal/service/match_queue_service.go:172-205 | Store and answer after a Cancel in every branch |
| `MatchQueue.MatchQueueService.FindMatchGroup` | internal/service/match_queue_service.go:219-243 | A group is the front of the queue once it is long enough; unknown modes are refused |
| `MatchQueue.MatchQueueService.UpdateUserStateToMatched` | internal/service/match_queue_service.go:245-267 | All players of the teams, and nobody else, are marked as matched together |
| `MatchQueue.MatchQueueService.UpdateUserStateChunk` | internal/service/match_queue_service.go:269-288 | All players of the teams, and nobody else, get the chunk |
| `MatchQueue.MatchQueueService.RestoreMatchedUsers` | internal/service/match_queue_service.go:290-314 | All players of the teams wait again, at the end of the queue in team order |
| `QueueInvariants.AppliedAt` | internal/service/match_queue_service.go:245-288 | The update loops change exactly the listed users, each once |
| `QueueInvariants.RestoredFacts` | internal/service/match_queue_service.go:290-314 | Restoring appends the listed users to one queue and leaves the others alone |
| `QueueInvariants.WithoutFacts` | internal/repository/match_queue_repository.go:59-61 | Removing a user keeps exactly the other users, and keeps a list without repetition so |
| `QueueInvariants.CancelKeeps` | internal/service/match_queue_service.go:172-205 | A Cancel keeps the lobby invariant |
| `QueueInvariants.RunKeeps` | internal/service/match_queue_service.go:38-205 | Every run of Join and Cancel keeps the lobby invariant |
| `QueueInvariants.WaitingIsQueuedOnce` | internal/service/match_queue_service.go:38-205 | In every run a user is waiting exactly when queued, then exactly once and in the queue of the own mode only |
| `QueueInvariants.MatchedAreTogether` | internal/service/match_queue_service.go:245-288 | The players of a matched user's teams are as many as the mode wants, distinct, and all carry the same match, room, chunk and teams |
| `QueueInvariants.NobodyIsLost` | internal/service/match_queue_service.go:38-205 | Whoever is waiting or matched still is, through all joins, groups and failures, unless that user cancels |
| `QueueInvariants.StepInPlay` | internal/service/match_queue_service.go:172-205 | Only the own Cancel takes a user out, and only a waiting one |
| `QueueInvariants.MatchedForever` | internal/service/match_queue_service.go:55-58 | A matched user's stored state never changes again |
| `QueueInvariants.JoinMovesQueue` | internal/service/match_queue_service.go:38-146 | A Join queues the user; a full group leaves at the front and, if its match or chunk fails, comes back at the end; no other queue moves |
| `QueueInvariants.JoinPlacesGroup` | internal/service/match_queue_service.go:38-146 | The stored state of every user after a Join: the joining user starts anew; each member of a full group is placed in the match of the Join, with its identifier, room, teams and chunk, or waits as before; nobody else changes |
| `QueueInvariants.JoinAnswers` | internal/service/match_queue_service.go:38-146 | Every answer to a Join has its exact condition, and an answered state is the one that is stored |
| `QueueInvariants.UnknownModeWaits` | internal/service/match_queue_service.go:77-93 | A Join with an unknown mode fails and leaves the user waiting in a queue of that name |
| `QueueInvariants.CancelAnswers` | internal/service/match_queue_service.go:172-205 | Every answer to a Cancel has its exact condition; an accepted one marks the user, leaves the own queue without the user and touches nothing else |
| `QueueInvariants.PlacedOnTheMap` | internal/service/match_queue_service.go:122-137 | After a successful 1v1 Join with the minesweeper service, the stored states of the players name the match and the chunk that the map holds for them |
| `QueueInvariants.QueuesInOrder` | internal/service/match_queue_service.go:38-205 | In every run each queue is in order of last arrival |
| `QueueInvariants.GroupIsOldest` | internal/service/match_queue_service.go:219-243 | Every group consists of distinct waiting users of the mode who arrived before everybody left waiting |
| `RankSettlement.RankRepository.BeginTx` | internal/repository/rank_repository.go:25-27 | A transaction starts from the committed tables |
| `RankSettlement.RankRepository.AddRankEvent` | internal/repository/rank_repository.go:57-74 | The event row is inserted unless its event or its match is there already |
| `RankSettlement.RankRepository.UpdatePlayerRank` | internal/repository/rank_repository.go:29-55 | A first result starts at 1000 plus its score; later ones accumulate |
| `RankSettlement.RankRepository.GetPlayerRank` | internal/repository/rank_repository.go:84-98 | The committed row, if any |
| `RankSettlement.RankService.SettleMatchResult` | internal/service/rank_service.go:32-97 | Tables, leaderboard and verdict after one delivery, with a failure at any step |
| `RankSettlement.RowsAreTheFold` | internal/service/rank_service.go:41-83 | Under any deliveries every match and every event takes effect at most once, and the rank rows are the fold of those results |
| `RankSettlement.RowsCountResults` | sql/002_create_rank_table.sql:13-26 | Every row has score 1000 + 100 wins - 60 losses and match count wins + losses, and exists exactly when there is a result |
| `RankSettlement.AcknowledgedIsSettled` | internal/service/rank_service.go:48-51 | A delivery that reports success has its event or match on record |
| `RankSettlement.VerdictExact` | internal/service/rank_service.go:32-97 | A delivery without a fault is acknowledged, so is a repetition of what is on record; every refusal names the step that failed first |
| `RankSettlement.CommitSettles` | internal/service/rank_service.go:41-83 | Once nothing fails up to the commit, event and match are on record and every player has one match more, won or lost, even when the acknowledgement is lost |
| `RankSettlement.BoardAfterCommit` | internal/service/rank_service.go:84-95 | After an acknowledged commit the leaderboard shows the new score of every player up to the one at which its loop breaks |
| `RankSettlement.RolledBack` | internal/service/rank_service.go:41-83 | A failure before the commit, a lost commit or a repetition changes nothing |
| `RankSettlement.SettledForever` | internal/service/rank_service.go:48-51 | Once it is on record, no later delivery of a match or event changes anything, the leaderboard included, whatever is delivered in between |
| `RankSettlement.RedeliveryIsHarmless` | internal/service/rank_service.go:48-51 | So redelivery after an acknowledged or effective delivery of the same event never has an effect |
| `RankSettlement.BoardHoldsAPastScore` | internal/service/rank_service.go:84-95 | Every leaderboard entry is the score the row held after the last settlement that reached the player, and exists exactly when one did |
| `RankSettlement.BoardIsCurrent` | internal/service/rank_service.go:84-95 | An entry equals its row unless a settlement took effect later without reaching it |
| `ClosedLeaves.CountClosedLeaves` | internal/service/chunk_service.go:803-819 | The loop counts the members of the closed set that lie in the chunk, for every iteration order |
| `ClosedLeaves.CountsForAncestor` | internal/service/chunk_service.go:821-828 | A leaf lies in the range of a chunk exactly when the chunk is its ancestor of that level |
| `ClosedLeaves.LevelsAgree` | internal/service/chunk_service.go:803-828 | A chunk's count is the sum over the chunks that tile it at any finer level, so every level of the map has the same sum |
| `ClosedLeaves.FourChildren` | internal/service/chunk_service.go:803-828 | A parent's count is the sum over its four children |
| `ClosedLeaves.DescendantsSize` | internal/service/chunk_service.go:830-833 | A chunk has as many tiles of a level as the square of the scale between them |
| `ClosedLeaves.CountIsBounded` | internal/service/chunk_service.go:779-801 | The count is at most the leaf total, equal to it exactly when all leaves are closed, and positive exactly when one is |
| `ClosedLeaves.RunKeysAreLeaves` | internal/service/chunk_service.go:285-398 | In every run of the map all stored chunks are playable leaves under their printed names |
| `ClosedLeaves.IndexIsExact` | internal/service/chunk_service.go:779-833 | In every run of the map the index of every chunk says exactly what is stored for its leaves |
| `ClosedLeaves.ParseMapChunk` | internal/service/chunk_service.go:893-909 | A request is served exactly when its chunk ID parses and names a chunk of the map |
| `ClosedLeaves.ChunkSummary.ApplyMineState` | internal/service/chunk_service.go:754-777 | The summary fields of a leaf from its stored state, or the defaults without one |
| `ClosedLeaves.ChunkSummary.ApplyClosedLeafAggregate` | internal/service/chunk_service.go:779-801 | Counts, ratio and state of a summary: each state has its exact condition |
| `ClosedLeaves.GetChunkSummary` | internal/service/chunk_service.go:111-143 | A summary reopens the leaf it is about if due and nothing else; it says `closed` exactly when all leaves are stored closed, and has the exact condition of every other state; for a leaf all its fields agree with what is stored, and it is closed exactly until its deadline |
| `MapHub.MapClient.TrySend` | internal/ws/map_hub.go:66-71 | A message is queued exactly when there is room |
| `MapHub.MapHub.Join` | internal/ws/map_hub.go:18-24 | A new client has no subscription; the maps stay inverse |
| `MapHub.MapHub.Leave` | internal/ws/map_hub.go:26-31 | The client is out of every chunk, nobody else is; the maps stay inverse |
| `MapHub.MapHub.ReplaceSubscriptions` | internal/ws/map_hub.go:33-49 | The client has exactly the listed chunks, all other subscriptions stay; the maps stay inverse and no empty chunk remains |
| `MapHub.MapHub.BroadcastToChunk` | internal/ws/map_hub.go:59-74 | Every subscriber with room gets the message once, exactly the full ones leave every chunk and are closed; it panics exactly when a subscriber had been closed before, having dealt with some of the others; the maps stay inverse in any case |
| `MapHub.MapHub.BroadcastChunkEvent` | internal/ws/map_hub.go:51-57 | While no client of the hub has been closed no broadcast panics, every subscriber with room has the message, exactly the full ones are gone and closed, and it stays so |
| `MapHub.MapHub.RemoveClientSubscriptions` | internal/ws/map_hub.go:92-103 | The client leaves all its chunks and no empty chunk remains |
| `MapHub.MapHub.RemoveClient` | internal/ws/map_hub.go:87-90 | The client leaves all its chunks and the table of clients; the maps stay inverse |
| `MapHub.MapHub.ClientSubscriptions` | internal/ws/map_hub.go:76-85 | The chunks of one client, none for a stranger |
| `MapHub.InverseIsUnique` | internal/ws/map_hub.go:5-9 | The map of clients determines the map of chunks |
| `MapHub.SubscriptionsAreUnique` | internal/ws/map_hub.go:5-9 | The map of chunks determines the subscriptions of every client, so the map of clients up to clients without any |
| `MapHub.HandleSubscribeChunks` | internal/ws/map_client.go:91-116 | A request is accepted exactly when all its names are playable, and then subscribes the names as written |
| `MapHub.OnlyPlainNamesHear` | internal/handler/chunk_handler.go:178-195 | Whatever a client has subscribed, it hears the events of a chunk exactly when one of its names for that chunk has plain coordinates |
| `MapHub.DeafNameExists` | internal/ws/map_client.go:98-111 | Every chunk has another name that is accepted |
| `Replica.ChunkReplica.HandleMapWSEvent` | static/app.js:1630-1667 | The copy after one event, and whether a new snapshot is asked for |
| `Replica.ChunkReplica.HandleAnswer` | static/app.js:1710-1711 | The copy after the answer to an own click: the same changes, without a look at the version |
| `Replica.ChunkReplica.ShouldReloadSnapshot` | static/app.js:1669-1673 | A new snapshot is needed exactly when one is held and more than one version is missing |
| `Replica.ChunkReplica.UpsertOpenedCell` | static/app.js:1493-1512 | One cell is replaced in place or added, its flag goes in both tables, the version follows |
| `Replica.ChunkReplica.UpsertOpenedCells` | static/app.js:1514-1519 | All listed cells, or the named cell when none is listed |
| `Replica.ChunkReplica.SetCellFlag` | static/app.js:755-778 | Flag table and snapshot list gain or lose one flag, and the list has no duplicates |
| `Replica.ChunkReplica.EnsureSnapshot` | static/app.js:1438-1452 | A missing snapshot starts empty at version 1 |
| `Replica.ChunkReplica.UpdateChunkAfterAction` | static/app.js:1521-1542 | A held snapshot takes the version and may become closed |
| `Replica.ChunkReplica.LoadSnapshot` | static/app.js:1675-1689 | A snapshot response replaces the copy and its flags |
| `Replica.ChunkReplica.DropSnapshot` | static/app.js:1485-1489 | The snapshot is gone, the flag table stays |
| `Replica.ChunkReplica.PruneInvisibleFlags` | static/app.js:696-704 | The flag table is gone, the snapshot stays |
| `Replica.ChunkReplica.SyncFlagsFromSnapshot` | static/app.js:739-749 | The flag table becomes the set of listed flags |
| `ReplicaConsistency.SentVersion` | internal/handler/chunk_handler.go:178-207 | Every event carries the version of the state it leads to, one more than before unless it repeats an open cell |
| `ReplicaConsistency.SentEffect` | internal/service/chunk_service.go:379-398 | An open event lists the whole board; a flag event changes one flag; a closing event changes no cell |
| `ReplicaConsistency.ReceiveKeeps` | static/app.js:1630-1667 | One event that is not older than the copy and no repeat keeps the copy equal to the server's board at the copy's version |
| `ReplicaConsistency.EventTakesEffect` | static/app.js:1630-1667 | An event of the version of the copy, or the next one unless it repeats, brings a right copy to exactly the state that its write led to |
| `ReplicaConsistency.EventMovesVersion` | static/app.js:1630-1667 | A live event on a held copy either leaves a gap and changes nothing, or brings the copy to its version; without a held copy it still sets or removes its flag |
| `ReplicaConsistency.BlindIsHarmless` | static/app.js:1700-1753 | Any update, own answer or live event, in any order, on a copy of any stored state: the result equals the server's board at its version exactly when that state and the one the update comes from differ only in the cells and the flag that the update speaks of and no closure was lifted from one to the other |
| `ReplicaConsistency.EventIsHarmless` | static/app.js:1630-1667 | A live event, repeated, old or new, is harmless exactly when it leaves a gap or under that condition |
| `ReplicaConsistency.InOrderIsHarmless` | static/app.js:1630-1667 | The condition always holds for an update of the copy's version, and of the next one if it repeats nothing |
| `ReplicaConsistency.AnswerKeeps` | static/app.js:1700-1753 | An own answer keeps a faithful copy so exactly under that condition |
| `ReplicaConsistency.OwnAnswerSpoils` | static/app.js:1747-1748 | For every copy version and every later version but the next there is a history in which an own answer of that version spoils the copy |
| `ReplicaConsistency.CopyIsFaithful` | static/app.js:1630-1689 | In every run of live events, snapshots and own answers that meet their conditions, with events lost, duplicated or reordered and copies dropped and started again, a held copy equals the server's board at its version |
| `ReplicaConsistency.PruningIsHarmless` | static/app.js:696-704 | Throwing away the flag table of a held copy keeps it right exactly when there was no flag |
| `ReplicaConsistency.FaithfulAt` | static/app.js:1493-1542 | Equality holds for every stored state of that version |
| `ReplicaConsistency.RepeatIsHarmless` | internal/service/chunk_service.go:307-325 | The event of a repeated open is harmless exactly when the copy is not one version behind or what it missed touched no other cell and was no reopening |
| `ReplicaConsistency.OlderEventSpoils` | static/app.js:1646-1650 | For every older version there is a history in which an event of that version spoils a faithful copy |
| `ReplicaConsistency.WithoutSnapshot` | static/app.js:1438-1452 | Without a held snapshot, and with any flags from earlier events, an open event starts a right copy exactly when it lists all open cells, as it does unless it repeats, the server has no flags and each known flag is on a listed cell |
| `ReplicaConsistency.ListingExists` | internal/service/chunk_service.go:857-863 | Every board can be listed without repetition |

## Left out

- HTTP handlers, tokens, passwords, configuration, registration, message broker and database connections: plumbing.
- The keyed hash, the float threshold of the mine rate and the random generator: an arbitrary mine function and an arbitrary order stand for them.
- ChunkService.MapService.FindAndLockCleanChunk: the chunks written between its two looks are a parameter, their new contents are not stored; `LockProtocol` has the interleaving with real writes.
- Wrap-around of 64-bit versions, scores and times: unbounded integers stand for them; only parsing models the bound.
- `VisibleChunkRange`, chunk bounds and drawing: floating-point geometry.
- `ListChunks` and `GetChunkSnapshot` as requests: their effect on a leaf is the reading step, their contents are the summary and the snapshot of the replica.
- Demo data for a server without stores: placeholder arithmetic.
- `RoomService` and `RoomHub`: easier versions of the queue and the hub.
- Who set a flag, in the browser's copy: events do not carry it, and the browser writes its own user there.
- The closing times in the browser's copy: they only schedule when it is thrown away.
- Temporary flowers and the chunk list of the page: they do not belong to the copy.
- Several server processes, chunk ownership between them, and time limits of matches: future work in the repository.
- Idle timers: a timeout may happen at any moment; the draining of a fired timer is not modelled.
- White space around a queue mode, and the update time stored with a status.
- Deletion of a fully served queue key: an empty queue and a missing one read the same.
