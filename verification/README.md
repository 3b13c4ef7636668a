# Verified model of an agent runtime

The runtime drives long agent conversations: it keeps and compacts message histories, packs them
into a model's context, runs analytical graphs with checkpoints, hands work to leased workers,
caches and rate-limits, and streams turns that may pause for an approval. This project models the
parts of it where several operations must agree, and proves what they keep.

Each module models one component. State that the program updates in place is a class whose methods
are proved against a function on values; concurrency is a state machine over the steps between two
suspension points, and its theorems quantify over every sequence of steps.

- **Context** (`Messages`, `Grouping`, `Packing`, `Packer`, `PackingLaws`, `ShortenedPacking`, `TurnMemory`,
  `History`, `HistoryViews`, `Compaction`, `ContextRuns`, `Recovery`). A run's log is grouped into tool exchanges, compacted
  behind a cursor, archived, projected and packed. `GroupingIsExact` characterises grouping;
  `TwoStagePacking`, `ShortenThenPack`, `PackedShape` and `RepackingIsIdentity` packing;
  `CompactionNeverCutsExchanges`, `ArchivingIsInvisible` and `RecoveryRoundTrip` hold over whole runs.
- **Analytical graphs** (`Dag`, `Levels`, `Engine`, `EngineRuns`, `Scheduler`, `GraphStore`, `Join`).
  `ValidateDag` accepts exactly the acyclic graphs; every saved state of every interleaving, crash and
  resume holds results of the recursive evaluation (`SavedStatesAreEvaluated`); the scheduling loop
  terminates with it (`Scheduler.GraphRun.Schedule`).
- **Work queue** (`WorkQueue`), **cache** (`Cache`, `CacheLaws`, `SingleFlight`), **limits**
  (`RateLimiter`).
- **Conversations** (`Turns`, `TurnStatuses`, `TurnAnswers`, `Resumes`, `EventBus`, `Streaming`). The turn
  protocol with crashes, which status an answer shows, which pause an answer reaches, how concurrent callers answer a paused run, what a subscriber
  sees, and the text that a followed run delivers.

Several properties that one would expect turn out to hold only under a condition. For each, the exact
condition is proved:

- Archiving is invisible if and only if the step is safe (`ArchiveInvisibleIffSafe`): a retained tail
  whose only user message is a repair request hides the real request for good.
- Recovery succeeds if and only if there are at most 32 archives of at most 256 pages each.
- An expired lease is claimable if and only if attempts remain; a worker lost on the last attempt
  leaves its item leased for ever (`LastLeaseIsStuck`), which happens to every single-attempt item
  (`LostWorkerStrandsItem`).
- A subscriber whose queue never overflows misses nothing if and only if the history limit is at
  least the queue size (`NothingMissedIffHistoryCovers`). The defaults satisfy this.
- The coalescer's comment allows one event per `max_chars` characters besides the time-triggered
  ones. That holds of all calls if and only if `max_chars` is 1 (`BoundAlwaysHoldsIff`), and of given
  calls if and only if the room left in their pieces is paid for by time-triggered flushes and buffered
  text (`BoundHoldsIff`). Two events per `max_chars` are always enough (`EventsAreBounded`).
- Answers keep reaching the pause that their message shows if and only if nothing stale is shown
  (`AnswersStayTrueIff`). A crash between an answer and its message's update keeps that if and only if
  recovery has failed the message, or the run has ended, is held, or waits at the shown pause or for
  the other kind of answer (`CrashedAnswerIsHarmlessIff`); otherwise a later answer can reach a pause the
  user has not seen (`StaleAnswerReachesLaterPause`).
- A run that is held until the outcome of a tool call is settled is shown as if it waited for an
  approval, and goes on without an answer. That is harmless if and only if no message shows it
  (`ContinuedRunIsHarmlessIff`); otherwise the answer to what was shown can reach a later pause
  (`HeldShownReachesLaterPause`).
- A paused or held run can go on without being cancelled if and only if it does not wait for a stranded
  decision (`PausedRunGoesOnIff`). A crash or a steering message between a decision and its commit strands it
  (`LostDecisionIsStranded`), and the expiry pass, documented to time out paused runs that can no longer
  be resumed, passes such a run over.
- `whole_tool_exchanges` is idempotent on windows of well-formed logs, and in general if and only if
  every call that will be kept has a result after it (`SecondPassChangesNothingIff`).
- With shortening, a larger budget keeps a superset if and only if shortening no group saves more than
  the next older one needs (`LargerBudgetsKeepMoreIff`).
- The in-flight cap holds if and only if the limiter denies when it fails (`CapHoldsIff`).

`dafny verify dfyconfig.toml` checks the project.

## Model

| member | source | states |
|---|---|---|
| `Grouping.GroupMessages` | src/algen_agent_runtime/context/packing.py:35-48 | the grouping loop computes `MessageGroups`, including the refusal of a result without its call |
| `Grouping.GroupingIsExact` | src/algen_agent_runtime/context/packing.py:35-48 | grouping succeeds with `gs` if and only if `gs` are well-formed exchanges that concatenate to the messages, so the decomposition is unique; the only failure is a conflict |
| `Grouping.GroupsConcatenate` | src/algen_agent_runtime/context/packing.py:35-48 | groupable runs of messages concatenate group by group |
| `Packing.ShortenGroup` | src/algen_agent_runtime/context/packing.py:51-71 | the two nested loops compute `ShortenToolGroup`; nothing is returned when the group is no tool exchange or nothing is too long |
| `Packing.ShorteningKeepsExchange` | src/algen_agent_runtime/context/packing.py:51-71 | a shortened exchange has the same head, length, roles, names and answered ids in the same order, and is as well grouped and as pinned as before |
| `Packing.ShorteningKeepsBeginnings` | src/algen_agent_runtime/context/packing.py:51-71 | of a shortened exchange each text block longer than the limit is exactly its beginning and the note, and everything else is unchanged; nothing is returned exactly when the group is no tool exchange or no result has such a block |
| `Packing.MarkIsRequired` | src/algen_agent_runtime/context/packing.py:90-112 | scanning from the newest group marks exactly the required ones: pinned, last, latest user |
| `Packer.RequiredIndices` | src/algen_agent_runtime/context/packing.py:90-112 | the index set holds exactly the required groups |
| `Packer.Select` | src/algen_agent_runtime/context/packing.py:120-139 | the selection loop over indices, with its remaining budget and its shortened map, selects what `Keep` keeps |
| `Packer.Emit` | src/algen_agent_runtime/context/packing.py:140-145 | the output lists the selected groups in order, shortened where a shortened form was recorded |
| `Packer.PackMessages` | src/algen_agent_runtime/context/packing.py:74-145 | the whole in-place algorithm equals the specification `Pack`, failures included |
| `PackingLaws.TwoStagePacking` | src/algen_agent_runtime/context/budget.py:26-38 | without shortening, packing to B1 and then to B2 gives the messages, or the failure, of packing once to the smaller limit |
| `PackingLaws.PackingCommutes` | src/algen_agent_runtime/context/builder.py:75-83 | the order of two limits does not matter, and repeating a limit changes nothing |
| `PackingLaws.KeepComposes` | src/algen_agent_runtime/context/packing.py:120-139 | the greedy selection itself composes: spending r1 and then r2 is spending the smaller |
| `PackingLaws.LargerBudgetKeepsMore` | src/algen_agent_runtime/context/packing.py:120-139 | what is kept is the required groups plus a newest run, and the run starts no later for a larger budget |
| `PackingLaws.LargerBudgetKeepsSuperset` | src/algen_agent_runtime/context/packing.py:74-145 | a larger budget succeeds whenever a smaller one does, keeps a superset, and packs down to the smaller outcome |
| `PackingLaws.PackedShape` | src/algen_agent_runtime/context/packing.py:74-145 | with or without shortening: the cost is within the budget, every required group is unchanged, the other kept groups are a contiguous newest run of whole or shortened groups from the position where the selection stops, re-grouping gives them back exactly, and the next older group would not fit |
| `PackingLaws.RepackView` | src/algen_agent_runtime/context/packing.py:74-145 | grouping a packed list again yields the kept groups, with the same ones required |
| `PackingLaws.RepackingIsIdentity` | src/algen_agent_runtime/context/packing.py:74-145 | re-packing a packed context changes nothing, also with shortening |
| `PackingLaws.FailsExactlyWhenRequiredTooLarge` | src/algen_agent_runtime/context/packing.py:113-119 | packing fails for want of budget if and only if the required groups alone exceed it |
| `PackingLaws.PackedMessagesComeFrom` | src/algen_agent_runtime/context/packing.py:140-145 | every packed message is one of the messages, or a tool result of theirs with its long texts cut to their beginnings |
| `PackingLaws.RequiredMessagesArePacked` | src/algen_agent_runtime/context/packing.py:90-112 | whatever the budget, every system, summary, working-state and skill message, the last message and the latest user message are packed |
| `ShortenedPacking.ShortenThenPack` | src/algen_agent_runtime/context/builder.py:75-83 | packing to B1 with shortening and then to B2 without fails if and only if the required groups exceed min(B1, B2); otherwise it keeps them unchanged and a maximal newest run of the first stage's groups, within min(B1, B2) |
| `ShortenedPacking.LargerBudgetsKeepMoreIff` | src/algen_agent_runtime/context/packing.py:120-139 | with shortening, all larger budgets keep the groups of smaller ones if and only if no group's shortening saves more than the next older group that is not required needs |
| `ShortenedPacking.LargerBudgetCanKeepLess` | src/algen_agent_runtime/context/packing.py:120-139 | a context and two budgets of which the larger one drops a message that the smaller one keeps |
| `TurnMemory.KeepWholeExchanges` | src/algen_agent_runtime/context/turn_memory.py:56-75 | the cleanup loop equals `WholeToolExchanges` |
| `TurnMemory.FindQuestion` | src/algen_agent_runtime/context/turn_memory.py:34-41 | the search from the end finds the last user message that asked the input |
| `TurnMemory.RememberTurn` | src/algen_agent_runtime/context/turn_memory.py:21-53 | the turn memory built step by step equals `TurnMessages` |
| `TurnMemory.WholeOfGroups` | src/algen_agent_runtime/context/turn_memory.py:56-75 | on a log with unique calls the cleanup keeps exactly the complete exchanges, in order |
| `TurnMemory.WindowBecomesSafe` | src/algen_agent_runtime/context/turn_memory.py:56-75 | any window cut from a well-formed log with unique call ids becomes empty or starts at a user message with every call directly followed by all its results; a second pass changes nothing |
| `TurnMemory.SecondPassChangesNothingIff` | src/algen_agent_runtime/context/turn_memory.py:56-75 | a second pass changes nothing if and only if, from the first user message on, every call of a message whose calls are all answered has a result after such a message |
| `TurnMemory.SecondPassCanDropMore` | src/algen_agent_runtime/context/turn_memory.py:56-75 | the idempotence fails somewhere: a result before its call |
| `TurnMemory.TurnIsSafeMemory` | src/algen_agent_runtime/context/turn_memory.py:21-53 | what a finished turn leaves in memory starts with its question, holds whole exchanges only, and survives the cleanup that reading applies |
| `TurnMemory.TurnKeepsExactly` | src/algen_agent_runtime/context/turn_memory.py:34-53 | a turn leaves exactly its question, then of what followed it the complete exchanges with their results capped to their beginnings and what the user said except repair messages, in order, and the final answer |
| `TurnMemory.InitialHistoryGroups` | src/algen_agent_runtime/context/history.py:21-31 | the history assembled from any memory window groups into instructions, complete exchanges and the request |
| `History.RunHistory.InitializeHistory` | src/algen_agent_runtime/context/history.py:11-31 | what initialising changes, for every state of the run: already initialised, archived without tail, legacy messages, fresh |
| `History.RunHistory.ArchiveCompactedPrefix` | src/algen_agent_runtime/context/history.py:74-87 | archiving changes the four history fields as `Archive` says, or fails and changes nothing |
| `History.ArchivePreservesView` | src/algen_agent_runtime/context/history.py:74-87 | one archive step never changes the projected view, in any state |
| `History.ArchiveIsIdempotent` | src/algen_agent_runtime/context/history.py:74-87 | archiving twice in a row is archiving once |
| `History.PinsFacts` | src/algen_agent_runtime/context/history.py:45-58 | pinning keeps exactly the system messages, and the latest genuine request unless the tail shows a user message |
| `HistoryViews.ViewShows` | src/algen_agent_runtime/context/history.py:42-71 | the view of a compacted history is the system messages before the cursor, the newest request among them unless the tail shows a user message, a summary message that carries the summary and its archive, and the tail |
| `HistoryViews.ProjectionFailsIff` | src/algen_agent_runtime/context/history.py:34-43 | the projection fails exactly for a dropped prefix without its cursor or tail and for a cursor outside what is retained |
| `HistoryViews.ArchiveLeaves` | src/algen_agent_runtime/context/history.py:74-87 | archiving leaves the view as messages, the tail as history, what stands before the summary as pins and the cursor as offset |
| `History.ArchivingIsInvisible` | src/algen_agent_runtime/context/history.py:34-87 | over every run of appends, commits and safe archive steps, the trimmed state projects what a reference that keeps the full log at offset 0 projects |
| `History.ArchiveInvisibleIffSafe` | src/algen_agent_runtime/context/history.py:34-87 | an archive step stays invisible to every later safe run if and only if its tail shows a genuine request, shows no user message, or there is no request to lose |
| `History.UnsafeArchiveShows` | src/algen_agent_runtime/context/history.py:48-58 | after an unsafe archive step one more message and a commit expose the lost request |
| `History.RepairTailIsUnsafe` | src/algen_agent_runtime/context/history.py:48-58 | the unsafe case occurs: a tail whose only user message is a repair message |
| `Compaction.FilterNonSystem` | src/algen_agent_runtime/context/compaction.py:87-91 | the source of a candidate is its messages without the system ones |
| `Compaction.NonSystemFacts` | src/algen_agent_runtime/context/compaction.py:87-91 | the source keeps every message that is not a system message, each once and in order |
| `Compaction.SelectPrefix` | src/algen_agent_runtime/context/compaction.py:77-137 | the loop over eligible groups selects what `Scan` says: the longest prefix before an unfinished exchange or an oversized request, and the reason otherwise |
| `Compaction.AssessCompaction` | src/algen_agent_runtime/context/compaction.py:27-138 | the whole assessment with its refusals equals `Assess` |
| `Compaction.AssessmentDecides` | src/algen_agent_runtime/context/compaction.py:62-138 | the answer in terms of the inputs: disabled, uninitialised, pending and below-trigger each exactly when they apply; when compaction is due there is a plan exactly if some old groups are finished, hold something to summarize and fit with every shorter run of them, and it covers the longest such run; otherwise the reason is the first group that cannot be passed |
| `Compaction.PlanEndsOnBoundary` | src/algen_agent_runtime/context/compaction.py:70-138 | a plan ends on a group boundary, covers finished exchanges only, advances the cursor, archives exactly the covered messages, fits the input limit and leaves the newest groups alone |
| `Compaction.AssessmentIgnoresTrim` | src/algen_agent_runtime/context/compaction.py:70-138 | a trimmed state and the full log get the same assessment and plan |
| `ContextRuns.CompactionNeverCutsExchanges` | src/algen_agent_runtime/context/compaction.py:70-138 | over any number of appends, compactions and archive steps the cursor lies on a group boundary, everything before it is finished exchanges, and the newest groups stay after it |
| `ContextRuns.CommitKeepsBoundary` | src/algen_agent_runtime/context/compaction.py:121-137 | a committed plan strictly advances the cursor to a later boundary and archives exactly that part of the log |
| `ContextRuns.ProjectedViewGroups` | src/algen_agent_runtime/context/history.py:42-71 | the active view of every reachable state groups as pinned messages, the summary and the log's own groups |
| `ContextRuns.AssessmentNeverConflicts` | src/algen_agent_runtime/context/packing.py:39-44 | so assessing a reachable state never fails on a split exchange |
| `ContextRuns.ArchivePolicyIsInvisible` | src/algen_agent_runtime/context/history.py:74-87 | a run with archive steps and the same run without them have the same plans, archives and active view, as long as each archive step is safe |
| `ContextRuns.ArchivingFromStartIsInvisible` | src/algen_agent_runtime/context/history.py:74-87 | from the start of a run, safe archive steps end with the log, archives and active view of the run that never drops anything |
| `Recovery.ReadAll` | examples/context_evaluation.py:86-109 | the page loop gives the text back if and only if it fits 256 pages of 512 characters |
| `Recovery.FetchArchive` | examples/context_evaluation.py:86-115 | one archive is read, decoded and checked for its end position and message count |
| `Recovery.RecoverSources` | examples/context_evaluation.py:74-124 | the walk with visited set, chunks and tail equals `Recovered` |
| `Recovery.WalkFollowsChain` | examples/context_evaluation.py:82-120 | walking a chain succeeds if and only if it is within the limits, and then yields the log prefix exactly |
| `Recovery.WalkIsExact` | examples/context_evaluation.py:86-124 | whatever is stored, the walk follows distinct archives, at most 32, each readable and ending where the newer one begins, and returns their messages if they reach the start, and otherwise reports the first fault for what it is |
| `Recovery.RecoveryRoundTrip` | examples/context_evaluation.py:74-124 | in every reachable state recovery succeeds if and only if there are at most 32 archives and each fits the paging limit, and then returns the full log |
| `Recovery.ChainCountsCompactions` | src/algen_agent_runtime/context/compaction.py:121-137 | the chain holds one archive per compaction |
| `Dag.Validator.Visit` | src/algen_agent_runtime/analytics/contracts.py:119-128 | the depth-first visit terminates, restores `visiting`, marks the node visited, and fails only when there is a cycle |
| `Dag.ValidateDag` | src/algen_agent_runtime/analytics/contracts.py:103-132 | accepts if and only if the node limit holds, ids are unique, dependencies are known and there is no cycle |
| `Levels.FindReady` | src/algen_agent_runtime/analytics/engine.py:179-189 | outside a dependency-closed set of an acyclic graph some node waits only for that set |
| `Levels.LevelFacts` | src/algen_agent_runtime/analytics/contracts.py:103-132 | a node is above its dependencies, by exactly one above the highest |
| `Levels.ChainsAreShort` | src/algen_agent_runtime/analytics/contracts.py:103-132 | no dependency chain from a node is longer than its level |
| `Levels.LongestChain` | src/algen_agent_runtime/analytics/contracts.py:103-132 | and one is exactly that long |
| `Engine.ResolvedInputsEvaluate` | src/algen_agent_runtime/analytics/engine.py:286-303 | a ready node finds all its inputs, and its handler then computes the recursive evaluation |
| `Engine.SomethingIsReady` | src/algen_agent_runtime/analytics/engine.py:179-189 | while nodes are incomplete one of them can run |
| `Engine.ActKeepsValid` | src/algen_agent_runtime/analytics/engine.py:159-255 | every scheduler step, failure, timeout and cancellation keeps the driver valid and loses no completed node |
| `EngineRuns.AcceptedIsWellFormed` | src/algen_agent_runtime/analytics/contracts.py:82-132 | a graph the validators accept satisfies what the engine needs |
| `EngineRuns.SavedStatesAreEvaluated` | src/algen_agent_runtime/analytics/engine.py:119-255 | in every saved state of every run, with any number of drivers, interleavings, crashes and resumes, the completed set is dependency-closed and holds exactly the recursively evaluated results |
| `EngineRuns.DriversFinishEvaluated` | src/algen_agent_runtime/analytics/engine.py:119-204 | a driver that finishes has evaluated the whole graph, and none ever ends with "no runnable nodes" |
| `EngineRuns.ResumeGoesOn` | src/algen_agent_runtime/analytics/engine.py:105-117 | a resumed driver goes on from what was saved, with interrupted nodes waiting again and nothing else changed, and ends before it starts anything if a node had failed or been cancelled |
| `EngineRuns.DriversLeaveTheirOutcome` | src/algen_agent_runtime/analytics/engine.py:119-157 | a driver that is done leaves a finished graph, one that failed or timed out a failed one, a cancelled one a cancelled one, any other one a running one; after a timeout no node waits or runs; a save stores that |
| `EngineRuns.NodesChangeOnlySo` | src/algen_agent_runtime/analytics/engine.py:206-255 | a node runs only when started, is completed only with its handler's result, fails only with its handler or on the way out of a stop, is cancelled only by a timeout, and a completed one never changes |
| `EngineRuns.SavedProgressIsKept` | src/algen_agent_runtime/analytics/stores.py:29-35 | with versioned saves, a node saved as completed stays completed with the same result for ever |
| `EngineRuns.CompletedNodesAreNotRerun` | src/algen_agent_runtime/analytics/engine.py:206-255 | no node is executed that the store held complete at its starting checkpoint, whatever the drivers' copies hold; a driver calls a handler only after such a checkpoint of the node since it last started it, and finds all its inputs |
| `EngineRuns.CompletedNodesAreNotStarted` | src/algen_agent_runtime/analytics/engine.py:159-204 | a node that is started is complete neither in its driver's copy nor, while that copy can be saved, in the store |
| `EngineRuns.RoundsMakeProgress` | src/algen_agent_runtime/analytics/engine.py:191-204 | a round without errors completes exactly the frontier, which is not empty |
| `EngineRuns.RoundsFollowLevels` | src/algen_agent_runtime/analytics/engine.py:159-204 | round r of a run from scratch executes exactly the nodes whose longest dependency chain has length r |
| `Scheduler.GraphRun.constructor` | src/algen_agent_runtime/analytics/engine.py:105-117 | resuming turns interrupted nodes back to pending and keeps results |
| `Scheduler.GraphRun.ExecuteNode` | src/algen_agent_runtime/analytics/engine.py:206-255 | one node is run and completed with its result, or failed; the driver stays valid |
| `Scheduler.GraphRun.RunRound` | src/algen_agent_runtime/analytics/engine.py:191-204 | a round in any order completes its nodes and reports exactly the failing ones |
| `Scheduler.GraphRun.Schedule` | src/algen_agent_runtime/analytics/engine.py:159-204 | the loop ends, never for want of a runnable node; it succeeds if and only if nothing is blocked at the start and no node to be run fails; then the results are the recursive evaluation |
| `GraphStore.InMemoryAnalyticalGraphStore.Create` | src/algen_agent_runtime/analytics/stores.py:16-20 | creating is refused exactly for a known id |
| `GraphStore.InMemoryAnalyticalGraphStore.Get` | src/algen_agent_runtime/analytics/stores.py:22-27 | a graph is visible to its own tenant only |
| `GraphStore.InMemoryAnalyticalGraphStore.Save` | src/algen_agent_runtime/analytics/stores.py:29-35 | saving is refused exactly when the graph is gone or at another version, and otherwise moves the version on |
| `Join.BuildIndex` | src/algen_agent_runtime/analytics/handlers.py:38-66 | the index holds, under each key tuple, the right rows with that key in order |
| `Join.JoinResults` | src/algen_agent_runtime/analytics/handlers.py:38-66 | refuses exactly an input that is no row list, a missing key list or a forbidden fan-out, and otherwise is the order-preserving nested-loop left outer join, where a missing key and a null are the same key |
| `Join.AcceptedJoinKeepsRows` | src/algen_agent_runtime/analytics/handlers.py:38-66 | without fan-out there is one output row per left row, in order: the row itself or merged with a right row of the same key |
| `Join.JoinRowMeans` | src/algen_agent_runtime/analytics/handlers.py:54-64 | a left row gives itself if no right row shares its key, and otherwise one row for each that does, in order: join keys from the left row, other columns from the right row if it has them, else from the left |
| `Join.JoinGoesRowByRow` | src/algen_agent_runtime/analytics/handlers.py:54-64 | the output is that of the left rows one after the other |
| `WorkQueue.InMemoryWorkQueue.Enqueue` | src/algen_agent_runtime/distributed/queue.py:18-26 | a known deduplication key returns the item it stands for and changes nothing; a new one is stored |
| `WorkQueue.InMemoryWorkQueue.Claim` | src/algen_agent_runtime/distributed/queue.py:28-53 | claims, of the items that are due, have attempts left and wait or hold a lease that has run out, the one available first and then created first, and nothing exactly when there is none |
| `WorkQueue.InMemoryWorkQueue.Renew` | src/algen_agent_runtime/distributed/queue.py:55-60 | refused exactly without the lease; otherwise only the expiry moves |
| `WorkQueue.InMemoryWorkQueue.Complete` | src/algen_agent_runtime/distributed/queue.py:62-69 | refused exactly without the lease; otherwise the item is completed |
| `WorkQueue.InMemoryWorkQueue.Fail` | src/algen_agent_runtime/distributed/queue.py:71-82 | refused exactly without the lease; otherwise pending again or failed |
| `WorkQueue.InMemoryWorkQueue.PurgeFinished` | src/algen_agent_runtime/distributed/queue.py:84-102 | deletes only completed or failed items untouched since the cutoff, the oldest ones, up to the limit, all others staying as they are, and frees their keys |
| `WorkQueue.RunOnce` | src/algen_agent_runtime/distributed/worker.py:30-50 | one undisturbed worker turn: claims, then completes or fails the same item |
| `WorkQueue.RunsAreSafe` | src/algen_agent_runtime/distributed/queue.py:18-108 | over every run with any workers, crashes and expiries: claims never exceed the attempt limit, every item is in a proper state (pending has attempts left, leased exactly with owner and expiry), and the deduplication index is a bijection with the items |
| `WorkQueue.LeaseProtectsHolder` | src/algen_agent_runtime/distributed/queue.py:30-57 | over every run, an item that is still leased is claimed again no earlier than its lease's seconds after the claim or the last renewal that granted it |
| `WorkQueue.ItemsChangeOnlySo` | src/algen_agent_runtime/distributed/queue.py:48-84 | an item changes only by a claim or renewal that leases it, its owner's completion with a result, or its owner's failure, after which it waits again exactly for a retry while attempts remain; nothing else about it changes |
| `WorkQueue.TakenLeaseIsPowerless` | src/algen_agent_runtime/distributed/queue.py:104-108 | a worker that was not the last to claim an item cannot renew, complete or fail it |
| `WorkQueue.FinishedIsFinal` | src/algen_agent_runtime/distributed/queue.py:28-102 | a finished item changes only by being purged |
| `WorkQueue.FinishedStaysFinished` | src/algen_agent_runtime/distributed/queue.py:18-108 | over every run a finished item stays as it is until purged, is never claimed again, and its id never returns |
| `WorkQueue.ExpiredLeaseIsClaimable` | src/algen_agent_runtime/distributed/queue.py:31-44 | an expired lease is claimable again if and only if attempts remain |
| `WorkQueue.LastLeaseIsStuck` | src/algen_agent_runtime/distributed/queue.py:31-44 | on its last attempt it never is: without its owner the item stays leased for ever and is not purged |
| `WorkQueue.LostWorkerStrandsItem` | src/algen_agent_runtime/distributed/queue.py:31-44 | every single-attempt item that is enqueued and claimed stays leased unchanged for ever if its worker is lost |
| `Cache.InMemoryCacheStore.Get` | src/algen_agent_runtime/cache/stores.py:41-51 | returns the live value and makes the key the most recent, or removes an expired entry |
| `Cache.InMemoryCacheStore.Set` | src/algen_agent_runtime/cache/stores.py:53-65 | stores the entry as most recent and evicts from the oldest end; the tag index stays exact |
| `Cache.InMemoryCacheStore.Delete` | src/algen_agent_runtime/cache/stores.py:67-71 | removes the key from entries, order and index |
| `Cache.InMemoryCacheStore.InvalidateTags` | src/algen_agent_runtime/cache/stores.py:73-80 | removes and counts exactly the entries that carry one of the tags |
| `Cache.RemoveTags` | src/algen_agent_runtime/cache/stores.py:89-95 | the key is forgotten under the tags and empty tags disappear |
| `CacheLaws.AgreesWithPlainMap` | src/algen_agent_runtime/cache/stores.py:41-95 | after any operations a hit is what a plain unbounded map holds, a value that map holds is missed only if at least `max_entries` other keys were used since its last use, and the size is bounded |
| `SingleFlight.OneLoaderAtATime` | src/algen_agent_runtime/cache/service.py:142-163 | under all interleavings at most one caller loads, and the table has an entry exactly while its creator has not cleaned up |
| `SingleFlight.FollowersShareTheOutcome` | src/algen_agent_runtime/cache/service.py:149-160 | everyone who ended through a future ended with the same value or exception |
| `SingleFlight.EveryoneGetsTheLoad` | src/algen_agent_runtime/cache/service.py:132-163 | a caller that ended through a future ended with the outcome of the one load of the caller that created it; a creator ends with its own load; a caller that ended through none had the value from the cache |
| `SingleFlight.NobodyIsBlocked` | src/algen_agent_runtime/cache/service.py:149-163 | a waiting caller can return or its loader is at work; without a loader the next caller loads, whether or not the last load failed |
| `RateLimiter.InMemoryApiRateLimiter.constructor` | src/algen_agent_runtime/api/rate_limiting.py:66-114 | defaults are at least one, only run creation is capped, overrides win |
| `RateLimiter.InMemoryApiRateLimiter.Acquire` | src/algen_agent_runtime/api/rate_limiting.py:116-195 | one key's bucket is refilled, checked for concurrency and then for a token, and charged; no other key changes; a limiter that fails changes nothing and denies or admits as configured |
| `RateLimiter.InMemoryApiRateLimiter.Release` | src/algen_agent_runtime/api/rate_limiting.py:197-210 | only a bounded route with active requests is decremented; no other key changes |
| `RateLimiter.TokensStayValid` | src/algen_agent_runtime/api/rate_limiting.py:128-140 | tokens stay between 0 and the burst |
| `RateLimiter.WindowBound` | src/algen_agent_runtime/api/rate_limiting.py:116-179 | with a clock that does not go back, the requests admitted in any window [t1, t2] of any run number at most burst + (t2 - t1) * rate / 60 |
| `RateLimiter.WaitingFindsToken` | src/algen_agent_runtime/api/rate_limiting.py:155-165 | a rate-limited caller who waits as told, undisturbed, is admitted if and only if the policy has a rate and a burst of at least one |
| `RateLimiter.WaitingLessFindsNone` | src/algen_agent_runtime/api/rate_limiting.py:155-165 | the wait asked for is at least 0.1 and, beyond that, no shorter wait finds a token |
| `RateLimiter.RequestsAtOnce` | src/algen_agent_runtime/api/rate_limiting.py:124-179 | of the requests of a new key at one instant exactly as many are admitted as the burst and the cap both allow, and each is told what is left of the burst |
| `RateLimiter.InFlightIsCapped` | src/algen_agent_runtime/api/app.py:269-303 | with each admitted request released once, and a limiter that denies when it fails, the active count is admitted minus released and never exceeds the cap |
| `RateLimiter.CapHoldsIff` | src/algen_agent_runtime/api/rate_limiting.py:180-195 | the cap on requests in flight holds in all traffic if and only if the limiter denies when it fails |
| `EventBus.InMemoryConversationEventBus.Publish` | src/algen_agent_runtime/conversations/stores.py:163-175 | the history keeps its newest events and every subscriber's queue gets the event, dropping its oldest when full |
| `EventBus.InMemoryConversationEventBus.NextSequence` | src/algen_agent_runtime/conversations/stores.py:158-161 | one more than the last retained sequence, or 1 |
| `EventBus.InMemoryConversationEventBus.History` | src/algen_agent_runtime/conversations/stores.py:177-181 | exactly the retained events past the cursor: the loop picks increasing positions, and those whose sequence is past the cursor are all picked |
| `EventBus.InMemoryConversationEventBus.Subscribe` | src/algen_agent_runtime/conversations/stores.py:191-193 | a fresh empty queue joins the conversation's subscribers |
| `EventBus.InMemoryConversationEventBus.Unsubscribe` | src/algen_agent_runtime/conversations/stores.py:209-211 | only that queue leaves them |
| `EventBus.SubscriberSeesIncreasing` | src/algen_agent_runtime/conversations/stores.py:188-211 | under every interleaving of publishing, registration, snapshots, queue reads and timeouts, a subscriber sees published events past its cursor in strictly increasing order |
| `EventBus.SubscriberMissesNothing` | src/algen_agent_runtime/conversations/stores.py:188-211 | while its queue has not overflowed and the history is at least as long as the queue, what it saw and what is still past its cursor are all events retained at its snapshot or later, in order; idle, it has seen them all |
| `EventBus.NothingMissedIffHistoryCovers` | src/algen_agent_runtime/conversations/stores.py:150-156 | not overflowing is enough to miss nothing if and only if the history limit is at least the queue size (or unlimited) |
| `EventBus.QueueHoldsNewest` | src/algen_agent_runtime/conversations/stores.py:163-175 | over every run, overflowing or not, a subscriber's queue holds the newest published events, in order and within its size |
| `EventBus.QueueKeepsNewest` | src/algen_agent_runtime/conversations/stores.py:169-175 | a queue that is offered an event holds it last, after as many of the newest as fit |
| `EventBus.HistoryKeepsNewest` | src/algen_agent_runtime/conversations/stores.py:163-168 | the history keeps the newest events, as many as its limit allows |
| `Streaming.PiecesConcatenate` | src/algen_agent_runtime/conversations/streaming.py:60-62 | the pieces concatenate to the flushed text |
| `Streaming.PieceCount` | src/algen_agent_runtime/conversations/streaming.py:60-62 | a flush of n characters emits exactly n / max_chars events, rounded up |
| `Streaming.MakeCoalescer` | src/algen_agent_runtime/conversations/streaming.py:26-37 | refused exactly for a negative interval or a maximum below 1; a new one is empty |
| `Streaming.DeltaCoalescer.Add` | src/algen_agent_runtime/conversations/streaming.py:39-45 | text is buffered, and flushed exactly when the buffer is full or due |
| `Streaming.DeltaCoalescer.Timeout` | src/algen_agent_runtime/conversations/streaming.py:47-51 | none when nothing is buffered, zero exactly when due, and waiting it makes the text due |
| `Streaming.DeltaCoalescer.Flush` | src/algen_agent_runtime/conversations/streaming.py:53-62 | the slicing loop emits the pieces in order, counts them and empties the buffer |
| `Streaming.TextIsConserved` | src/algen_agent_runtime/conversations/streaming.py:39-62 | over any calls, what was sent and what is buffered is the text added: nothing lost, repeated or reordered |
| `Streaming.EventsFit` | src/algen_agent_runtime/conversations/streaming.py:53-62 | every event carries 1 to max_chars characters |
| `Streaming.EventsAreBounded` | src/algen_agent_runtime/conversations/streaming.py:39-62 | events are at most the time-triggered flushes plus 2 * characters / max_chars |
| `Streaming.OneEventPerMaxCharsIsExceeded` | src/algen_agent_runtime/conversations/streaming.py:18-24 | for every max_chars above 1 the documented "one per max_chars characters" is exceeded: max_chars + 1 characters are two events |
| `Streaming.BoundAlwaysHoldsIff` | src/algen_agent_runtime/conversations/streaming.py:18-24 | the documented bound holds of all calls if and only if max_chars is 1 |
| `Streaming.BoundHoldsIff` | src/algen_agent_runtime/conversations/streaming.py:39-62 | it holds of given calls if and only if the room left in their pieces is at most max_chars for each time-triggered flush plus what is still buffered |
| `Streaming.SizeFlushExceedsIff` | src/algen_agent_runtime/conversations/streaming.py:39-62 | a size-triggered flush of n characters sends more than n / max_chars events if and only if max_chars does not divide n |
| `Streaming.TimeFlushesAreSpaced` | src/algen_agent_runtime/conversations/streaming.py:47-58 | time-triggered flushes are at least an interval apart |
| `Streaming.Forward` | src/algen_agent_runtime/conversations/streaming.py:89-95 | an event at or below the cursor is ignored; a newer one moves it, and only a model delta is handed on |
| `Streaming.FollowTurns` | src/algen_agent_runtime/conversations/streaming.py:101-116 | the loop hands on the events that arrive and flushes on a timeout |
| `Streaming.FollowRun` | src/algen_agent_runtime/conversations/streaming.py:65-122 | every model delta past the start cursor is forwarded exactly once and in order through loop, queue and history, and all of it is sent |
| `Turns.Stored` | src/algen_agent_runtime/conversations/service.py:1280-1309 | a result that passes the validator leaves something pending exactly on an awaiting message |
| `Turns.TurnProtocol` | src/algen_agent_runtime/conversations/service.py:701-945 | in every reachable state: pending exactly when awaiting, at most one awaiting message and it is the last, at most one live task and none while a message awaits (that no pause is answered twice is the guard of the runtime's resume, taken as one step here and proved in `Resumes`) |
| `Turns.SearchFindsAwaiting` | src/algen_agent_runtime/conversations/service.py:984-994 | the search over the latest 50 messages finds the awaiting message whenever there is one |
| `Turns.TurnFindsAwaiting` | src/algen_agent_runtime/conversations/service.py:964-982 | a turn that awaits is found by its id, and nothing else is |
| `Turns.ReconcileNeverAnswers` | src/algen_agent_runtime/conversations/service.py:897-945 | reconciling a waiting turn answers nothing: a running run is followed, an ended one settles the turn, a paused or held one waits at a pause nobody answered |
| `Turns.CrashedAnswerIsFollowed` | src/algen_agent_runtime/conversations/service.py:801-834 | a crash between the handler's resume and the message's update leads to following the run, unless a recovery pass has failed the message, which then stays failed; nothing is answered |
| `TurnAnswers.AnswersReachTheirPause` | src/algen_agent_runtime/conversations/service.py:783-834 | without such a crash, without answers from elsewhere and without a held run going on while a message shows it, every answer reaches the pause its message showed |
| `TurnAnswers.AnswersStayTrueIff` | src/algen_agent_runtime/conversations/service.py:783-834 | in every state, all continuations without such a crash, answers from elsewhere or shown held runs going on give only answers to the pause that was shown, if and only if nothing shown is stale: no shown run still runs or waits at another pause of the same kind |
| `TurnAnswers.CrashedAnswerIsHarmlessIff` | src/algen_agent_runtime/conversations/service.py:801-834 | after a crash between the answer and the message's update this is so if and only if a recovery pass failed the message, or the run has ended, is held, or waits at the shown pause or for the other kind of answer |
| `TurnAnswers.ForeignAnswerIsHarmlessIff` | src/algen_agent_runtime/conversations/service.py:897-945 | after an answer given elsewhere it is so if and only if no message shows that run and no answer to it is under way, or the message is just being answered |
| `TurnAnswers.ContinuedRunIsHarmlessIff` | src/algen_agent_runtime/runtime/reconciliation.py:548-585 | when a run that was held until a tool call was settled goes on, it is so if and only if no message shows that run and no answer to it is under way, or the message is just being answered |
| `TurnAnswers.ResumeReachesShownIff` | src/algen_agent_runtime/conversations/service.py:801-802 | one answer reaches the pause it was meant for if and only if the run waits at that pause when it is sent |
| `TurnAnswers.StaleAnswerReachesLaterPause` | src/algen_agent_runtime/conversations/service.py:922-924 | a run that breaks it: the run pauses again after such a crash, the message keeps showing the old pause, and the next answer reaches the new one |
| `TurnAnswers.HeldShownReachesLaterPause` | src/algen_agent_runtime/conversations/service.py:401-403 | a run from the start in which a held run is shown as awaiting an approval, goes on and pauses for one, which the answer to what was shown then reaches |
| `Resumes.PausesAreAnsweredOnce` | src/algen_agent_runtime/runtime/runtime.py:586-704 | however many callers read, decide, save, are overtaken or stop anywhere: no pause is answered twice, an answer ends the pause its caller read, of the kind it was meant for, and a decision that took effect is the recorded one |
| `Resumes.RulingsChangeOnlySo` | src/algen_agent_runtime/runtime/runtime.py:586-704 | an approval begins undecided, takes the decision of the first caller that decides it or lapses if that is too late, and never changes again |
| `Resumes.ResumingIsAtomic` | src/algen_agent_runtime/runtime/runtime.py:586-704 | reading, deciding and saving has the effect of answering in one step: every run of the callers is a run of the turn protocol's answers, pauses, holds, continuations and ends |
| `Resumes.CanBeAnsweredIff` | src/algen_agent_runtime/runtime/runtime.py:586-704 | a run, held or not, can still be answered if and only if it has not ended and an approval it waits for is undecided, or decided by a caller that holds the current version |
| `Resumes.PausedRunGoesOnIff` | src/algen_agent_runtime/runtime/runtime.py:924-963 | a paused or held run can be answered, expire or go on with its tool call settled, if and only if it does not wait for an approval that is decided without anybody able to save that; otherwise it only ends by being cancelled |
| `Resumes.LostDecisionIsStranded` | src/algen_agent_runtime/runtime/runtime.py:586-704 | whenever a decision has been made but not saved, losing its caller or saving anything else of the run strands it |
| `Resumes.SteeringStrandsDecision` | src/algen_agent_runtime/runtime/runtime.py:546-584 | a run from the start in which that happens: a steering message saved between the decision and its commit |
| `Turns.FinishedTurnsStay` | src/algen_agent_runtime/conversations/service.py:837-894 | a finished message that no task, lock holder or recovery pass is about to write never changes again |
| `TurnStatuses.ResultDecidesStatus` | src/algen_agent_runtime/conversations/service.py:443-449 | a result stored by a finished task, a submit, a reconciliation or a refused or expired answer gives its message the status of its outcome, completed for completed, blocked and clarification, and changes no other message |
| `TurnStatuses.AnswersShowWhatHappened` | src/algen_agent_runtime/conversations/service.py:1280-1309 | over every run an answer is completed, expired or awaiting only by such a result, cancelled or failed only by such a result or by the task, canceller or recovery pass that gave it up, and waits for what its status says |
| `TurnStatuses.RecoveryFailsInterrupted` | src/algen_agent_runtime/conversations/service.py:865-895 | a recovery pass that runs to its end fails exactly the answers that were accepted or streaming when it read the messages |
| `TurnStatuses.RunsChangeOnlySo` | src/algen_agent_runtime/conversations/service.py:783-834 | a run goes on only by an answer or a settled tool call, and ends only by itself, a rejection or an effective cancellation; an ended run stays ended |
| `TurnStatuses.AnswersMoveRuns` | src/algen_agent_runtime/conversations/service.py:783-834 | an answer that is taken lets the run go on, or ends it if it rejects, and an effective cancellation ends it |
| `TurnStatuses.CancelStopsTask` | src/algen_agent_runtime/conversations/service.py:837-850 | a cancelled task can stop, and then its message, if it had begun, is cancelled and nothing works on the conversation |
| `TurnStatuses.ShutdownTakesNothing` | src/algen_agent_runtime/conversations/service.py:946-950 | from a shutdown until the process ends no submit and no answer is taken |

## Left out

- Token estimates, JSON, hashes and ids are abstract: the estimate is any function on messages, an archive is the data it carries, and `encode` and `decode` are any pair that round-trips.
- Redaction and authorization of archives and artifacts, the preview-halving loop of `offload`, and the reserved-field checks of `message_token_budget`: single-record checks around the modelled core.
- The code that commits a compaction plan and writes the summary is modelled as one step: the cursor moves to the plan's end with a fresh archive id. At least one recent group is kept.
- PackingLaws.TwoStagePacking: stated without shortening, which the second stage never does; with it, `ShortenThenPack` says what the two stages keep.
- PackingLaws.PackingCommutes: stated without shortening.
- PackingLaws.KeepComposes: stated without shortening.
- PackingLaws.LargerBudgetKeepsMore: stated without shortening; with it, `LargerBudgetsKeepMoreIff` gives the exact condition.
- PackingLaws.LargerBudgetKeepsSuperset: stated without shortening, like the row above.
- The path inside a result reference is part of the node's handler, a pure function of node and inputs; result schemas and budgets are reasons for a handler to fail.
- Engine.ActKeepsValid: semaphore and concurrency keys are not modelled; every order they allow, and more, is covered.
- Scheduler.GraphRun.ExecuteNode: the node's own checkpoints go through; refused ones belong to the `EngineRuns` machine.
- Scheduler.GraphRun.RunRound: the nodes of a round run one after another; their interleaving belongs to the `EngineRuns` machine.
- Scheduler.GraphRun.Schedule: checkpoints and interleaving inside a round belong to the `EngineRuns` machine; here a round runs its nodes one after another in any order.
- Retries, backoff, timeouts of single nodes and the result cache of the graph engine: a handler returns or fails.
- Purging graphs and conversations, feedback, approvals and working-state records: single-record updates.
- WorkQueue.RunOnce: the undisturbed case; disturbance by other workers is covered by the step sequences of `RunsAreSafe`.
- WorkQueue.InMemoryWorkQueue.Claim: among items equal in both sort keys any may be claimed; the source takes the first inserted.
- CacheLaws.AgreesWithPlainMap: time enters as the moment of each operation; the store is the in-memory one.
- SingleFlight.OneLoaderAtATime: cancellation inside the final cleanup is not modelled.
- RateLimiter.WindowBound: real arithmetic in place of floating point, and a clock that does not go back or raise.
- EventBus.SubscriberMissesNothing: publishes are serialised with increasing sequences; forgetting a deleted conversation's history is left out.
- Streaming.FollowRun: the run's event feed is in order and without gaps; cancellation of the follower is left out.
- Turns.TurnProtocol: storing a result and announcing it is one step, the runtime's own resume is one step (`Resumes` opens it), and one conversation is followed; the contents of messages, credentials and titles are not modelled.
- TurnStatuses.RecoveryFailsInterrupted: the limit on the messages that one pass reads is left out.
- Resumes.PausesAreAnsweredOnce: one run; settling the tool call of a held run is one step; waiting for the drive that paused it, and scheduling its next drive, are left out.
- PostgreSQL, Redis and S3 stores, HTTP routes, authentication, telemetry, the command line and the example applications.
