# Verification of the inference-perf core

This project models the parts of inference-perf whose behaviour is hardest to see from one function, and proves what they promise. It is written in Dafny 4.11; `dafny verify dfyconfig.toml` checks all of it.

## What is modelled

* **Stage protocol** (`StageProtocol` and the other `Stage*` files). The main process and its workers share two events, a boundary sequence, acknowledgement counters, request channels and three counters. Each read or write of a shared object is one step of a transition system, and all steps interleave freely. Workers may crash at any step, may be terminated, and are replaced. `StageSafety` holds the inductive invariant, `StageTheorems` what follows from it, `StageCounters` and `StageChannels` what counters and channels hold, told from the moves of a run alone, `StageProgress` that a teardown always returns, `StageAcknowledgement` that a worker that keeps stepping reaches the rendezvous, `StageService` that an idle one takes the next request, `StageRaces` exactly when a boundary can be overtaken, `StageSeparation` exactly when a request crosses into the next stage, `StageCeiling` exactly when the concurrency level holds, and `StageExamples` runs for everything that does not. `StageRuns` has the means to build runs.
* **Concurrency split** (`ConcurrencySplit`), **request channels** (`RequestQueue`), **bounded waits** (`Teardown`) and the **session pool** (`SessionPool`).
* **Server-sent events** (`SseReference`, `SseMeaning`, `SseParser`). The streaming parser refines a one-pass reading of the concatenated bytes, whose result `SseMeaning` states payload by payload, after sections 9.2.5 and 9.2.6 of the HTML standard of the WHATWG, with the client's two deviations: a byte order mark is not stripped, and an event with empty data is still dispatched.
* **Reports** (`Timeline`, `ErrorCounts`, `Sessions`), **request retries** (`RetryLoop`), **session history** (`UserSession`) and the turns its rounds take (`RoundLock`), **Anthropic streams** (`AnthropicStream`), **tool schemas** (`CleanSchema`), **circuit breakers** (`CircuitBreaker`, `Breaker`) and the **in-flight sweep line** of the end-to-end tests (`LoadShape`).
* `Common` holds sums over sequences, ordered keys and the clock.

Code that updates objects is modelled by classes and loops proved against specification functions; the laws about those functions are lemmas. The tokenizer, the JSON reader, the extract callbacks, the label function and the compiled JMESPath expressions are parameters. Clocks never run backwards; times are exact.

## What the proofs show about the code

* **A boundary can be overtaken.** The main process publishes the boundary sequence before it sets the cancel signal. A worker that is in its boundary block at that moment, for instance a replacement started by the previous teardown, acknowledges the new sequence, still sees the request phase set, leaves the hold and pulls after its acknowledgement. `StageRaces` proves that this can happen exactly when such a worker can pull and has something in its channel. What is proved of acknowledged workers therefore excepts those that stood in their boundary block.
* **A drain that times out leaks.** What it counts as removed stays in the channel and is pulled by the next stage, and its marker makes the next drain stop early while reporting itself exact.
* **The concurrency level is not always a bound.** A worker that is past reading its share when the level is divided works with its old limit. In the first stage the request phase is set before the workers start; in a later one a worker that acknowledges while the phase is still set, and looks for the cancel signal after it has been cleared, leaves its wait early. `StageCeiling` gives each worker a ceiling, read off its state right after the division, and proves that the level can be exceeded exactly when the ceilings add up to more.
* **Session stages do not restart the skipped counter.** `run_session_stage` resets the finished counter only, so after a session stage with skipped requests the two no longer reconcile; elsewhere they do whenever the stage was opened after an exact teardown.
* **`active_requests_counter` is never reset**, so a worker that dies with requests in flight leaves it too high for the rest of the run.
* **A failed round can repeat text.** When the prompt of a failed round had to drop old turns, or to cut the system prompt, the text from before the round is cut at the length of what is left, and its end is appended to the history again. `UserSession` says exactly when, and gives an input for each.
* **A round can be overtaken.** `update_context` wakes the next round and releases the lock; a round that arrives before the woken one runs finds nobody waiting and the lock free, and goes first. `RoundLock` proves that this is the only way to lose the order. It also shows that the defensive release of a second update would let two rounds in at once if another round could come between the two updates; no caller that lets it is known.
* **`SimpleCircuitBreaker.reset` does not reset the triggers**, so after a reset the next matched sample, good or bad, opens the breaker again if any trigger ever fired.
* **A tool call without input** comes out with empty arguments from a stream without fragments, and with an empty object from a whole body.
* **The comment on `plateau_window`** says request k waits for request k-C. With a limit of two and requests over [0, 10), [0, 1) and [1, 2), the third does not. It is right exactly when no later request has ended by then while request k-C is still running; in every case k-C+1 requests have ended by then.
* **`const` and `enum` values are cleaned like schemas**: `{"const": {"a": 1}}` comes out as `{"const": {"type": "string"}, "type": "string"}`.

## Model

| member | source | states |
|---|---|---|
| StageTheorems.RendezvousSafety | inference_perf/loadgen/load_generator.py:1246-1352 | In every reachable state no worker's acknowledgement exceeds the published boundary; when a teardown has returned every worker in the list stands exactly at it, and `clean` holds exactly when no worker was replaced; from the start of the drain on, no live worker is behind it. |
| StageTheorems.VisitReplacesTheDead | inference_perf/loadgen/load_generator.py:1326-1384 | In the visit that ends a teardown a worker is replaced exactly when it is dead; the new one starts at the top with nothing in hand, all permits of a new semaphore and the published boundary, and with an empty channel of its own where channels are not shared. Nobody else is touched. |
| StageTheorems.AcksNeverDecrease | inference_perf/loadgen/load_generator.py:499-511 | No step of any worker or of the main process, crashes, terminations and replacements included, lowers an acknowledgement counter or the boundary. |
| StageTheorems.AcknowledgedWorkersStayQuiet | inference_perf/loadgen/load_generator.py:487-530 | A worker that has acknowledged the boundary has no task and neither pulls nor sends until the request phase is set again; only workers that stood in their boundary block when that boundary was published are excepted. |
| StageTheorems.NoRequestCrossesAStage | inference_perf/loadgen/load_generator.py:318-363 | Every queued item and every item a worker holds was enqueued by the running stage, unless that stage was opened after a teardown with an incomplete drain or an occupied boundary block. |
| StageSeparation.StageKeepsToItselfExactlyFromAnEmptyStart | inference_perf/loadgen/load_generator.py:1399-1411 | Up to the next opening, whatever is queued or held was enqueued by the running stage exactly when this stage was opened with nothing queued and nothing held, as it is after every exact teardown. |
| StageTheorems.NothingMovesBetweenStages | inference_perf/loadgen/load_generator.py:318-324 | Between the start of a drain and the first request of the next stage, a worker that was outside its boundary block holds nothing, pulls nothing and sends nothing; once the next stage is open this needs that the drain was complete. |
| StageTheorems.TeardownSettlesTheStage | inference_perf/loadgen/load_generator.py:1310-1352 | After an exact teardown, in which no drain gave up or stopped early and no worker stood in its boundary block at the publication, the channels are empty, no worker holds anything, every enqueued copy is finished, dropped or lost, the reported count of dropped requests is exact, and the finished and skipped counters reconcile up to the skips carried over. |
| StageTheorems.CompleteDrainIsExact | inference_perf/loadgen/load_generator.py:1310-1352 | After a teardown whose drains were complete the channels are empty and the reported count of dropped requests is exact, whoever stood in a boundary block. |
| StageTheorems.WorkIsConserved | inference_perf/loadgen/load_generator.py:374-478 | In every reachable state, whatever died or timed out, each enqueued copy is queued, held, finished, dropped or lost, exactly once; `active` is the number of requests in flight plus what dead workers left behind; finished and skipped reconcile up to the skips carried over, and without that correction exactly when none were. |
| StageTheorems.LeaksStayInRuns | inference_perf/loadgen/load_generator.py:432-465 | What dead workers left on the active counter never decreases, over any run. |
| StageCounters.CountersTallyTheRun | inference_perf/loadgen/load_generator.py:432-465 | Told from the moves of a run alone: `finished` is the number of requests counted since the counters were last restarted, `skipped` the number dropped or unbuildable since then outside session replay and since the start in it, `active` the number sent less those answered. |
| StageCounters.FinishedAreOfTheStage | inference_perf/loadgen/load_generator.py:1399-1411 | Outside the opening of a stage that was not opened over something left behind, every finished request on the books carries the number of the running stage. |
| StageChannels.ChannelsKeepTheirOrder | inference_perf/utils/request_queue.py:121-132 | In every state of every run a channel holds, in order, the items that were put on it from some point on, each tagged with the number of stages opened before its put: items leave from the front only. |
| StageChannels.TakesTheHeadOfItsChannel | inference_perf/loadgen/load_generator.py:324-340 | A worker takes the head of its own channel, and then holds it; only a failed read loses it. |
| StageTheorems.PermitsAreConserved | inference_perf/loadgen/load_generator.py:288-310 | Free and held permits of every worker add up to its current limit in every reachable state, so it never has more requests in flight than that limit. |
| StageTheorems.ResizeWaitsForHolders | inference_perf/loadgen/load_generator.py:299-310 | The limit of a live worker changes only when it has no task left, so no permit holder survives a resize. |
| StageService.ServedStageReachesIdleWorkers | inference_perf/loadgen/load_generator.py:296-372 | In every reachable state of an open stage, a worker at the top of its loop with nothing in flight, a positive share and a request in its channel comes, within one step per old permit and a few more, to hold that request, with a semaphore of the size of its share. |
| StageService.WithoutShareLooksAgain | inference_perf/loadgen/load_generator.py:296-321 | A worker without a share is back at the top five steps later as it was, having taken nothing. |
| StageSafety.ReachableInv | inference_perf/loadgen/load_generator.py:286-532 | The whole inductive invariant of the protocol holds in every reachable state. |
| StageSafety.WorkerStepInv | inference_perf/loadgen/load_generator.py:296-532 | Every step of a worker, of one of its tasks, and its death keep the invariant. |
| StageSafety.MainStepInv | inference_perf/loadgen/load_generator.py:1246-1525 | Every step of the main process keeps the invariant. |
| StageSafety.BareBetweenStages | inference_perf/loadgen/load_generator.py:318-324 | Under the invariant, between the start of a drain and the next opening, a worker that was outside its boundary block has nothing in hand and does not stand before a pull. |
| StageInvariants.StepBalanced | inference_perf/loadgen/load_generator.py:324-478 | One worker step moves items, in-flight requests, pending skips and permits without creating or losing any. |
| StageInvariants.StepWellFormed | inference_perf/loadgen/load_generator.py:288-478 | Every path through the loop and through a task releases a permit exactly once. |
| StageAccounts.WorkerStepAccounts | inference_perf/loadgen/load_generator.py:410-465 | Every worker step keeps the accounts: items, active counter, finished and skipped counters. |
| StageAccounts.MainStepAccounts | inference_perf/loadgen/load_generator.py:1399-1459 | Every step of the main process keeps the accounts. |
| StageCeiling.LevelHoldsExactlyBelowTheCeilings | inference_perf/loadgen/load_generator.py:795-811 | After a division of the level, some run before the next boundary or division has more requests in flight than the level exactly when the ceilings of the live workers add up to more; the sum of the ceilings is the most that is ever in flight, and is reached. |
| StageCeiling.CeilingsAreReached | inference_perf/loadgen/load_generator.py:296-372 | From any state between a division and the next boundary, one run brings every worker, on any number of channels, to its ceiling at once. |
| StageCeiling.InFlightBelowCeilings | inference_perf/loadgen/load_generator.py:296-372 | No run before the next boundary or division has more requests in flight than the ceilings add up to. |
| StageCeiling.StepCeiling | inference_perf/loadgen/load_generator.py:296-465 | No step of a worker, of its tasks, or its death raises its ceiling. |
| StageCeiling.ReadersKeepTheLevel | inference_perf/loadgen/load_generator.py:512-523 | Where every live worker will read its new share before it pulls again, and has no more requests than that left to send, no run exceeds the level. |
| StageExamples.FirstStageCanExceedTheLevel | inference_perf/loadgen/load_generator.py:1399-1404 | For every level and every larger worker capacity, some run of the first stage has more requests in flight than the level. |
| StageExamples.LaterStageCanExceedTheLevel | inference_perf/loadgen/load_generator.py:512-523 | So has some run of the second stage, after an exact teardown that replaced nobody. |
| StageExamples.SessionStagesCarrySkips | inference_perf/loadgen/load_generator.py:853-854 | Two session stages, the first with one skipped request: the second opens with the finished and skipped counters apart. |
| StageExamples.DeadWorkerLeavesTheCounterUp | inference_perf/loadgen/load_generator.py:432-465 | A run in which a worker dies with a request in flight; in every continuation the active counter exceeds the requests in flight. |
| StageRaces.PublishIsSafeExactlyOutsideBoundaryBlocks | inference_perf/loadgen/load_generator.py:1267-1275 | Some continuation before the next publication lets an acknowledged worker pull after the phase was cleared exactly when, at the publication, some live worker is in its boundary block, has or will adopt a limit that lets it pull, and its channel holds something. |
| StageRaces.NextGuarded | inference_perf/loadgen/load_generator.py:499-530 | Until the phase is set again, every step keeps each worker harmless: it was outside its boundary block, cannot pull, or finds its channel empty. |
| StageExamples.BoundaryBlocksGetOccupied | inference_perf/loadgen/load_generator.py:1354-1384 | A run with one crash and one replacement reaches the unsafe situation: the fresh worker is in its boundary block, able to pull, while the stage serves with a request queued. |
| StageExamples.TimedOutDrainLeaksIntoTheNextStage | inference_perf/utils/request_queue.py:84-119 | A run in which a drain times out: the request it counted as removed is pulled by the next stage. |
| StageProgress.TeardownReturns | inference_perf/loadgen/load_generator.py:1246-1264 | In every run of a teardown, interleaved with any worker steps, deaths included, the main process takes at most its rank in steps, and while the teardown has not returned it has a step to take. |
| StageProgress.TeardownIsNeverStuck | inference_perf/loadgen/load_generator.py:1277-1352 | Whatever state the workers and channels are in, some step of the teardown is enabled. |
| StageProgress.MainStepRank | inference_perf/loadgen/load_generator.py:1277-1352 | Every step of the teardown brings it closer to its end. |
| StageProgress.ReachableInRange | inference_perf/loadgen/load_generator.py:1246-1352 | Every reachable state meets the conditions of these results. |
| StageAcknowledgement.PendingWorkersAcknowledge | inference_perf/loadgen/load_generator.py:487-530 | While the main process waits for the rendezvous, in any interleaving, a worker that has taken as many steps as its rank has acknowledged the boundary or died; while it has done neither, it has a step to take that does not kill it. |
| StageAcknowledgement.RendezvousIsReached | inference_perf/loadgen/load_generator.py:1277-1308 | When every worker has taken that many steps, the main process may leave the wait without terminating anybody. |
| StageAcknowledgement.StepCloser | inference_perf/loadgen/load_generator.py:296-532 | With the cancel signal set and the phase cleared, every step of a worker, of its loop or of a task, kills it, acknowledges the boundary, or lowers its rank. |
| ConcurrencySplit.SharesSumToLevel | inference_perf/loadgen/load_generator.py:795-811 | The shares of a stage add up to its level. |
| ConcurrencySplit.ActiveWorkersIsGreatest | inference_perf/loadgen/load_generator.py:776-793 | A number of workers is at most the active ones exactly when it is at most one, or within the pool, a positive level and a positive number of pins. |
| ConcurrencySplit.FirstWorkersGetMore | inference_perf/loadgen/load_generator.py:797-806 | What the division leaves over goes to the workers with the lowest ids. |
| ConcurrencySplit.PinsGoRound | inference_perf/loadgen/load_generator.py:1445-1459 | Pins go round the active workers, starting with the first. |
| ConcurrencySplit.SharesAreFair | inference_perf/loadgen/load_generator.py:797-806 | Shares of active workers differ by at most one, are at least one when the level reaches all of them, and are zero for the others. |
| ConcurrencySplit.PinnedRequestsReachAShare | inference_perf/loadgen/load_generator.py:1445-1459 | Every pinned request is routed to an existing worker, which holds a share exactly when the level is positive, for every number of workers, level and pin count. |
| ConcurrencySplit.SetWorkerConcurrency | inference_perf/loadgen/load_generator.py:795-811 | After the loop every worker that has a shared limit carries its share, and the others are unchanged. |
| RequestQueue.DrainEmptiesUnmarkedChannels | inference_perf/utils/request_queue.py:84-119 | A drain that does not stall empties a channel, and reports everything that was in it, exactly when no earlier drain left a marker there. |
| RequestQueue.StalledDrainKeepsTheRest | inference_perf/utils/request_queue.py:95-112 | A drain that stalls loses nothing: the rest stays behind with the new marker, and is reported where sizes are known. |
| RequestQueue.NextDrainStopsAtTheOldMarker | inference_perf/utils/request_queue.py:88-116 | After a stalled drain, the next one stops at the old marker and leaves everything queued since, although it reports itself exact. |
| RequestQueue.CleanDrainIsExact | inference_perf/utils/request_queue.py:74-119 | Over all channels, with no stall and no old marker, the report is the number of queued items, exact, and every channel ends empty. |
| RequestQueue.ReportsWhatWasQueued | inference_perf/utils/request_queue.py:74-119 | Over channels without old markers: where sizes are known the report is exactly what was queued, whichever channels stall; elsewhere it is at most that, and calls itself exact exactly when none does. |
| RequestQueue.RequestQueue.Put | inference_perf/utils/request_queue.py:121-132 | An item goes to its channel, or one copy to every channel for -1; every other channel is unchanged. |
| RequestQueue.RequestQueue.ReplaceChannel | inference_perf/utils/request_queue.py:62-72 | Only the replaced channel changes, to an empty one. |
| RequestQueue.RequestQueue.DrainOne | inference_perf/utils/request_queue.py:84-118 | The reading loop leaves, counts and reports for one channel what the channel specification says. |
| RequestQueue.RequestQueue.Drain | inference_perf/utils/request_queue.py:74-119 | Draining one channel touches no other; draining all of them reports the sum, exact only if every channel was. |
| Teardown.AwaitRendezvous | inference_perf/loadgen/load_generator.py:1277-1308 | The wait returns whatever the workers do, within grace, 15 s, 20 s and two loop steps; at once when nobody is behind; nobody is terminated before grace, 15 s and 20 s have passed, only workers still behind are, and afterwards no live worker is behind. |
| Teardown.WindDown | inference_perf/loadgen/load_generator.py:534-575 | A worker's wind-down returns within the reap bound and one loop step of the end of its grace, or of the force signal if that comes first; it cancels only running tasks, and not before the grace unless told to force. |
| Teardown.WindDownWithin | inference_perf/loadgen/load_generator.py:1277-1308 | The two waits together: a worker that starts winding down no more than 15 s plus 20 s, less 10 s and the turns of both loops, after the main process starts to wait is never terminated, whatever its grace, its tasks and the force signal. |
| SessionPool.EverySessionHasOnePlace | inference_perf/loadgen/load_generator.py:876-908 | Pending, active, recorded and skipped sessions partition the slice of the stage, and none is dispatched twice. |
| SessionPool.SessionsAreRateLimited | inference_perf/loadgen/load_generator.py:958-963 | With a rate, dispatch k starts no earlier than k intervals after the stage, and m + 1 dispatches in a row span at least m - 1 intervals, however late the loop runs. |
| SessionPool.SlotsInClosedForm | inference_perf/loadgen/load_generator.py:1033-1038 | Each slot is the latest of the times that start where the loop caught up with its schedule, at the stage's start or at any dispatch before, and go on by whole intervals: lost time is never made up. |
| SessionPool.OnTimeLoopKeepsTheGrid | inference_perf/loadgen/load_generator.py:1033-1038 | While the loop is never more than an interval late, slot n lies exactly n intervals after the start. |
| SessionPool.LateLoopDispatchesTwoAtOnce | inference_perf/loadgen/load_generator.py:1033-1038 | The span cannot be raised to m intervals: after a late first dispatch the second may follow at once. |
| SessionPool.CompletedCount | inference_perf/loadgen/load_generator.py:1165-1176 | The number of completed sessions reaches the size of the stage exactly when nothing is pending and nothing active. |
| SessionPool.SlicesAreConsecutive | inference_perf/loadgen/load_generator.py:876-891 | Successive stages take consecutive, disjoint slices inside the corpus. |
| SessionPool.SlicesAreGranted | inference_perf/loadgen/load_generator.py:876-891 | Each stage gets as many sessions as it wants, or all that are left, and none at all only when the corpus is used up. |
| SessionPool.KeptAfterStart | inference_perf/loadgen/load_generator.py:967-1041 | Starting a session keeps the partition, the pool limit and the pacing. |
| SessionPool.KeptAfterRecord | inference_perf/loadgen/load_generator.py:1105-1157 | Recording an ended session keeps the partition and the completed set. |
| SessionPool.StagePool.ShouldStart | inference_perf/loadgen/load_generator.py:949-965 | A session is started only below a positive pool limit, with one pending, and not before its slot. |
| SessionPool.StagePool.DispatchNext | inference_perf/loadgen/load_generator.py:967-1041 | The head of the pending list is started, or skipped when it cannot be built; dispatched and recorded sessions are only added to. |
| SessionPool.StagePool.Collect | inference_perf/loadgen/load_generator.py:1105-1157 | Exactly the active sessions that have ended leave the pool and are recorded. |
| SessionPool.StagePool.Fill | inference_perf/loadgen/load_generator.py:1159-1162 | The pool is filled until nothing is pending, the limit is reached or the next slot lies ahead. |
| SessionPool.StagePool.Serve | inference_perf/loadgen/load_generator.py:1105-1176 | A turn without a reason to stop records every active session that has ended, keeps the others, fills the pool, and completes exactly when nothing is pending or active. |
| SessionPool.StagePool.Drive | inference_perf/loadgen/load_generator.py:1048-1176 | One turn of the driver: interruption, open breaker, exceeded duration and dead worker end it in that order and leave the pool alone; otherwise ended sessions are recorded, the pool is filled, and the stage completes exactly when nothing is left. |
| SessionPool.StagePool.Run | inference_perf/loadgen/load_generator.py:1048-1195 | Over any observed turns the invariant holds, and a completed stage has recorded or skipped every session of its slice exactly once: recorded those that could be built, skipped the others. |
| SessionPool.Corpus.TakeSlice | inference_perf/loadgen/load_generator.py:876-891 | A stage takes the wanted number of sessions, or what is left, and the cursor moves past them. |
| SseParser.Parser.Parse | inference_perf/apis/streaming_parser.py:144-231 | For every cutting of a stream into chunks the parser yields what the one-pass reading of the concatenation yields, the raw content is the whole stream, and both time lists are in order and one per kept chunk, each time taken between the arrival of the chunk that completes its event and that of the next; it is interrupted exactly when the connection breaks or an event is fatal, with all bytes received by then. |
| SseParser.Parser.TakeChunk | inference_perf/apis/streaming_parser.py:154-211 | Each chunk, by either path, takes the parser from the state of the one-pass reading to its state after the chunk. |
| SseParser.Parser.TakeFrame | inference_perf/apis/streaming_parser.py:160-178 | The fast path dispatches the same payload and leaves the same state as the one-pass reading. |
| SseParser.Parser.TakeBuffered | inference_perf/apis/streaming_parser.py:180-211 | The buffered path, with the LF of a CR LF pair cut in two, does the same. |
| SseParser.Parser.ScanLines | inference_perf/apis/streaming_parser.py:188-207 | The scanning loop takes in exactly the complete lines of the buffer, up to the end marker, and says where they end. |
| SseParser.Parser.ProcessDataPayload | inference_perf/apis/streaming_parser.py:115-142 | A payload adds to text, chunks, usage and reasoning what its reading says, one time per kept chunk; it fails exactly when its reading is fatal. |
| SseMeaning.StreamYieldsItsPayloads | inference_perf/apis/streaming_parser.py:115-142 | Text and reasoning of a stream are those of its payloads put together in order; the kept chunks are, in order, the payloads with content, and those with reasoning alone. |
| SseMeaning.UsageIsTheLatest | inference_perf/apis/streaming_parser.py:115-128 | For every usage key the value is that of the last payload that reports it, and it is missing exactly when none does. |
| SseMeaning.BreaksExactlyOn | inference_perf/apis/streaming_parser.py:115-142 | A stream breaks off exactly when reading some payload raises something that is not swallowed, in the payload itself, in the callback for reasoning, or, once that has answered, in the one for content. |
| SseMeaning.EventDispatches | inference_perf/apis/streaming_parser.py:195-207 | A run of lines and an empty one dispatches the joined values of its data lines, unless it has none or they are the end marker, and every other line counts for nothing. |
| SseMeaning.JoinedByLf | inference_perf/apis/streaming_parser.py:195-202 | Joined lines are the first one and, behind a LF each, the others. |
| SseMeaning.LinesAreJoinedByLfs | inference_perf/apis/streaming_parser.py:195-202 | n lines free of LF are joined by exactly n - 1 of them. |
| SseReference.SplitFirst | inference_perf/apis/streaming_parser.py:188-194 | A line ends at CR, LF or CR LF, which is one ending, and at nothing else. |
| SseReference.SplitPieces | inference_perf/apis/streaming_parser.py:181-194 | Cutting a stream anywhere, even inside CR LF, and reading on behind the unfinished line yields the lines of the whole. |
| SseReference.FrameDispatches | inference_perf/apis/streaming_parser.py:160-178 | A one-frame chunk, LF or CR LF, fed to a dispatcher with nothing gathered dispatches the fast path's payload and leaves nothing. |
| SseReference.FrameLines | inference_perf/apis/streaming_parser.py:163-171 | The fast path's conditions make a chunk exactly one data line and one empty line. |
| SseReference.FeedExtends | inference_perf/apis/streaming_parser.py:195-206 | More lines only add payloads, and none after the end marker. |
| SseReference.EachPayloadIsRecordedOnce | inference_perf/apis/streaming_parser.py:129-140 | Each payload with text is kept in exactly one of the two chunk lists. |
| SseParser.GeneratedTimesOfStream | inference_perf/apis/streaming_parser.py:64-71 | Merging the two channels' times gives an ordered list with one time per payload that carried text. |
| Timeline.MergeSorts | inference_perf/apis/streaming_parser.py:64-71 | Merging two ordered lists gives an ordered list. |
| Timeline.MergeKeepsAll | inference_perf/apis/streaming_parser.py:64-71 | The merge holds every element of both lists, as often as they do. |
| Timeline.TimelineOfResponse | inference_perf/reportgen/base.py:668-708 | Re-tokenised times are in order and as many as the tokens counted in both channels. |
| Timeline.EveryTokenOnItsInstant | inference_perf/reportgen/base.py:668-708 | The timeline has every instant once for each token, on either channel, of the chunks that arrived then. |
| Timeline.CountingTokenizer.RetokenizeOutputTokenTimes | inference_perf/reportgen/base.py:668-708 | The result is the same whatever the memo cache holds, is full, or cannot be kept. |
| Timeline.CountingTokenizer.CountTokens | inference_perf/reportgen/base.py:694-700 | A remembered count is the true count, and the cache never outgrows its limit. |
| Timeline.LatenciesAreConsistent | inference_perf/reportgen/base.py:727-784 | On an ordered timeline TTFT is at most TTFO whenever both exist, the gaps are non-negative, one fewer than the tokens, and sum to last less first. |
| Timeline.FiguresOfARequest | inference_perf/reportgen/base.py:727-748 | The latency runs from start to end; NTPOT exists exactly with output tokens and, times their number, is the latency. |
| Timeline.FiguresOfAStream | inference_perf/reportgen/base.py:750-775 | Only with two timestamps: TTFT runs from the start to the first of them, TPOT is the mean of the whole span over one token less than reported, the mean gap that over one less than the timeline, and each gap leads from one time to the next. |
| Timeline.FirstOutputOfARequest | inference_perf/reportgen/base.py:711-762 | TTFO runs to the first content chunk that is on the timeline, without any chunk to the first token, and a response of reasoning alone, or whose content is not on the timeline, has none. |
| Timeline.TpotIsMeanGap | inference_perf/reportgen/base.py:762-773 | TPOT equals the mean gap exactly when the counted output tokens are as many as the timeline, or no time passed between first and last. |
| Timeline.ContentOnTimelineIsFound | inference_perf/reportgen/base.py:711-724 | There is a first content token exactly when some content chunk is on the timeline. |
| RetryLoop.Session.ProcessRequest | inference_perf/client/modelserver/openai_client.py:535-826 | Exactly one metric per logical request; the posts are the attempts up to the settling one; the failure hook runs exactly when no response was processed, once; the sleep of k retries lies between 0.5 and 1.5 times base*(2^k - 1). |
| RetryLoop.Session.Attempt | inference_perf/client/modelserver/openai_client.py:560-710 | The attempt loop stops at the first attempt that is not a transient fault, or the last one allowed. |
| RetryLoop.Session.Post | inference_perf/client/modelserver/openai_client.py:574-676 | What one attempt leaves: caught fault, response, error, inference data, failure hook. |
| RetryLoop.RetriesOnlyWithoutResponse | inference_perf/client/modelserver/openai_client.py:681-699 | At most 1 + max(0, retries) attempts, and one is retried only after a retryable fault that brought no response. |
| RetryLoop.RetriedExactlyAfterALostConnection | inference_perf/client/modelserver/openai_client.py:245-272 | Over the fields of a fault: a request settles at attempt n exactly when every attempt before it lost the connection without a response, a timeout, a rejected certificate or a fingerprint mismatch, and attempt n did not or is number max(0, retries). |
| RetryLoop.RefusedConnectionRecovers | inference_perf/client/modelserver/openai_client.py:560-699 | A refused connection followed by a 200 recovers on the second attempt. |
| RetryLoop.RejectedCertificateSettles | inference_perf/client/modelserver/openai_client.py:245-272 | A rejected certificate and a socket timeout settle the request at once, whatever the retries. |
| RetryLoop.MetricTellsTheOutcome | inference_perf/client/modelserver/openai_client.py:711-760 | The metric failed unless the settling attempt is a processed and cleanly closed 200, recovered exactly if such a one came after a retry, and wasted the time up to that attempt, or else all of it. |
| RetryLoop.WasteIsBounded | inference_perf/client/modelserver/openai_client.py:714-725 | Recovered exactly when retried and not failed; waste is reported exactly when retried, is at least the sleep bound and at most the request's duration. |
| RetryLoop.SettlingIsFirst | inference_perf/client/modelserver/openai_client.py:560-699 | The settling attempt is the first that is not transient, or the last allowed. |
| RetryLoop.MoreRetriesAgree | inference_perf/client/modelserver/openai_client.py:560-699 | A larger retry budget never changes a request that settled within a smaller one. |
| LoadShape.InflightSegments | e2e/utils/load_shape.py:159-184 | Fails exactly on a request that ends before it starts or on no requests; otherwise the segments abut, cover first start to last end, hold the in-flight level all over, and over every window add up to the time that the requests spend in it. |
| LoadShape.Sweep | e2e/utils/load_shape.py:176-184 | The sweep over sorted events describes their level step by step. |
| LoadShape.LevelIsInFlight | e2e/utils/load_shape.py:159-184 | The level at any time is the number of requests with start <= t < end. |
| LoadShape.MaxInflightIsExact | e2e/utils/load_shape.py:187-188 | The largest segment value is at most a bound exactly when no instant has more requests in flight. |
| LoadShape.PlateauIsFed | e2e/utils/load_shape.py:194-198 | Under a limit of C, when request k starts at least k - C + 1 requests have ended. |
| LoadShape.PlateauWindow | e2e/utils/load_shape.py:191-205 | Fails exactly on a limit below one or on fewer than twice as many requests; otherwise fewer than C requests have started before the window and at least C at its start, and it ends with the last start. |
| LoadShape.LimitIsPairingExactlyWithoutOvertaking | e2e/utils/load_shape.py:194-198 | Under a limit of C, each request starts only when the one C places before it has ended exactly when no later one has ended first while that one was still running. |
| LoadShape.PairingKeepsTheLimit | e2e/utils/load_shape.py:194-198 | Conversely, requests that wait for the one C places before them never exceed C in flight. |
| LoadShape.OvertakenUnderTheLimit | e2e/utils/load_shape.py:194-198 | Three requests under a limit of two of which the third starts before the first has ended. |
| LoadShape.MeanInflight | e2e/utils/load_shape.py:208-226 | The mean times the covered time is the weighted sum; it fails exactly on an empty window or one that no segment overlaps. |
| LoadShape.MeanTellsTheRequests | e2e/utils/load_shape.py:208-226 | Of the segments of a sweep, the mean over a window, times its overlap with the time from first start to last end, is the time that the requests spend in the window. |
| LoadShape.WholeWindowHoldsAll | e2e/utils/load_shape.py:208-226 | In a window around all requests they spend all their durations. |
| LoadShape.WindowsAddUp | e2e/utils/load_shape.py:208-226 | Over two windows that abut they spend what they spend over both together. |
| LoadShape.CoveredIsSpan | e2e/utils/load_shape.py:208-226 | Of a window, the segments of a sweep cover exactly its overlap with the time from first start to last end. |
| LoadShape.MeanStaysBelowTheLimit | e2e/utils/load_shape.py:208-226 | If no more than C requests are ever in flight, no mean over any window exceeds C. |
| LoadShape.SortSorts | e2e/utils/load_shape.py:174 | Sorting by time, ends first, orders the events and keeps all of them. |
| UserSession.PromptsGrowByPrefix | inference_perf/apis/user_session.py:215-223 | In the boundary-keeping mode, over a whole conversation that drops nothing, every prompt followed by a space and its answer is a prefix of every later prompt. |
| UserSession.ResponseCompletesPrompt | inference_perf/apis/user_session.py:103-138 | Taking a response in makes the session's text the prompt, a space and the response, to the letter. |
| UserSession.TurnIsQuestionAndAnswer | inference_perf/apis/user_session.py:105-113 | In the legacy mode the turn cut out of the text is the stripped question and answer, whichever of system prompt and history is empty. |
| UserSession.FailedTurnAddsNothing | inference_perf/apis/user_session.py:304-315 | Handing the unchanged context back after a failed turn adds nothing to the history, when its prompt had to drop nothing. |
| UserSession.FailedCutTurnRepeatsText | inference_perf/apis/user_session.py:103-113 | When the prompt of a failed turn dropped turns, or cut the system prompt, with the boundary kept, the end of the old text comes in again as a turn, as long as what was dropped and cut together: nothing is added exactly when the old text is no longer than the system prompt and the history that are left. |
| UserSession.DroppedTurnRepeatsText | inference_perf/apis/user_session.py:304-315 | A dropped turn: a history of two turns whose prompt is a letter too long holds the second turn twice after the failure. |
| UserSession.CutSystemPromptRepeatsText | inference_perf/apis/user_session.py:304-315 | A cut system prompt: with no turn to drop, the letter it loses comes back as a turn. |
| UserSession.LegacyFailedCutTurnRepeatsText | inference_perf/apis/user_session.py:103-113 | In the legacy mode the repeated end, again what was dropped and cut, is stripped, and nothing is added exactly when it is all space. |
| UserSession.Session.FailedTurn | inference_perf/apis/user_session.py:304-315 | A failed turn leaves what its prompt has left of system prompt and history, and what the cut makes of the old text, with the fewest turns evicted; it adds nothing exactly when nothing of the old text, in the legacy mode nothing but space, stands behind what was left, and so when the prompt fits. |
| UserSession.Session.ToRequestBody | inference_perf/apis/user_session.py:165-288 | The fewest oldest turns are dropped that make the prompt fit, or all of them; only then the system prompt and the question are cut. Told without the budget: with a turn kept, the encoded prompt, the output tokens and 200 more fit the model, and with any more turns they would not. |
| UserSession.PromptLeavesRoom | inference_perf/apis/user_session.py:181-231 | The kept turns are the longest end of the history whose prompt leaves the output its tokens and 200 more, and the system prompt is touched only when not even the prompt without turns does. |
| UserSession.SqueezeFitsTheBudget | inference_perf/apis/user_session.py:233-273 | With room beyond the question the question stays whole, beside the decoding of the longest beginning of the system prompt that fits; otherwise there is no system prompt, and the question is the decoding of its longest beginning that fits. |
| UserSession.OutputTokensDropATurn | inference_perf/apis/user_session.py:181-231 | Eight tokens reserved for the output cost a prompt that the model would hold a turn. |
| UserSession.QuestionComesLast | inference_perf/apis/user_session.py:215-223 | With the boundary kept, the prompt is the session's text and the question, with a space exactly between a history and a question that have none. |
| UserSession.EvictedKeepsTheNewest | inference_perf/apis/user_session.py:118-136 | What a response leaves are the newest turns, as many as fit the model beside the system prompt. |
| UserSession.Session.UpdateContext | inference_perf/apis/user_session.py:103-140 | The turn is appended and the fewest oldest turns are evicted that make the rest fit, or all of them. |
| UserSession.Session.Turn | inference_perf/apis/user_session.py:296-302 | Where nothing has to be dropped, a turn takes the whole exchange into the history. |
| RoundLock.RoundsTakeTurns | inference_perf/apis/user_session.py:90-101 | In every run in which each round updates once, at most one round of a session is in flight, the lock is held exactly while one is, and while somebody waits some step other than an arrival is enabled. |
| RoundLock.StepIsExclusive | inference_perf/apis/user_session.py:144-153 | Every step keeps the rounds exclusive, but a second update of a round that has updated already: that does so exactly when nobody holds the lock. |
| RoundLock.SecondUpdateLetsTwoIn | inference_perf/apis/user_session.py:148-153 | The defensive release alone does not keep rounds apart: were a round let in between two updates of another, the second would release its lock and two rounds be in flight. |
| RoundLock.OrderIsKeptExactlyWithoutOvertaking | inference_perf/apis/user_session.py:94-101 | Every step keeps the rounds in order of arrival, except the arrival of a round that finds the lock free and nobody waiting while a woken one has not run: that never does. |
| RoundLock.ARoundCanBeOvertaken | inference_perf/apis/user_session.py:94-101 | A run in which a later round is served before an earlier one. |
| AnthropicStream.StreamMatchesBody | inference_perf/apis/anthropic_messages.py:164-194 | A stream that opens the tool calls of a response builds the message of its body exactly when it carries the body's text and, per tool, fragments that join to the serialised input. |
| AnthropicStream.AgreeingStreamsBuildTheSame | inference_perf/apis/anthropic_messages.py:290-312 | The message depends only on the text and on each index's call and joined fragments. |
| AnthropicStream.EventByEvent | inference_perf/apis/anthropic_messages.py:252-288 | Text and arguments are put together from the events in order: arguments come whole with the start of a call, if it has any, or in pieces behind it. |
| AnthropicStream.CallIsTheLast | inference_perf/apis/anthropic_messages.py:261-268 | The call at an index is the one that was opened there last. |
| AnthropicStream.InterleavingDoesNotMatter | inference_perf/apis/anthropic_messages.py:252-288 | Any interleaving that keeps the order of text events and of each tool's events changes nothing. |
| AnthropicStream.CuttingAFragmentDoesNotMatter | inference_perf/apis/anthropic_messages.py:275-286 | Any text or argument fragment may be cut in two. |
| AnthropicStream.MissingInputDiffers | inference_perf/apis/anthropic_messages.py:55-58 | A tool without input and fragments keeps empty arguments where the body has an empty object. |
| AnthropicStream.Handlers.ExtractContent | inference_perf/apis/anthropic_messages.py:252-288 | Each event updates the two maps as the stream says, a missing index being the number of calls so far for a start and 0 for a delta, and returns the text it adds or none. |
| AnthropicStream.Handlers.OutputMessage | inference_perf/apis/anthropic_messages.py:290-312 | The message lists the calls in ascending index order with their joined fragments; its content is missing exactly with calls and no text. |
| AnthropicStream.ParseContent | inference_perf/apis/anthropic_messages.py:164-194 | The body's text and tool calls in order; no message when there is no content list. |
| AnthropicStream.BlockByBlock | inference_perf/apis/anthropic_messages.py:164-194 | Text and calls of a body are those of its blocks, put together in order. |
| ErrorCounts.BuildErrorCounts | inference_perf/reportgen/base.py:148-185 | The one-pass fold equals its declarative meaning: labels by descending count, first distinct messages up to the cap, all ids of a kept message in order. |
| ErrorCounts.GroupsReconcile | inference_perf/reportgen/base.py:148-185 | The counts add up to the number of errors, whatever the cap. |
| ErrorCounts.KeptMessagesAreTheFirst | inference_perf/reportgen/base.py:168-174 | Kept messages are distinct, the first of their label, at most the cap, and one is missing only when the cap is reached. |
| ErrorCounts.ByRankSorts | inference_perf/reportgen/base.py:177 | The sort keeps every label, puts larger counts first and leaves equal counts in order of first occurrence. |
| ErrorCounts.GroupHoldsItsErrors | inference_perf/reportgen/base.py:148-185 | A group counts the errors of its label, and holds their first different messages up to the cap, each with the ids of the errors that brought it, in order. |
| ErrorCounts.GroupsAreInOrder | inference_perf/reportgen/base.py:177-185 | No label has two groups, larger counts come first, and of equal counts the label that occurs first. |
| ErrorCounts.EveryLabelHasAGroup | inference_perf/reportgen/base.py:148-185 | A label has a group exactly when some error carries it. |
| Sessions.EnrichSessions | inference_perf/reportgen/base.py:1456-1528 | Every session carries the sums over its own requests, its own error before one of its requests', success exactly when all events completed without an error, and its time to the first user token or why it has none. |
| Sessions.ComputeTfut | inference_perf/reportgen/base.py:1531-1579 | The least time from dispatch to the first content of a user-facing event; without one, the reason is no such event, no dispatch time, a response that was not streamed, one without content, or no response, in this order. |
| Sessions.IndexRequests | inference_perf/reportgen/base.py:1484-1514 | The dictionaries hold, per session, the sums over the requests that belong to it. |
| Sessions.TotalsAreSums | inference_perf/reportgen/base.py:1484-1514 | Told over the requests alone: tokens, retries and recoveries of a session are summed over its own requests, cached and cacheable tokens over those of them that succeeded and report both, and the latter exist exactly when some request does. |
| Sessions.FirstErrorIsFirst | inference_perf/reportgen/base.py:1490-1497 | The error of a session's requests is that of the first with one. |
| Sessions.LastResponseIsLast | inference_perf/reportgen/base.py:1515-1520 | What is known of an event is what its last request brought. |
| Sessions.OutcomesOneByOne | inference_perf/reportgen/base.py:1309-1393 | Successes and failures are counted session by session, and the failures handed to the error counts are the failed sessions in order, each with its error or, without one, the unexplained one. |
| Sessions.CachedAtMostCacheable | inference_perf/reportgen/base.py:1508-1514 | Cached tokens never exceed cacheable ones, and both are there exactly when some successful request reported its cache use. |
| Sessions.CachedPromptTokens | inference_perf/reportgen/base.py:210-241 | Nothing is reported without a cache field or without prompt tokens; otherwise the prompt as reported, and the cached count clamped to it. |
| Sessions.SummarizeSessions | inference_perf/reportgen/base.py:1302-1393 | Succeeded and failed sessions are counted, and failures are grouped, an unexplained one under its own label. |
| Sessions.SummaryReconciles | inference_perf/reportgen/base.py:1309-1393 | After enrichment succeeded and failed add up to all sessions, and the label counts to the failed ones. |
| CircuitBreaker.WindowIsFilter | inference_perf/circuit_breaker/triggers/rate_over_window.py:32-37 | While timestamps do not go back, the deque holds exactly the samples of the window. |
| CircuitBreaker.RateSetsOffExactly | inference_perf/circuit_breaker/triggers/rate_over_window.py:32-43 | While timestamps do not go back, a sample sets the trigger off exactly when the samples no older than the window are enough and the hits among them, counted, make up the share; no sample counts as a share of 0. |
| CircuitBreaker.DropOldIsFilter | inference_perf/circuit_breaker/triggers/rate_over_window.py:35-37 | Dropping from the front keeps exactly the recent samples when, and only when, no old one stands behind a recent one. |
| CircuitBreaker.ClockSetBackKeepsStaleSample | inference_perf/circuit_breaker/triggers/rate_over_window.py:32-37 | A clock set back leaves a stale sample in the window. |
| CircuitBreaker.FiredOnIsSomePrefix | inference_perf/circuit_breaker/triggers/rate_over_window.py:38-46 | A trigger has fired exactly when some prefix of its history met its test. |
| CircuitBreaker.ConsecutiveFiresOnRuns | inference_perf/circuit_breaker/triggers/consecutive.py:27-33 | For a positive threshold n the trigger has fired exactly when the history holds n hits in a row. |
| CircuitBreaker.NonPositiveThresholdFiresAtOnce | inference_perf/circuit_breaker/triggers/consecutive.py:27-30 | With a threshold of zero or less it fires on the first sample, hit or not. |
| Breaker.RateOverWindow.Update | inference_perf/circuit_breaker/triggers/rate_over_window.py:32-43 | The deque and the latch are those of the whole history. |
| Breaker.Consecutive.Update | inference_perf/circuit_breaker/triggers/consecutive.py:27-30 | The counter and the latch are those of the whole history. |
| Breaker.SimpleBreaker.Feed | inference_perf/circuit_breaker/simple_breaker.py:46-54 | A matched metric is one sample to every trigger, and the breaker is open exactly when, since the last reset, a sample was matched and a trigger had fired by then. |
| Breaker.SimpleBreaker.Reset | inference_perf/circuit_breaker/simple_breaker.py:59-60 | Closes the breaker and leaves its triggers as they are. |
| Breaker.SimpleBreaker.Search | inference_perf/circuit_breaker/simple_breaker.py:37-44 | True exactly when some expression finds something truthy; one that raises counts as false. |
| Breaker.AMissReopens | inference_perf/circuit_breaker/simple_breaker.py:46-60 | A breaker that opens at the first hit is closed by a reset after it, and opened again by a miss. |
| Breaker.ResetForgetsNothing | inference_perf/circuit_breaker/simple_breaker.py:46-60 | A reset breaker reopens on the next matched sample exactly when some trigger has fired at any time before or fires on it. |
| CleanSchema.CleanIsNormal | inference_perf/apis/chat.py:142-182 | Every dictionary in schema position of the result, however deep, has allowed keys only, a type, no anyOf or oneOf, a boolean additionalProperties, and properties on objects. |
| CleanSchema.CleanIsIdempotent | inference_perf/apis/chat.py:142-182 | Cleaning twice is cleaning once, and the schemas left alone are exactly the normal ones. |
| CleanSchema.PropertyNamesStay | inference_perf/apis/chat.py:153-154 | Property names stay, in order, each with its schema cleaned. |
| CleanSchema.KeywordsStay | inference_perf/apis/chat.py:155-179 | What a schema says under an allowed keyword other than a choice it still says, cleaned; a missing type becomes a string. |
| CleanSchema.CleanedFieldByField | inference_perf/apis/chat.py:142-182 | A cleaned schema has, in order, the allowed fields that are no choice, each cleaned, then the type of a string if it had none, and empty properties if it is an object without any; nothing else. |
| CleanSchema.ItemsStay | inference_perf/apis/chat.py:180-182 | The items of a list stay, in order, each cleaned. |
| CleanSchema.DataStaysExactlyWhenNormal | inference_perf/apis/chat.py:155-165 | The value of `const` or `enum` survives exactly when every dictionary in it has the form of an accepted schema. |
| CleanSchema.ScalarDataStays | inference_perf/apis/chat.py:155-165 | A scalar, and a list of scalars, survive under `const` and `enum`. |
| CleanSchema.ConstDictionaryIsLost | inference_perf/apis/chat.py:155-179 | A dictionary with a key that is no keyword, under `const`, becomes the schema of a string. |

## Left out

- StageTheorems.AcknowledgedWorkersStayQuiet: not for a worker that stood in its boundary block when the boundary was published, of which it is false; `StageRaces` gives the condition and `StageExamples` a run.
- StageTheorems.NoRequestCrossesAStage: not for a stage opened after a drain that gave up or over an occupied boundary block, of which it can be false; `StageSeparation` has the exact condition.
- StageTheorems.WorkIsConserved: requests of a dead worker, of a failed queue read and of a replaced channel are booked as lost, and the counters a dead worker never lowers are booked apart.
- StageCeiling.LevelHoldsExactlyBelowTheCeilings: until the next boundary or division; a worker that outlives the boundary with its old limit is covered by the next division.
- SessionPool.EverySessionHasOnePlace: sessions are identified by their index; distinct sessions are taken to have distinct ids.
- UserSession.Session.ToRequestBody: the cut of system prompt and question by decoding tokens is carried through an unknown tokenizer, so nothing is said about the length of the decoded text.
- Sessions.EnrichSessions: the sessions of the list are taken to be distinct objects; when the first content token of a response came in is a field of the request, and `Timeline` says how it is found.
- Timeline.TimelineOfResponse: which texts a chunk yields is a parameter, and chunk times are taken in order per channel, as the parser delivers them.
- SseParser.Parser.Parse: bytes are not decoded to text; a payload stands for its decoded form.
- Tasks that ignore their cancellation and are abandoned, cancellation races inside the permit wait, the end of the run (`stop_signal`), and workers that were never started.
- Locks stranded by killed processes, feeder threads, `join` and `kill`: a death is one step, and a drain that times out is a choice of the environment.
- In the stage protocol, the final check of a task and the increment of the active counter are one step, the expected and the published boundary are one number, the counters that a stage restarts are restarted in one step, and so are the shares of all workers written.
- RequestQueue.RequestQueue.DrainOne: a drain has its channel to itself. A worker that takes the drain's own marker makes it run into its timeout and report one request less; in the stage protocol a drain that times out adds the whole channel.
- RoundLock.RoundsTakeTurns: woken rounds and the lock's own queue are served first come first served, as the event loop and its lock do; cancellation of a waiting round is not part of this model.
- `assemble_content`, `arrival_bin_counts`, the rate tolerances, percentiles, and the rest of the session summary, which would only add easy members.
- HTTP, TLS, storage, Prometheus, OpenTelemetry, progress bars, command line, data sets and media synthesis.
