# Verified model of the inference serving core

The project models the part of the system that decides which request runs, what goes into each decode
batch, which text may be released and which cached state belongs to whom, and proves what that part keeps
over every run. `dafny verify dfyconfig.toml` checks all of it. Nothing was executed.

| file | models |
|---|---|
| `Utf8.dfy`, `StopBuffer.dfy`, `StopBufferProofs.dfy`, `RequestText.dfy` | streaming stop detection against the one-shot cut of a finished text |
| `CacheExecutor.dfy`, `Leases.dfy`, `PlanHandles.dfy` | the executor's mirror of slots, coordinator and physical sequences; move-only leases guarded by generations; move-only plan handles that are consumed once |
| `Common.dfy` | what several files share |
| `GenerationRequest.dfy`, `GenerationStepper.dfy`, `Pipeline.dfy` | one request while it generates; one step over all requests; runs of steps, and the way from the stop buffer to the protocol |
| `Scheduler.dfy`, `Protocol.dfy`, `Worker.dfy` | the native queue and active set, the numbered event streams, the worker's loop |
| `Engine.dfy` | the scheduler with what it calls: admissions prepare requests, steps are the stepper's, cancelled requests are finished |
| `Limiter.dfy`, `FairLimiter.dfy` | bounded admission with weighted priorities |
| `Gate.dfy`, `Lifecycle.dfy` | the shared/exclusive gate over its await points; the reference-counted model registry |
| `GlobalMemory.dfy`, `EventLog.dfy` | the division of memory over workers; the bounded event log |

The parts fit together as follows. A step (`Stepper.Step`) keeps every request ready: the physical sequence
of a running request is exactly its prompt and its sampled tokens up to its position, and its ledger of
successful decodes since the last reset is exactly that without the reused prefix. It does so for mixed
batches, for a failed batch that falls back to one request at a time, and for the single retry. The batch is
shared fairly: a request is cut short only by the end of its prompt, its next anchor, its quantum or a spent
budget. Over any run of steps no request contributes more often than a fixed bound, what was told of it is all the
text that it has shown, anchors of its own prompt, and its end, last (`Pipeline.RunSteps`), and it ends with the
first token that gives a reason, for that reason (`Pipeline.ReasonIsFirst`). While it runs, nothing of its text is
late (`Pipeline.RunningIsPrompt`, `StopBufferProofs.LiveIsPrompt`). What a step tells is what the
scheduler takes for granted (`Pipeline.StepMeetsScheduler`); from that the scheduler derives that enqueued =
waiting + active + finished for every id (`Schedulers.Scheduler.Tick`, `Schedulers.ReportsOn`), and from that the
worker derives that every request has one well-formed stream (`Workers.Worker.Run`).

`Engines.Engine` puts these together: over any sequence of arrivals, cancellations and ticks, what is told about
a request that has started is its start, what its steps told of it, and its cancellation, and nothing else
(`Engines.Engine.Run`). So the content of a completion is the stream of the text of all its sampled tokens through
its stop buffer (`Engines.StreamOfRequest`, `Engines.WorkerWritesStream`), which with non-empty, unambiguous stops is the
one-shot cut of the whole text (`Pipeline.ContentIsOneShotCut`). Over the same runs executor, coordinator and
physical sequences agree on what every slot holds, and a slot is busy only while a request that runs holds it
(`CacheExecutors.AllTally`, `Engines.NoLeak`, parts of `Engine.Valid`); and every tick in which nobody waits
brings those who are active closer to their end (`Engines.Engine.Tick`), so that once nobody new comes all of them
end (`Engines.Engine.Drain`). Whoever waits does so for one of the reasons there are
(`Schedulers.Scheduler.Admit`).

A plan is a value in `CacheExecutor.dfy`, where an admission commits or aborts it once. `PlanHandles.dfy` is
about the handle behind it: the executor's calls (commit, an abort in any case, the end of the scope) settle
each plan once and destroy its handle, whatever the coordinator refuses (`PlanHandles.ExecutorSettlesItsPlan`).

Calls into code that is not part of this model are nondeterministic choices or parameters: whether a decode
succeeds, which token is sampled, whether the coordinator refuses an advance, which plan it returns, whether a model
loads and how many requests it takes, how many lines of input are ready, and whether the process crashes. What the
model says of its tokens, their text and whether they end generation, is a parameter of each request. The coordinator is
taken at its interface: a donor holds the reused tokens, busy slots and donors are not overwritten, an abort
invalidates the target and every victim.

Ghost fields (`past`, `log`, `asked`, `output`, `started`, `ticks`, `order`, `served`, `lives`, `events`) are histories
that the contracts speak about; the code does not keep them.

## What the code does not give

Each of these is proved, with the exact condition under which the promise does hold.

- Streaming and the one-shot cut agree for all texts and all chunkings if and only if no proper beginning of a
  stop has another stop inside it at a later place than its own start (`StopBufferProofs.Unambiguous`). With an
  empty stop, which the one-shot cut obeys and streaming ignores, they agree if and only if every single
  character is a stop (`StopBufferProofs.StreamingIsOneShotCut`).
- An anchor that is restored for fewer tokens than it holds leaves more tokens in the sequence than the mirror
  says; `admit` refuses this for hybrid models only. The mirror is kept exactly without such a restore
  (`CacheExecutors.CacheExecutor.Admit`). A prompt that is sent twice with an anchor for all of it is such a
  case (`CacheExecutors.RepeatedPromptRestoresPartially`).
- When an anchor fails after its plan evicted another slot, the coordinator has invalidated that slot and the
  executor keeps its old generation. The mirror is kept exactly if the plan evicted nothing else
  (`CacheExecutors.CacheExecutor.CreateAnchor`); what the slots hold is agreed on all the same, and an admission
  refuses a slot whose generation is stale.
- An idle eviction can remove an instance that the snapshot never saw, since versions start again at 1 and times
  are milliseconds. It removes the instance of the snapshot, unused since, exactly if everything after the
  snapshot happens later than the last use that it shows (`Lifecycle.EvictionIsOfTheSnapshot`).
- Recovery of the event log keeps all complete records if and only if none of them holds a carriage return or a
  Unicode line or paragraph separator, since `.` does not match these
  (`EventLog.RecoveryKeepsCompleteRecords`); what it keeps otherwise is `EventLog.RecoveredExactly`.

Four more things the code does not promise, and the model follows it in each: `invalidate_and_clear` removes the
sequence before it learns that the generation is stale, so that a caller with an old lease on a slot that is not
empty breaks the mirror (`CacheExecutors.CacheExecutor.InvalidateAndClear`), which no request does, since over
every run all contents tally (`Engines.Engine.Run`); a malformed line that names a
running request ends that request's stream (`Workers.Worker.Refuse`); `acquire` with a signal that is already
aborted never settles (`FairLimiters.FairLimiter.Acquire`); and the native scheduler moves its cursor even when
admission then stops, so it gives no weighted share, only the order within a class.

## Model

| member | source | states |
|---|---|---|
| Utf8.Utf8IncompleteSuffix | native/llama/src/stop-buffer.cpp:8-25 | the backward scan of at most four bytes returns, for every prefix of a UTF-8 text, exactly the length of its unfinished last character |
| Utf8.ScanFindsTrailing | native/llama/src/stop-buffer.cpp:8-25 | the bounded scan and the forward decomposition into characters agree on every prefix of a UTF-8 text |
| Utf8.PartialIffPrefix | native/llama/src/stop-buffer.cpp:8-25 | "whole characters and at most one unfinished one" is exactly "can be continued to a whole text" |
| Utf8.TrailingSplit | native/llama/src/stop-buffer.cpp:8-25 | taking the unfinished character away leaves whole characters, and at most three bytes are taken |
| Utf8.ScanFindsUnfinished | native/llama/src/stop-buffer.cpp:8-25 | on any bytes the scan stops at the first place from which an unfinished character runs to the end |
| StopBuffers.IndexFromIsFirst | packages/server/src/chat-compat.ts:125 | the index found is an occurrence, none is earlier, and none exists when nothing is found |
| StopBuffers.FirstStopIsFirst | native/llama/src/stop-buffer.cpp:27-35 | the earliest place where any non-empty stop begins, or proof that there is none |
| StopBuffers.FindStop | native/llama/src/stop-buffer.cpp:27-35 | the loop over the stops finds that earliest place |
| StopBuffers.PartialStopIsLongest | native/llama/src/stop-buffer.cpp:37-51 | the length held back is the longest suffix that is a proper beginning of some stop |
| StopBuffers.PartialStopSuffix | native/llama/src/stop-buffer.cpp:37-51 | the two nested loops, cut off at the longest stop, find that length |
| StopBuffers.HeldFromFirstDoubt | native/llama/src/stop-buffer.cpp:70-75 | the longer of the two lengths held back begins exactly at the first place that may begin a stop or an unfinished character |
| StopBuffers.Feed | native/llama/src/stop-buffer.cpp:60-82 | a stop completes exactly if there is one in what is held and what comes; otherwise nothing is lost or reordered, and all of it is shown up to the first place that may begin a stop or an unfinished character |
| StopBuffers.StopBuffer.Reset | native/llama/src/stop-buffer.cpp:55-58 | new stops, nothing held |
| StopBuffers.StopBuffer.Append | native/llama/src/stop-buffer.cpp:60-82 | one step of the specification; it stops exactly if a stop is in what it held and what came, and otherwise shows everything up to the first doubtful place and holds the rest |
| StopBuffers.StopBuffer.Finish | native/llama/src/stop-buffer.cpp:84-89 | the held text without an unfinished character comes out once |
| StopBuffers.RunStream | native/llama/src/generation-stepper.cpp:115-130 | appending piece by piece until a stop completes and then flushing yields the specified stream |
| StopBufferProofs.HeldIsEnough | native/llama/src/stop-buffer.cpp:61-64 | searching only the held text finds the first stop of everything received |
| StopBufferProofs.SafeStep | native/llama/src/stop-buffer.cpp:70-75 | no released byte can ever belong to a later stop: the invariant of every append |
| StopBufferProofs.LiveStep | native/llama/src/stop-buffer.cpp:60-82 | after every append all text received so far is shown up to its first doubtful place |
| StopBufferProofs.LiveIsPrompt | native/llama/src/stop-buffer.cpp:60-82 | for any bytes, stops and chunking: as long as no stop has come, what was shown is all that was received up to the first place that may begin a stop or a character |
| StopBufferProofs.StreamStaysBeforeStop | native/llama/src/stop-buffer.cpp:60-89 | for any bytes and any stops the stream is a prefix of the text before the first stop to complete, at most three bytes short |
| StopBufferProofs.PiecesAreWhole | native/llama/src/stop-buffer.cpp:60-89 | on valid text with valid stops every released piece is a whole number of characters |
| StopBufferProofs.StreamIsFirstHit | native/llama/src/stop-buffer.cpp:60-89 | on valid text the stream is exactly the text before the first stop to complete, for every chunking |
| StopBufferProofs.ApplyStopIsCut | packages/server/src/chat-compat.ts:123-127 | for non-empty stops the smallest index over all stops is the first stop |
| StopBufferProofs.FirstHitDecides | native/llama/src/stop-buffer.cpp:60-69 | with unambiguous stops, text after the first completed stop cannot move the cut |
| StopBufferProofs.StreamingIsOneShotCut | packages/server/src/chat-compat.ts:123-127 | for every list of valid stops, streaming equals the one-shot cut for all valid texts and all chunkings if and only if the stops are unambiguous; or, with an empty stop, if and only if every character is a stop |
| StopBufferProofs.AmbiguousChunks | native/llama/src/stop-buffer.cpp:60-69 | every ambiguous list has a text of two chunks on which the two differ |
| StopBufferProofs.StreamOfWholeText | packages/server/src/chat-compat.ts:123-127 | on whole texts nothing is trimmed: the stream is the one-shot cut itself |
| StopBufferProofs.EmptyStopDiffers | packages/server/src/chat-compat.ts:123-127 | an empty stop is skipped by the native search and cuts everything in the one-shot form |
| StopBufferProofs.EmptyStopAgrees | packages/server/src/chat-compat.ts:123-127 | with an empty stop the two agree if and only if every single character is a stop as well |
| RequestText.StreamsOn | native/llama/src/generation-stepper.cpp:115-130 | one more piece of a request keeps "shown and held continue as the stream of the pieces", or ends the stream at the stop |
| RequestText.OpenOn | native/llama/src/generation-stepper.cpp:115-130 | a piece ends the text exactly if there is a stop in all of the text so far; otherwise all of it is shown up to the first doubtful place and the stream goes on from there |
| RequestText.StreamsFlushed | native/llama/src/request-state.cpp:56 | shown text and the flushed tail are together the stream of the pieces |
| Limiter.ScheduleRepeats | packages/server/src/limits.ts:35-38 | the schedule table, read modulo seven, is four interactive, two normal, one background |
| Limiter.ServedAtEverySlot | packages/server/src/limits.ts:124-135 | while a class has waiters it is served at each of its own schedule positions that the cursor passes |
| Limiter.WeightedShare | packages/server/src/limits.ts:124-158 | in any 7n consecutive dispatches at which a class has a waiter it is served at least 4n, 2n or n times, whatever happens in between |
| Limiter.CountAdded | packages/server/src/limits.ts:106-110 | an admission keeps every counter equal to the number of grants it counts |
| Limiter.CountRemoved | packages/server/src/limits.ts:113-119 | a release keeps every counter exact, and clients with nothing in flight leave the map |
| Limiter.ClassesSum | packages/server/src/limits.ts:46-54 | in flight is the sum over the classes |
| Limiter.ClientsSum | packages/server/src/limits.ts:46-54 | the counters of any list of different clients add up to the grants of those clients |
| Limiter.BestHasNoElder | packages/server/src/limits.ts:142-152 | no earlier waiter of the same client is passed over |
| Limiter.DispatchIsOrderly | packages/server/src/limits.ts:137-157 | waiters of one client and class leave by dispatch in the order in which they came |
| Limiter.ArrivalIsOrderly | packages/server/src/limits.ts:97 | arrivals keep that order |
| Limiter.LeavingIsOrderly | packages/server/src/limits.ts:85-93 | aborts keep that order |
| Limiter.DispatchIsAccounted | packages/server/src/limits.ts:153-156 | a dispatch moves one call from waiting to admitted |
| FairLimiters.FairLimiter.constructor | packages/server/src/limits.ts:56-59 | starts empty and valid |
| FairLimiters.FairLimiter.Admit | packages/server/src/limits.ts:106-122 | one new grant, counted in total, by class and by client |
| FairLimiters.FairLimiter.NextPriority | packages/server/src/limits.ts:124-135 | the first class from the cursor on that has a waiter, and the cursor right after it |
| FairLimiters.FairLimiter.BestIndex | packages/server/src/limits.ts:142-152 | the first waiter whose client has the fewest requests in flight, with the early exit at zero |
| FairLimiters.FairLimiter.TakeBest | packages/server/src/limits.ts:139-153 | exactly that waiter leaves its queue, and the record of the dispatch tells the truth |
| FairLimiters.FairLimiter.DispatchOne | packages/server/src/limits.ts:138-157 | one turn of the loop: a fair dispatch that grants a slot to the chosen waiter, or nobody waits |
| FairLimiters.FairLimiter.DispatchNext | packages/server/src/limits.ts:137-158 | afterwards nobody waits while a slot is free; grants held before are kept and new ones have new tickets |
| FairLimiters.FairLimiter.Acquire | packages/server/src/limits.ts:70-100 | admitted exactly when a slot is free, rejected exactly when full and the queue is full, else queued last; an aborted signal never settles; in flight and queue bounds, and asked = admitted + rejected + aborted + waiting, always hold |
| FairLimiters.FairLimiter.RetryAfter | packages/server/src/limits.ts:76 | five seconds for each turn of all slots that whoever waits and this call need, rounded up, at most 60 |
| FairLimiters.TurnsNeeded | packages/server/src/limits.ts:76 | the rounded quotient is the least number of turns that serves so many calls |
| FairLimiters.FairLimiter.Abort | packages/server/src/limits.ts:85-93 | removes exactly that waiter and counts it; without effect once it has left |
| FairLimiters.FairLimiter.Release | packages/server/src/limits.ts:112-121 | gives the slot back once and serves one waiter if there is one; a second call changes nothing; all other grants stay |
| FairLimiters.FairLimiter.Forget | packages/server/src/limits.ts:114-119 | the counters after giving back |
| Gate.RegistryOperationGate.EnterShared | packages/runtime-router/src/resident.ts:252-253 | joins the running shared calls, or parks while the gate is exclusive |
| Gate.RegistryOperationGate.FinishShared | packages/runtime-router/src/resident.ts:254-257 | leaves and wakes everybody parked |
| Gate.RegistryOperationGate.TakeTail | packages/runtime-router/src/resident.ts:261-263 | lines up behind the exclusive call that took the tail before |
| Gate.RegistryOperationGate.HoldGate | packages/runtime-router/src/resident.ts:264-266 | takes the gate and parks while shared calls run |
| Gate.RegistryOperationGate.FinishExclusive | packages/runtime-router/src/resident.ts:267-271 | frees the gate, resolves its turn and wakes everybody parked |
| Gate.RegistryOperationGate.Wake | packages/runtime-router/src/resident.ts:274-276 | everybody parked is resolved |
| Gate.RegistryOperationGate.Run | packages/runtime-router/src/resident.ts:245-277 | under every schedule the gate object stays sound and does what the steps of the calls that can run do, one after the other |
| Gate.PlayedFollows | packages/runtime-router/src/resident.ts:251-272 | a schedule in which every call can run in its turn is one of the runs that the results below are about |
| Gate.StepKeepsSound | packages/runtime-router/src/resident.ts:251-272 | every step between two awaits keeps the invariant |
| Gate.InitialIsSound | packages/runtime-router/src/resident.ts:245-249 | any set of fresh calls starts sound |
| Gate.ExclusionAndOwedWake | packages/runtime-router/src/resident.ts:251-272 | an exclusive call runs alone, and a parked call implies a holder that will still wake it |
| Gate.NeverStuck | packages/runtime-router/src/resident.ts:251-272 | while any call is not done, some call can run |
| Gate.StepUsesWork | packages/runtime-router/src/resident.ts:251-272 | every step uses up some of a bounded amount of work |
| Gate.RunIsBounded | packages/runtime-router/src/resident.ts:251-272 | every run is at most as long as the work there was, and ends sound |
| Gate.EveryRunCompletes | packages/runtime-router/src/resident.ts:245-277 | for n calls in any interleaving no run exceeds n(2n+1)+2n steps, and one that cannot go on has completed all |
| CacheExecutors.Resident | native/llama/src/cache-executor.cpp:200-228 | all that the plan reuses, but for one token that is left to ingest; a restore that would leave none restores nothing |
| CacheExecutors.RepeatedPromptRestoresPartially | native/llama/src/cache-executor.cpp:218-228 | the same prompt twice with an anchor for all of it is a plan that restores less than the whole donor |
| CacheExecutors.EvictedSlotGoesStale | native/llama/src/cache-executor.cpp:155-161 | a plan for an anchor that evicts another slot, from agreeing views |
| CacheExecutors.AbortedAgrees | native/llama/src/cache-executor.cpp:253-269 | after an aborted plan executor, coordinator and sequences agree again; whatever slot they agreed on before, they still agree on what it holds |
| CacheExecutors.RefusedTallies | native/llama/src/cache-executor.cpp:186-198 | a plan refused as stale leaves every slot's contents in agreement and every generation refreshed |
| CacheExecutors.CommittedAgrees | native/llama/src/cache-executor.cpp:230-247 | after a committed plan they agree if and only if the target holds exactly the resident tokens; all other slots that tallied still do |
| CacheExecutors.TalliesByLease | native/llama/src/cache-executor.cpp:230-247 | when everything else tallies, the newly leased slot decides: all contents tally if and only if its sequence is the resident prefix |
| CacheExecutors.FailedAnchorAgrees | native/llama/src/cache-executor.cpp:155-161 | after a failed anchor they agree if and only if the plan evicted nothing else; what the slots hold tallies in any case |
| CacheExecutors.AnchoredAgrees | native/llama/src/cache-executor.cpp:138-154 | after a planted anchor they agree if and only if the copy is exactly the boundary |
| CacheExecutors.AdmissionKeepsBusy | native/llama/src/cache-executor.cpp:164-271 | whether it succeeds or not, an admission changes no busy slot that both sides know in the same generation |
| CacheExecutors.CacheExecutor.constructor | native/llama/src/cache-executor.cpp:71-91 | fresh slots agree |
| CacheExecutors.CacheExecutor.RefreshGenerations | native/llama/src/cache-executor.cpp:186-188 | generations, and nothing else, are taken over from the coordinator |
| CacheExecutors.CacheExecutor.EvictVictims | native/llama/src/cache-executor.cpp:238-247 | every victim but the target is emptied on both sides; nothing else changes |
| CacheExecutors.CacheExecutor.Materialize | native/llama/src/cache-executor.cpp:191-228 | it succeeds exactly if the plan is feasible: a continuation has something to continue and its trim works, a copy works, and a hybrid model copies its donor whole; then the target holds exactly the resident prefix of the request, or after a partial restore the whole donor |
| CacheExecutors.CacheExecutor.FailAdmission | native/llama/src/cache-executor.cpp:253-269 | the target is cleared and every generation is current again |
| CacheExecutors.CacheExecutor.RefuseStale | native/llama/src/cache-executor.cpp:183-198 | the plan is aborted and the generations are taken over; contents and busy slots are as before |
| CacheExecutors.CacheExecutor.Commit | native/llama/src/cache-executor.cpp:230-249 | the target is leased in its next generation with the resident tokens, every victim is emptied, nothing else changes |
| CacheExecutors.CacheExecutor.CarryOut | native/llama/src/cache-executor.cpp:190-270 | a plan is carried out exactly if it is feasible and the commit goes through, with the resident prefix in the target; either way the mirror is kept unless a donor is restored in part, and slots beside the plan are as before |
| CacheExecutors.CacheExecutor.TalliesTouch | native/llama/src/cache-executor.cpp:183-189 | if all contents tally, a plan that is not refused as stale reads and writes only slots on which everybody agrees |
| CacheExecutors.CacheExecutor.Admit | native/llama/src/cache-executor.cpp:164-271 | admitted exactly if there is a plan that is not stale, is feasible and commits; a continuation or branch then reuses all of its plan but for one token left to ingest, a restore exactly its plan; the mirror is kept exactly unless a donor is restored in part, on success, refusal and failure; the admitted slot is busy in the next generation |
| CacheExecutors.CacheExecutor.CreateAnchor | native/llama/src/cache-executor.cpp:110-162 | a planted anchor is a whole copy of the source in the next generation of its slot; without a plan or with a failed copy there is none, and a failed one keeps the mirror exactly if the plan evicted only its target; busy slots are untouched, and what the slots hold still tallies if the source holds exactly the boundary |
| CacheExecutors.CacheExecutor.InvalidateAndClear | native/llama/src/cache-executor.cpp:321-333 | the slot is emptied in the next generation, kept busy on request; a stale generation changes only the sequence, which breaks the mirror unless that was empty |
| CacheExecutors.CacheExecutor.Advance | native/llama/src/cache-executor.cpp:305-319 | tokens are appended on both sides in the next generation, or the slot is invalidated |
| CacheExecutors.CacheExecutor.Release | native/llama/src/cache-executor.cpp:297-303 | frees a busy slot of exactly that generation, else changes nothing |
| CacheExecutors.CacheExecutor.Reset | native/llama/src/cache-executor.cpp:349-358 | everything is empty, idle and agrees |
| CacheExecutors.CacheExecutor.ResetForRetry | native/llama/src/cache-executor.cpp:335-342 | everything is empty and agrees, and only the retrying slot is busy |
| Leases.StepKeepsSafe | native/llama/src/cache-executor.cpp:25-69 | every operation keeps: each busy slot is named in its current generation by exactly one lease, and no lease is ahead of its slot |
| Leases.EveryRunIsSafe | native/llama/src/cache-executor.cpp:25-69 | and so does every run of them |
| Leases.IdleIsSafe | native/llama/src/cache-executor.cpp:71-91 | idle slots without leases are safe |
| Leases.ReleaseTakesOnlyItsOwn | native/llama/src/cache-executor.cpp:45-50 | releasing any other lease, current or stale, once or twice, never frees a slot that somebody holds |
| Leases.HeldStaysHeld | native/llama/src/cache-executor.cpp:25-69 | no operation of others, and no assignment of a lease to itself, takes a slot from its holder or changes it |
| Leases.MovedFromFreesNothing | native/llama/src/cache-executor.cpp:25-39 | after a move only the new holder frees the slot |
| Leases.FailureGivesTheSlotBack | native/llama/src/request-state.cpp:117-128 | invalidating and then releasing leaves the slot idle in its next generation |
| Leases.ExecutorLetsGo | native/llama/src/cache-executor.cpp:297-303 | the release of the lease machine is the release of the executor |
| Leases.CacheLease.Move | native/llama/src/cache-executor.cpp:25-28 | the new lease holds what the other held, and the other holds nothing |
| Leases.CacheLease.Assign | native/llama/src/cache-executor.cpp:30-39 | lets go of what it held, takes over what the other held; assigning to itself changes nothing |
| Leases.CacheLease.Release | native/llama/src/cache-executor.cpp:45-50 | lets go once, as the lease machine does, and keeps the mirror |
| Leases.CacheLease.Advance | native/llama/src/cache-executor.cpp:52-57 | a lease that succeeds stays current; one that fails becomes stale |
| Leases.CacheLease.InvalidateAndClear | native/llama/src/cache-executor.cpp:59-63 | the lease follows its slot into the next generation, or fails; without an owner nothing happens |
| Leases.CacheLease.ResetForRetry | native/llama/src/cache-executor.cpp:65-69 | the lease is current and its slot the only busy one |
| PlanHandles.StepIsSound | native/llama/cache-adapter.h:69-183 | every operation keeps: each issued handle is held once or destroyed once, and only destroyed ones are settled, one way |
| PlanHandles.EveryRunIsSound | native/llama/cache-adapter.h:69-183 | and so does every run of them |
| PlanHandles.ConsumedAtMostOnce | native/llama/cache-adapter.h:69-183 | over every run a handle is destroyed and settled at most once, none is lost, and what is held is neither destroyed nor settled nor held by anybody else |
| PlanHandles.ExecutorSettlesItsPlan | native/llama/src/cache-executor.cpp:227-257 | a commit, an abort in any case and the end of the scope settle a plan once, a commit wins over the abort after it, and the handle is destroyed |
| PlanHandles.PlanHandle.Move | native/llama/cache-adapter.h:75-82 | the new handle holds what the other held, and the other holds nothing |
| PlanHandles.PlanHandle.CommitPlan | native/llama/cache-adapter.h:108-123 | a commit that gets through destroys the handle; a refused one, or one without a handle, changes nothing |
| PlanHandles.PlanHandle.AbortPlan | native/llama/cache-adapter.h:125-130 | the same for an abort, which without a handle succeeds |
| PlanHandles.PlanHandle.CleanUp | native/llama/cache-adapter.h:170-175 | always gives the handle up |
| PlanHandles.PlanHandle.Assign | native/llama/cache-adapter.h:84-97 | gives up its own handle and takes over the other; assigning to itself changes nothing |
| Requests.UpperBound | native/llama/src/generation-stepper.cpp:148-151 | the first boundary above a position |
| Requests.SegmentMeans | native/llama/src/generation-stepper.cpp:91-101 | entry k of a contribution is the k-th next token at the k-th next position, and only the last one asks for logits |
| Requests.InputIsNext | native/llama/src/generation-stepper.cpp:77-102 | a contribution is the next stretch of prompt and sampled tokens, and stays below the context size |
| Requests.DecidedOrNot | native/llama/src/generation-stepper.cpp:104-141 | for any sampled token exactly one holds: it ends generation, or its text completes a stop, or the limit or the context is reached, or the request goes on undecided |
| Requests.PiecesOneMore | native/llama/src/generation-stepper.cpp:114-117 | the text of a request grows by the piece of the sampled token, unless that is empty |
| Requests.MovedOn | native/llama/src/generation-stepper.cpp:177-205 | after a decode the ledger is longer by exactly the contribution, at consecutive positions |
| Requests.NextBoundary | native/llama/src/generation-stepper.cpp:148-151 | no boundary is skipped and none is visited twice |
| Requests.GoesOn | native/llama/src/generation-stepper.cpp:139-140 | after a sampled token that decides nothing the request is live in the decode phase with this token pending |
| Requests.RestartIsLive | native/llama/src/generation-stepper.cpp:265-271 | the one retry starts again at position 0 with every boundary ahead, and is closer to the end |
| Requests.StartIsLive | native/llama/src/request-preparer.cpp:186-233 | an admitted request is live with its reused prefix in place |
| Requests.RankIsPositive | native/llama/src/generation-stepper.cpp:175-294 | a live request has at least one and at most twice its prompt and output limit, plus one, contributions to go |
| Requests.ActiveRequest.MarkTerminal | native/llama/src/request-state.cpp:40-45 | the terminal transition happens once |
| Requests.ActiveRequest.Finish | native/llama/src/request-state.cpp:47-59 | completes once, with the tail unless cancelled, its reason and its token counts; the slot is consistent afterwards, and nobody's |
| Requests.ActiveRequest.Fail | native/llama/src/request-state.cpp:110-130 | fails once; the slot is invalidated, given back and consistent, with a current lease or an invalidated slot |
| Requests.ActiveRequest.FeedPiece | native/llama/src/generation-stepper.cpp:117-122 | the events carry exactly the text that the stop buffer shows; it stops exactly if a stop is in all of the text, else everything up to the first doubtful place has been shown |
| Requests.ActiveRequest.TakeSampled | native/llama/src/generation-stepper.cpp:114-138 | the token's own piece is fed; the request ends with Stop exactly if a stop is in its text now, with Length exactly if not and the token limit is reached or the context is full, and otherwise goes on |
| Requests.ActiveRequest.ProcessSampled | native/llama/src/generation-stepper.cpp:104-141 | a token that ends generation completes the request with Stop; any other completes it exactly for the reason that it gives, or leaves it ready, with that token pending and closer to its end; a completion carries reason, token counts and the tail that completes the stream |
| Requests.ActiveRequest.TakeIn | native/llama/src/generation-stepper.cpp:180-203 | lease, executor and coordinator take in exactly the decoded tokens, which is told with the new generation, or the request fails and its slot is consistent |
| Requests.ActiveRequest.MaybeCreateAnchor | native/llama/src/generation-stepper.cpp:143-173 | prefill has paused exactly at the boundary; a copied anchor holds exactly the prompt up to it, in the mirror and physically; every new anchor is told |
| Requests.ActiveRequest.PlantAnchor | native/llama/src/generation-stepper.cpp:152-169 | planting changes no busy slot and not the source; every slot that has become an anchor is told with its generation and tokens |
| Requests.ActiveRequest.PlantAndReport | native/llama/src/generation-stepper.cpp:207-217 | a long prompt reports exactly how far it is, after the anchor if one is due |
| Requests.ActiveRequest.AddContribution | native/llama/src/generation-stepper.cpp:77-102 | at least one entry and at most the budget, never across the next anchor; less than the budget only up to the end of the prompt or the next anchor; logits exactly for the last prompt token |
| Requests.ActiveRequest.PostDecode | native/llama/src/generation-stepper.cpp:175-247 | whatever fails, the request is ready or ended and its slot consistent; other busy slots are untouched and no other slot falls out of agreement; what is told is first the tokens taken in, then every new anchor and the progress of a long prompt, then text, and its end at most once, last; anchors are exact and at its own boundaries; the ledger of what decoded is exact, also if it has ended; it ends exactly for the first reason there is; a request that has ended holds no slot |
| Requests.ActiveRequest.DecodeFailure | native/llama/src/generation-stepper.cpp:249-286 | exactly one retry, in prefill only, with the whole prompt from position 0; otherwise the request fails; no other slot falls out of agreement; what is told says which |
| Requests.ActiveRequest.ClearSlot | native/llama/src/generation-stepper.cpp:253-264 | the slot is empty and the lease still current, for a sole request by emptying every slot; what is told says which |
| Requests.TakeSlot | native/llama/src/cache-executor.cpp:164-271 | the admission as a request sees it: exactly when it succeeds, what is in its slot then, and that nobody else is touched |
| Requests.Prepare | native/llama/src/request-preparer.cpp:164-238 | a request is admitted exactly if there is a plan that is not stale, is feasible and commits, and then starts behind all that its plan reuses; on slots that everybody agrees on it is ready if and only if its slot was not restored in part; if all contents tally, its slots are such, and they tally afterwards if and only if there was no partial restore; nobody who is busy is touched |
| Stepper.Decode | native/llama/src/generation-stepper.cpp:15-30 | the model takes in all of a batch at the ends of its sequences, or nothing |
| Stepper.FedSegment | native/llama/src/generation-stepper.cpp:95-101 | the entries of one contribution continue its sequence one by one |
| Stepper.BatchServes | native/llama/src/generation-stepper.cpp:307-325 | in a mixed batch every contributor gets its own contribution at the end of its own sequence and nobody else gets anything |
| Stepper.CountRunnable | native/llama/src/generation-stepper.cpp:305-306 | the number of requests that are not done |
| Stepper.TurnFits | native/llama/src/generation-stepper.cpp:311-316 | a turn leaves one entry for each other runnable request if there was one for each |
| Stepper.FairOn | native/llama/src/generation-stepper.cpp:311-323 | one more contribution keeps every share fair: never above the quantum, more than one entry only if a place is left for everybody else who runs, and cut short only by the end of the prompt, the next anchor, the quantum, a spent prefill part, or a batch that has no more than those places left |
| Stepper.Join | native/llama/src/generation-stepper.cpp:311-323 | a request takes its share of what is left, and all shares stay fair |
| Stepper.PickedInOrder | native/llama/src/generation-stepper.cpp:308-323 | contributors come in the order in which requests are considered |
| Stepper.Consider | native/llama/src/generation-stepper.cpp:308-324 | one turn of the loop keeps the account of both budgets, and every share fair |
| Stepper.Gather | native/llama/src/generation-stepper.cpp:299-325 | batch and prefill stay within their budgets and every share is fair; somebody who runs is left out only if the batch is full or, in prefill, if its part is spent; if there is room for all runnable requests every decoding one contributes; somebody contributes if anybody runs; contributors keep the order |
| Stepper.Choose | native/llama/src/generation-stepper.cpp:299-325 | and filling the batch leaves every request ready |
| Stepper.PostAll | native/llama/src/generation-stepper.cpp:327-329 | after a decode every contributor is ready and closer to its end, or has ended |
| Stepper.Isolated | native/llama/src/generation-stepper.cpp:288-294 | exactly the same contribution alone, decoded or failed |
| Stepper.IsolateAll | native/llama/src/generation-stepper.cpp:335-337 | after a failed mixed batch every contributor is dealt with alone, without touching the others |
| Stepper.FailOnly | native/llama/src/generation-stepper.cpp:331-334 | a sole contributor whose batch fails is not decoded again: it starts over or has failed |
| Stepper.RunBatch | native/llama/src/generation-stepper.cpp:326-338 | all outcomes of a batch end with every contributor ready or ended; busy slots of others are kept, and no slot of others falls out of agreement |
| Stepper.SlotsAfter | native/llama/src/generation-stepper.cpp:326-338 | once every contributor is ready or ended, all contents tally if they did, no idle slot is busy, and whoever has ended has given its slot back |
| Stepper.Step | native/llama/src/generation-stepper.cpp:296-339 | a step keeps every request ready: its physical sequence is its prompt and sampled tokens up to its position and its ledger is that without the reused prefix; the batch is the next contributions of its contributors in order, within both budgets and shared fairly, each cut short only by the end of its prompt, its next anchor, its quantum or a spent budget; somebody is left out only if a budget is spent, and no decoding request if there is room for all; each contributor comes closer to its end, ends exactly for the first reason there is, and never passes its token limit; what is told of it is its new text and at most one end, last; nobody else moves; all anchors told are of its own boundaries, its ledger is exact also if it has ended, and if all contents tally before, they do afterwards; somebody contributes if anybody runs; no idle slot becomes busy, and whoever has ended has given its slot back |
| Pipeline.EndsAreLast | native/llama/src/generation-stepper.cpp:328-338 | across a whole step nothing is told of a request after its end |
| Pipeline.EndToldIffEnded | native/llama/src/generation-stepper.cpp:328-338 | the end is told of exactly those contributors that are not active any more |
| Pipeline.StepMeetsScheduler | native/llama/src/scheduler.cpp:161-175 | what the scheduler takes for granted about a step holds of every step of the stepper |
| Pipeline.LifeBegins | native/llama/src/request-preparer.cpp:186-237 | a request that was just prepared has contributed nothing, has shown nothing, has an empty ledger and has a bounded number of contributions to go |
| Pipeline.LivedOn | native/llama/src/generation-stepper.cpp:326-338 | a step in which a request contributes costs one contribution, and all told of it so far stays all its text, anchors at its boundaries, and its end with its reason; its ledger stays exact |
| Pipeline.RunSteps | native/llama/src/generation-stepper.cpp:296-339 | over any number of steps, orders and budgets no request contributes more often than twice its prompt and its output limit, plus one; all told of it is all the text it has shown, anchors of its prompt up to its boundaries, and at most one end, last; it runs exactly as long as nothing sampled ends it, and completes with the first token that does, for that reason; its ledger is exact, also after its end; all contents tally if they did |
| Pipeline.RunningIsPrompt | native/llama/src/generation-stepper.cpp:115-122 | while a request runs, the text of everything it sampled is shown up to the first place that may begin a stop or a character, and nothing it sampled ends it |
| Pipeline.ReasonIsFirst | native/llama/src/generation-stepper.cpp:104-138 | a completion with Stop has a stop in its text or was followed by a token that ends generation, one with Length has reached the token limit or filled the context, and no beginning of what was sampled would have ended it; its counts are those of prompt and sampled tokens |
| Pipeline.TextGoesOut | native/llama/src/worker.cpp:116-125 | while a request runs its protocol stream carries exactly the text it has shown |
| Pipeline.ContentIsStream | native/llama/src/worker.cpp:58-94 | the completion of a request carries the stream of the text of all its sampled tokens through its stop buffer, and that is exactly the text sent; a running one has sent all of it up to the first doubtful place; a failed one ends with a failure |
| Pipeline.ContentOfRun | native/llama/src/worker.cpp:96-143 | given that what was told about a request is its start and its steps' events, as every run of `Engines.Engine` ensures: its stream from its acceptance on, among the events of all other requests |
| Pipeline.ContentIsOneShotCut | packages/server/src/chat-compat.ts:123-127 | with non-empty unambiguous valid stops the content of a completion is the one-shot cut of the text of all sampled tokens |
| Schedulers.ConsistentAt | native/llama/src/scheduler.cpp:50-212 | every event about an id finds a request with that id that is not finished |
| Schedulers.LineAfterStart | native/llama/src/scheduler.cpp:104-113 | starting the first of its class keeps the order of the class |
| Schedulers.LineAfterPutBack | native/llama/src/scheduler.cpp:114-116 | a request put back at the front is first of its class again |
| Schedulers.OrderHasEachOnce | native/llama/src/scheduler.cpp:125-144 | a step is given every runnable active request exactly once and nothing else |
| Schedulers.ReportsOn | native/llama/src/scheduler.cpp:179-184 | reports compose: enqueued = waiting + active + finished over any sequence of operations |
| Schedulers.ChronicleOn | native/llama/src/scheduler.cpp:69-123 | so does the history of started requests |
| Schedulers.EraseKeeps | native/llama/src/scheduler.cpp:173-176 | erasing the done requests loses none that is unfinished |
| Schedulers.Scheduler.Enqueue | native/llama/src/scheduler.cpp:32-40 | one more unfinished request, last in the queue |
| Schedulers.Scheduler.Select | native/llama/src/scheduler.cpp:76-86 | a request that is first of its class |
| Schedulers.Scheduler.LoadModel | native/llama/src/scheduler.cpp:93-100 | no other model is loaded over active requests; a loaded model has room for at least one request, and none has room without |
| Schedulers.Scheduler.SetMaxActive | native/llama/src/worker-state.cpp:89-96 | the limit on active requests is as asked for, but at most the ceiling and at least one |
| Schedulers.Scheduler.SelectNext | native/llama/src/scheduler.cpp:76-102 | the request in turn fails exactly if it names no model or that does not load, waits exactly while another model is in use or its own has no room, or else is ready to be prepared with its own model loaded and nothing changed |
| Schedulers.Scheduler.AdmitOne | native/llama/src/scheduler.cpp:75-122 | one turn: the selected request fails, starts or goes back, told accordingly; nobody starts beyond the limit; the model stays while anything is active |
| Schedulers.Scheduler.PrepareSelected | native/llama/src/scheduler.cpp:104-121 | started, put back or refused, as the preparation came out, with the order of the queue kept |
| Schedulers.Scheduler.Admit | native/llama/src/scheduler.cpp:69-123 | requests start in the order of their class and not beyond the limit, active ones stay, and nothing is lost or told twice; afterwards nobody waits, or somebody was put back though there is room, or the first of some class has to wait for others to end |
| Schedulers.Scheduler.Cancel | native/llama/src/scheduler.cpp:50-67 | marks exactly the active requests with that id, or all, and takes a queued one out and tells it, or nobody |
| Schedulers.Scheduler.CompleteCancelled | native/llama/src/scheduler.cpp:147-159 | every cancelled request that is not done is completed, once |
| Schedulers.Scheduler.CompleteOne | native/llama/src/scheduler.cpp:148-157 | one unfinished request is done, and exactly its completion is told |
| Schedulers.Scheduler.DecodeFirst | native/llama/src/scheduler.cpp:125-144 | the order of the step: class by class, decoding ones first |
| Schedulers.Scheduler.StepAll | native/llama/src/scheduler.cpp:161-171 | every ended request is marked done |
| Schedulers.Scheduler.PassOn | native/llama/src/scheduler.cpp:162-170 | everything that a step told is told in order under the id of its request, and exactly those are done that it ended |
| Schedulers.Scheduler.StepRunnable | native/llama/src/scheduler.cpp:161-171 | a step over everybody who can run, or nothing |
| Schedulers.Scheduler.EraseDone | native/llama/src/scheduler.cpp:173-175 | exactly the done ones go |
| Schedulers.Scheduler.Sweep | native/llama/src/scheduler.cpp:173-176 | the done ones go, and that is told if there were any |
| Schedulers.Scheduler.Generate | native/llama/src/scheduler.cpp:146-177 | afterwards every active request runs, and every end was told |
| Schedulers.Scheduler.Tick | native/llama/src/scheduler.cpp:179-184 | conservation, order, one model and the limit over a whole tick, and why whoever waits still waits |
| Schedulers.Scheduler.CancelAll | native/llama/src/scheduler.cpp:186-212 | nothing is left, and everything that was left has been told |
| Schedulers.Scheduler.CancelWaiting | native/llama/src/scheduler.cpp:201-209 | the queue empties from the front, and exactly that is told |
| Protocol.OneMoreEvent | native/llama/src/protocol.cpp:149-160 | an event that may follow keeps the stream well-formed |
| Protocol.AllAgreeAfter | native/llama/src/protocol.cpp:149-160 | one written event keeps every stream well-formed and every number right |
| Protocol.ProtocolWriter.Scoped | native/llama/src/protocol.cpp:149-160 | writes exactly one event with the next number, unless the request has ended; other streams are unchanged |
| Protocol.ProtocolWriter.Accept | native/llama/src/protocol.cpp:162-165 | accepted is the first event of a request, and only once |
| Workers.TrackedAfterEvent | native/llama/src/worker.cpp:96-143 | while events are told, every accepted request that has not ended is unfinished exactly once |
| Workers.TrackedAfterAccept | native/llama/src/worker.cpp:161 | a newly accepted request is unknown to the scheduler |
| Workers.Worker.SendText | native/llama/src/worker.cpp:119-122 | the content gathered is the text sent |
| Workers.Worker.SendCompletion | native/llama/src/worker.cpp:58-94 | the tail is sent first, a completion carries all the text that was sent, and that is then forgotten |
| Workers.Worker.SendEvent | native/llama/src/worker.cpp:97-141 | ends the stream exactly for the events that end a request, and forgets its text |
| Workers.Worker.SendEvents | native/llama/src/worker.cpp:96-143 | after telling what the scheduler did, both agree again on every request |
| Workers.Worker.Refuse | native/llama/src/worker.cpp:150-154 | a malformed line with a readable id ends that stream, even that of a running request |
| Workers.Worker.Dispatch | native/llama/src/worker.cpp:145-235 | a request is accepted once; a repeated id changes nothing; a control request is answered at once; a generation is queued or refused; only a shutdown stops the worker |
| Workers.Worker.Serve | native/llama/src/worker.cpp:161-234 | the same for one accepted request, with the refusals of unload and load while requests are active |
| Workers.Worker.CarryOut | native/llama/src/worker.cpp:162-234 | what an accepted request asks for is queued, or answered at once as it may be |
| Workers.Worker.ServeModel | native/llama/src/worker.cpp:172-193 | unload and load are refused over active requests, else done; the limit is set |
| Workers.Worker.ServeCancel | native/llama/src/worker.cpp:167-171 | the cancelled requests are told before the cancel is answered |
| Workers.Worker.CancelEverything | native/llama/src/worker.cpp:254 | every accepted request has ended |
| Workers.Worker.TakeLines | native/llama/src/worker.cpp:241-251 | an idle worker waits for a line; then all lines that are ready are read, up to a shutdown; whoever was read has been answered |
| Workers.Worker.Run | native/llama/src/worker.cpp:237-256 | over every run: each request has accepted first, numbers 0, 1, 2, ..., at most one terminal event and nothing after it, and completions carry all the text; on a normal exit each accepted request has ended; until it exits or crashes, every line that is ready is read and there is a tick in every round |
| Engines.AboutContributor | native/llama/src/scheduler.cpp:162-170 | of all that a step tells of its contributors, what carries one id is what was told of that request, in order |
| Engines.AboutNobody | native/llama/src/scheduler.cpp:162-170 | and nothing carries the id of anybody else |
| Engines.PassedIsNamed | native/llama/src/scheduler.cpp:162-170 | what the scheduler passes on is what the step told, under the ids of its requests |
| Engines.EndedIffTold | native/llama/src/scheduler.cpp:173-175 | the scheduler takes exactly those requests for done whose end the step told |
| Engines.StepIsPassedOn | native/llama/src/scheduler.cpp:161-175 | after every step exactly those are done that do not run any more, and nothing is told of one after its end |
| Engines.StartRecorded | native/llama/src/scheduler.cpp:104-113 | the story of a request begins with its start |
| Engines.StepRecorded | native/llama/src/scheduler.cpp:161-171 | a step in which it contributes adds exactly what was told of it, and costs one contribution |
| Engines.CancelRecorded | native/llama/src/scheduler.cpp:147-158 | its cancellation is told once, last |
| Engines.StreamOfRequest | native/llama/src/worker.cpp:96-143 | from its story, among the events of everybody else: a running request has sent the text of all it sampled up to the first doubtful place; a completion carries the stream of all of that text; a cancelled or failed request ends as such |
| Engines.WorkerWritesStream | native/llama/src/worker.cpp:96-143 | and that is the stream that the worker writes for it |
| Engines.KnownAfterLeaving | native/llama/src/scheduler.cpp:75-122 | a request that leaves the queue has not started before, and nothing was told about it |
| Engines.RunningApart | native/llama/src/scheduler.cpp:104-113 | two requests that run are different objects with different ids on different slots |
| Engines.OrderOnce | native/llama/src/scheduler.cpp:125-144 | a step is given nobody twice and nobody who is done |
| Engines.BooksAfterStart | native/llama/src/scheduler.cpp:104-113 | starting a request with a new slot keeps the account of everybody |
| Engines.BooksAfterStep | native/llama/src/scheduler.cpp:161-171 | so does a step: every story grows by exactly what was told of that request, and whoever does not run any more has ended |
| Engines.BooksAfterCompletion | native/llama/src/scheduler.cpp:147-158 | so does finishing a cancelled request |
| Engines.NoLeakAfterStep | native/llama/src/scheduler.cpp:161-175 | after a step every busy slot is held by a request that still runs |
| Engines.NobodyHolds | native/llama/src/scheduler.cpp:173-175 | when nobody runs, no slot is busy |
| Engines.WorkAfterStep | native/llama/src/scheduler.cpp:161-171 | a step in which anybody contributes leaves less work |
| Engines.WorkIsLeft | native/llama/src/scheduler.cpp:161-171 | there is work left for everybody who runs, so that it bounds the number of ticks until nobody runs |
| Engines.Engine.constructor | native/llama/src/worker.cpp:36-38 | starts empty and valid |
| Engines.Engine.Enqueue | native/llama/src/worker.cpp:226 | a new request waits; nobody else is touched |
| Engines.Engine.Cancel | native/llama/src/scheduler.cpp:50-67 | whoever runs is marked, whoever waits leaves, and everything stays accounted for |
| Engines.Engine.Ask | native/llama/src/worker-state.cpp:137-168 | prepared exactly if its prompt fits the context, its plan is usable and not stale, its physical steps succeed and it commits; then it is ready on a slot that was not busy, at the beginning of its life; all contents tally |
| Engines.Engine.AskBeside | native/llama/src/worker-state.cpp:137-168 | whether a request is prepared or not, everybody who runs stays ready, and its slot is nobody else's |
| Engines.Engine.PrepareSelected | native/llama/src/scheduler.cpp:104-121 | the selected request starts, goes back or is refused, with every account kept |
| Engines.Engine.StartOver | native/llama/src/worker-state.cpp:32-40 | another model starts with all slots empty, idle and in agreement, and nobody runs then |
| Engines.Engine.SelectAndLoad | native/llama/src/scheduler.cpp:76-102 | the next request in turn fails, waits or is ready; with another model the cache is empty, else untouched |
| Engines.Engine.AdmitNext | native/llama/src/scheduler.cpp:75-122 | one turn of the admission loop, with real preparation, not beyond the limit |
| Engines.Engine.Admit | native/llama/src/scheduler.cpp:69-123 | the loop: nobody who has started is lost, nobody starts beyond the limit, and afterwards nobody waits, somebody was put back, or the first of some class has to wait |
| Engines.Engine.FinishCancelled | native/llama/src/scheduler.cpp:148-151 | the request completes as cancelled, without a tail and without its lease, on a slot that is nobody's |
| Engines.Engine.FinishAt | native/llama/src/worker-state.cpp:238-243 | and everybody else who runs stays ready, all contents tally, and no slot leaks |
| Engines.Engine.CompleteAt | native/llama/src/scheduler.cpp:148-157 | a cancelled request is finished, its slot is given back, everybody else stays ready and all contents tally; its object has completed and holds no slot, and less work is left |
| Engines.Engine.CompleteMarked | native/llama/src/scheduler.cpp:147-159 | exactly the marked requests, or all, are finished |
| Engines.Engine.WhoSteps | native/llama/src/scheduler.cpp:125-144 | everybody who runs, once, ready and with the life that is recorded |
| Engines.Engine.TakeStep | native/llama/src/worker-state.cpp:230-236 | the step itself: everybody ready, all contents tallying, somebody contributing, whoever ends giving its slot back |
| Engines.Engine.PassStep | native/llama/src/scheduler.cpp:161-171 | what it told is passed on, and the scheduler takes over where everybody stands |
| Engines.Engine.StepActive | native/llama/src/scheduler.cpp:161-171 | a step over everybody who runs keeps every account, readiness and agreement, and leaves less work if anybody runs |
| Engines.Engine.Generate | native/llama/src/scheduler.cpp:146-177 | cancellations, a step and the sweep: afterwards everybody active runs and nobody is marked as cancelled, and there is less work left if anybody was active |
| Engines.Engine.Tick | native/llama/src/scheduler.cpp:179-184 | admission and generation with all of this kept, within the limit, and nobody cancelled stays; when nobody waits and somebody is active, less work is left |
| Engines.Engine.Drain | native/llama/src/worker.cpp:240-253 | when nobody new comes, after at most as many ticks as there was work left every request that has started is over, nobody is active and no slot is busy |
| Engines.Engine.CancelAll | native/llama/src/scheduler.cpp:186-212 | nothing is left, every request that had started is over, and no slot is busy |
| Engines.Engine.Make | native/llama/src/worker.cpp:161-226 | one arrival, cancellation or tick does what it says |
| Engines.Engine.Run | native/llama/src/worker.cpp:15-31 | over any arrivals, cancellations and ticks: what was told about each request that has started is exactly its story, its stream follows from it, its contributions are bounded, executor, coordinator and sequences agree on what every slot holds, and only a request that runs keeps a slot busy |
| Lifecycle.StepIsSound | packages/runtime-router/src/lifecycle.ts:52-275 | every operation keeps the registry sound: only idle instances leave, only an explicit unload removes one kept always, no hook runs twice |
| Lifecycle.EveryRunIsSound | packages/runtime-router/src/lifecycle.ts:52-275 | and so does every run of operations, timers and listeners |
| Lifecycle.GoneForGood | packages/runtime-router/src/lifecycle.ts:266-280 | an instance that has left was idle, and its hook ran exactly once and its listener at most once |
| Lifecycle.StepLasts | packages/runtime-router/src/lifecycle.ts:52-275 | every operation keeps: an entry runs out its keep-alive duration after its last use, one kept always never, and one that unloads is in use |
| Lifecycle.EveryRunLasts | packages/runtime-router/src/lifecycle.ts:52-275 | and so does every run |
| Lifecycle.ExpiresWhenUnused | packages/runtime-router/src/lifecycle.ts:241-259 | a sweep, and the timer of an entry, remove it exactly if it is idle, not kept always, and was not used for its keep-alive duration |
| Lifecycle.StepTimed | packages/runtime-router/src/lifecycle.ts:249-260 | every operation but a timer that goes off early keeps: each idle entry that is not kept always has its own timer |
| Lifecycle.EveryRunIsTimed | packages/runtime-router/src/lifecycle.ts:249-260 | so over every run without early timers an idle entry has its timer until it leaves |
| Lifecycle.EvictedWasNotUsed | packages/runtime-router/src/lifecycle.ts:200-228 | a snapshot taken later than the last use that it shows evicts its own instance, neither loaded nor touched since, whatever happens in between on a clock that does not go back |
| Lifecycle.SuccessorIsEvicted | packages/runtime-router/src/lifecycle.ts:200-220 | from every sound state, for every snapshot that could evict: an unload and as many loads as its version says, in the millisecond of its last use, make it evict an instance it never saw |
| Lifecycle.EvictionIsOfTheSnapshot | packages/runtime-router/src/lifecycle.ts:200-228 | every later eviction with a snapshot removes the instance it shows, unused since, if and only if everything after it happens later than the last use it shows |
| Lifecycle.ModelLifecycleManager.LoadModel | packages/runtime-router/src/lifecycle.ts:52-93 | the registry stays sound; the model is in it under its key, used now, not unloading and without a transition, the same instance if there was one; the fields are those of the specified load |
| Lifecycle.ModelLifecycleManager.Begin | packages/runtime-router/src/lifecycle.ts:137-143 | the registry stays sound and the instance returned is in it and in use |
| Lifecycle.ModelLifecycleManager.Finish | packages/runtime-router/src/lifecycle.ts:145-157 | the registry stays sound, the count goes down by one, and the instance leaves exactly if that was the last usage and it was unloading |
| Lifecycle.ModelLifecycleManager.UnloadModel | packages/runtime-router/src/lifecycle.ts:95-112 | removes an idle instance, else lets it run out; says which |
| Lifecycle.ModelLifecycleManager.ExpireIdle | packages/runtime-router/src/lifecycle.ts:241-247 | removes every expired entry and no other |
| Lifecycle.ModelLifecycleManager.FireTimer | packages/runtime-router/src/lifecycle.ts:255-259 | the registry stays sound; the timer belongs to the instance under the key and removes it exactly if it has expired idle |
| Lifecycle.ModelLifecycleManager.TryEvict | packages/runtime-router/src/lifecycle.ts:200-220 | evicts exactly when nothing the snapshot shows has changed |
| Lifecycle.ModelLifecycleManager.DeleteEntry | packages/runtime-router/src/lifecycle.ts:262-275 | the entry, its timer, transition and version go together, and a sound registry stays sound if the instance may leave |
| GlobalMemory.ResidentCoversBoth | packages/runtime-router/src/concurrency.ts:67-68 | what counts as resident covers what all workers hold and what they retain, and is no more than both |
| GlobalMemory.ReserveIsEnough | packages/runtime-router/src/concurrency.ts:53-62 | a growth reserve never exceeds what is left of the budget, and within that is the largest of recent growth, minimum and percentage, and nothing else |
| GlobalMemory.PressureReserve | packages/runtime-router/src/concurrency.ts:71-72 | a tenth or a twentieth of physical memory, rounded down |
| GlobalMemory.KeysAreGrowth | packages/runtime-router/src/concurrency.ts:69 | the growth map has exactly the keys of the workers |
| GlobalMemory.TotalWithoutOverwritten | packages/runtime-router/src/concurrency.ts:69-70 | the total misses exactly the reserves that later workers with the same key have overwritten |
| GlobalMemory.GrowthCountedOnce | packages/runtime-router/src/concurrency.ts:69-70 | the reserved total is the sum of every worker's reserve if and only if whoever shares a key with a later worker has nothing to reserve, as different keys ensure |
| GlobalMemory.WithinShareIff | packages/runtime-router/src/concurrency.ts:78-82 | a worker stays within its share if and only if the share covers one reserve or it asks for no slot |
| GlobalMemory.SelectedIsLargest | packages/runtime-router/src/concurrency.ts:75-82 | the limit is the largest that is asked for and, beyond one, within the backend, hardware, model and retained ceilings and the share |
| GlobalMemory.ActiveWithinShares | packages/runtime-router/src/concurrency.ts:75-82 | all workers together stay within their shares |
| GlobalMemory.LimitsFitInMemory | packages/runtime-router/src/concurrency.ts:65-82 | for any list of workers none of whom loses a reserve to a later one with its key, active memory at the selected limits and all reserves fit in physical memory |
| GlobalMemory.SharedKeyOverruns | packages/runtime-router/src/concurrency.ts:69-70 | that condition is needed: on a list that names a key twice, which the registry never makes, the selected limits overrun memory |
| GlobalMemory.PressureNeverRaises | packages/runtime-router/src/concurrency.ts:71-82 | more pressure never raises the limit of any worker |
| EventLog.NextMatch | packages/server/src/cache-event-store.ts:307 | the next match of the line pattern |
| EventLog.RecoverTail | packages/server/src/cache-event-store.ts:305-317 | the bytes of the records accepted up to the first one that is torn or invalid |
| EventLog.RecoverFirst | packages/server/src/cache-event-store.ts:307-314 | a record is recovered whole exactly if it holds no carriage return and no Unicode line or paragraph separator, else fewer bytes are counted |
| EventLog.RecoveryKeepsCompleteRecords | packages/server/src/cache-event-store.ts:302-319 | after a crash in mid-append recovery keeps exactly the complete records if and only if all of them are such |
| EventLog.RecoveredExactly | packages/server/src/cache-event-store.ts:305-317 | for any records, with separators or without, what recovery counts: it goes on while what it sees of them, the part after the last separator, is a record |
| EventLog.RecoveryStopsAtSeparator | packages/server/src/cache-event-store.ts:305-318 | a record with a separator whose rest is no record takes all later ones with it; exactly those before it are kept |
| EventLog.LineSeparatorLosesRecord | packages/server/src/cache-event-store.ts:307-314 | any valid record with a line separator in it and no record after it, such as one of all five fields with U+2028 in its model name, is lost after the clean ones before it, all of which are kept |
| EventLog.TrimKeepsLast | packages/server/src/cache-event-store.ts:349-358 | the last line survives trimming if it fits alone |
| EventLog.AppendedIsLastLine | packages/server/src/cache-event-store.ts:232-237 | a record appended to complete lines is the last line |
| EventLog.YoungerAreKept | packages/server/src/cache-event-store.ts:330-333 | exactly the files that were last written before the cutoff go |
| EventLog.AgedAreFirst | packages/server/src/cache-event-store.ts:330-333 | in order of age these are the first ones |
| EventLog.RetainedIsSuffix | packages/server/src/cache-event-store.ts:329-362 | what retention leaves to read is a suffix of the lines in the files that are not aged, and everything if nothing is aged and all fits |
| EventLog.WrittenAppends | packages/server/src/cache-event-store.ts:233-241 | with or without rotation, writing adds exactly the line at the end of the log |
| EventLog.SplitJoined | packages/server/src/cache-event-store.ts:349-360 | lines that are written back are read as the same lines |
| EventLog.CollectedIsRest | packages/server/src/cache-event-store.ts:272-277 | following the cursors from a place, page by page of the length asked for, yields all that is left |
| EventLog.PagesCoverTheLog | packages/server/src/cache-event-store.ts:259-279 | following the cursors over an unchanged store yields every event that passes the filters exactly as often as it was recorded |
| EventLog.CacheEventStore.RecoverCurrentTail | packages/server/src/cache-event-store.ts:302-319 | the file is cut back to what recovery counts of its records, which is all of them if none holds a separator, and is not touched if that is all of it |
| EventLog.CacheEventStore.TrimCurrentToBytes | packages/server/src/cache-event-store.ts:347-362 | the longest suffix of lines that fits |
| EventLog.CacheEventStore.DropOld | packages/server/src/cache-event-store.ts:335-341 | only as many of the oldest files go as the limit requires |
| EventLog.CacheEventStore.EnforceRetention | packages/server/src/cache-event-store.ts:329-345 | afterwards everything fits and no segment is aged; aged files go first, then only as many of the oldest as needed, then only as many old lines of the current file |
| EventLog.CacheEventStore.RotateCurrent | packages/server/src/cache-event-store.ts:321-327 | a non-empty current file becomes the youngest segment, with the time it was last written |
| EventLog.CacheEventStore.Write | packages/server/src/cache-event-store.ts:232-241 | the line goes to the end of the current file, which is rotated first if it would grow too long |
| EventLog.CacheEventStore.Append | packages/server/src/cache-event-store.ts:228-244 | what can be read afterwards is a suffix of the lines that were there, in order, and the new one; if no segment is aged and all of it fits, it is all of them and the files hold exactly what they held and the line; the store stays within its limit, and the record just written is its last line unless it alone is over the limit |

## Left out

- JSON, HTTP, SSE framing, the command line, the dashboard, downloads, credentials, process spawning: I/O.
- Sampling, tokenizing, chat templates, llama.cpp and device memory: nondeterministic choices here.
- The coordinator's own ranking and planning: only what a plan promises. `CacheExecutors.Planned` and `AnchorPlanned` are assumptions about it.
- CacheExecutors.CacheExecutor.Admit: an exception between the commit and the end of the eviction loop is not modelled; the mirror and the coordinator can differ there.
- CacheExecutors.CacheExecutor.Release: the coordinator refuses only an old generation.
- CacheExecutors.CacheExecutor.Reset: the physical clear succeeds, as does every removal of a whole sequence.
- Stepper.Decode: a failed decode is taken to leave the sequences as they were.
- Stepper.Step: every request holds a cache lease; workers without a cache executor are not modelled.
- Requests.ActiveRequest.constructor: a request holds its lease as a value; the lease object is `Leases.CacheLease`.
- Pipeline.RunSteps: the requests are there from the beginning, and none is cancelled between two steps; `Engines.Engine` starts and cancels them.
- Engines.Engine.Ask: a plan that restores less than a whole donor for a model that is not hybrid is left out of the runs, since such a request does not start ready (`Requests.Prepare`).
- Engines.Engine.Run: loading another model empties the slots of the one executor, where the code makes a new one; what the model says of itself comes with each request; explicit load, unload and limit commands are left out.
- Engines.WorkerWritesStream: the worker's loop (`Workers.Worker.Run`) runs over `Schedulers.Scheduler` with arbitrary steps, not over the engine; the stream is stated for a worker that sends the engine's events.
- Requests.Prepare: the copies of tokens, busy flags and generations that the worker's state writes back into the executor before an admission, and the encoder path with `acquire`, are not modelled; the anchor boundaries come sorted and above the reused prefix, as the coordinator returns them.
- Requests.ActiveRequest.Finish: of a completion only the reason, tail and token counts; cache facts and boundary facts are not modelled, nor are the removal of the sampler and the error text of a failure.
- Requests.ActiveRequest.MaybeCreateAnchor: identity scopes, protection and the list of materialized boundaries are not modelled.
- Schedulers.Scheduler.Enqueue: two requests of one id are counted, not told apart; the worker accepts each id once.
- Schedulers.Scheduler.StepAll: what a step tells, and the phase and remaining work of a request after it, are arbitrary here; in `Engines.Engine.StepActive` they are those of `Stepper.Step`.
- Workers.Worker.Run: the loop is watched for a given number of rounds, and a crash happens between two scheduler operations; telemetry, diagnostics and the ready event carry no request id and are left out.
- Workers.Worker.SendCompletion: of the result only the content; reason and token counts are in the request's own completion (`Pipeline.ReasonIsFirst`).
- Schedulers.Scheduler.LoadModel: how the limit and its ceiling are chosen from memory, processors and context is not modelled, only that they are at least one (native/llama/active-concurrency.h:88-93).
- Integer widths: token counts, positions, generations and byte counts are unbounded.
- GlobalMemory.LimitsFitInMemory: percentages are exact; hysteresis, cooldown and the reasons in a plan are not modelled.
- Limiter and lifecycle clocks: times are arbitrary integers; `cleanup` and the parsing of keep-alive strings are not modelled, and the removal hook runs at once while the listener runs later or never.
- StopBufferProofs.StreamingIsOneShotCut: both sides work on bytes; the server cuts UTF-16 text, where for valid texts and stops the places correspond.
- EventLog.CacheEventStore.EnforceRetention: rotated segments come in the order of rotation, which their file names follow unless ten rotations share a millisecond; the HMAC key and fingerprints are not modelled, and a truncation inside a character is rounded down.
- EventLog.PagesCoverTheLog: the page is over events already sorted; the sort by timestamp and the age filter of a read are not modelled.
- EventLog.CacheEventStore.Append: the current file ends with a complete line, as it does after recovery; what is kept is stated over lines, since trimming drops blank ones.
- Lifecycle.StepTimed: a timer goes off no earlier than it was set for, by the same clock.
- Gate.RegistryOperationGate.Run: a call's operation finishes in one step; its failure takes the same path.
- `classifyMemoryPressure`, `shouldAdjustActiveLimit`, `validateTokenBudget`, cache-outcome classification, request cancellation registry, parser profiles: these lie outside the serving core.
