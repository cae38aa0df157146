# Panqueue: a verified model of the job protocol and its workers

Panqueue keeps a job queue in Redis. Every operation is one Lua script, so one atomic step on shared
state: a waiting list, an `active` sorted set scored by lease deadline, two indexes of finished jobs, one hash
per job, a versioned concurrency record and a publish channel. Any number of workers interleave these steps.
The project models the scripts, the worker runner that drives them, and the keyed scheduler prototype, and
proves what every run keeps.

## How it is built

* `SortedSets`, `Jobs`, `Retention`, `Scripts`: the data and what each script does, as functions on one state
  value. `Queue.dfy` holds the object with one imperative method per script, loops included; each method's
  postcondition equates its new contents and reply with the function of the same name.
* `Invariant`, `Protocol`: the invariant, stated one job id at a time, and the transition system of all
  scripts plus one environment step that loses any job hash at any moment. No theorem about runs needs that
  step switched off; only `NoLossNoDifference` asks for the waiting hashes to be there.
* `Structure`, `Ordering`, `Tokens`, `Accounting`, `Events`, `SweepReports`, `Batching`, `RetentionExact`,
  `Limits`, `Leasing`, `Journal`: what that gives over whole runs. `Journal` reads every field of a stored hash off
  the replies and arguments of the calls, without looking at the scripts.
* `Semaphores`, `Runners`, `WorkerRunner`: the semaphore and runner as objects and as step functions; a step is
  the code between two awaits.
* `Workers`, `Wakeups`, `LostWakeups`, `Outcomes`, `Ownership`, `HandOff`: queue, any number of runners, notifications in flight and
  claim calls in flight, composed into one system.
* `Keyed`, `KeyedProofs`, `KeyedCalls`, `RoundRobin`, `KeyOrdering`: the flat and keyed prototypes.

Each state carries an append-only history per job (tokens issued, settlements, deletions, evictions, corrupt
reports). No script reads it; `ClaimReplyIsHistory` and `SweepReplyIsHistory` tie it to the replies.

## Assumptions

* Ids are never enqueued again once used (`packages/core/src/job-id.ts:2`); a live collision is modelled.
* A token is the triple (id, time, run number) that the claim script hashes; SHA-1 is taken as injective.
* The server clock is a parameter of each step. No theorem needs it to be monotone.
* Budgets are arbitrary integers, as the scripts do not validate them; a negative budget acts like 0 there.
* `NoLostWakeup` and `NoLeaseLeftBehind` are about every run and exclude no move. The first speaks of the moments
  when the runner is not stranded: `Strands` and `Heals` name the moves that begin and end a stranding on the
  state before the move, and `InformedUnlessStranded` proves the first of them exact. The second says which
  leases are left: those lost, token by token, to the failures that `Dropped` lists.
* The keyed theorems are about legal calls. `DoKeeps` proves that a call keeps the scheduler sound if and only if
  it is legal; every claim is. `KeyedRefinesFlat` assumes nothing about the calls.

## Where the code and its documents differ

* The written design, under saturation wake-up latency, says `complete` does not publish. It does when a limit
  is set and work waits (`packages/worker/src/lua/complete.ts:67`), and `NoLostWakeup` depends on it.
* The written design also says corrupt entries consume no global capacity. They never enter `active`, but a
  corrupt pointer does use up a slot of the clamped batch, so a batch can come back with nothing leased while
  capacity is free and work waits. `ClaimBatchingIsTransparent` says exactly when batch sizes show for that reason.
* `docs/DECISIONS.md:238-243` says a job handed back at shutdown without retries left goes to `failed`. The code
  always returns it to waiting (`packages/worker/src/lua/requeue-active.ts:53-61`), so requeues are the one
  source of runs that no budget bounds, as `ClaimsAreBounded` and `ProgressIsBounded` make explicit.

## What turned out false in general

Each with its exact condition and an example reached by a legal run:

* Splitting a claim is not always transparent: `ClaimBatchingIsTransparent`, `LostHashShowsTheBatch`.
* A raised limit is not always announced: `StepIsAnnounced`, `RaiseStrandsAParkedRunner`.
* A parked runner can be left beside work: `InformedUnlessStranded`, `NoLostWakeup`, `FailedClaimStrandsItsRunner`.
* Shutdown can leave a lease behind: `NoLeaseLeftBehind`, `LostReplyLeavesALease`, `LateClaimLeavesALease`.
* Any order of declarations is free of conflicts only if they agree: `DeclarationsConverge`, `InconsistencyShows`.
* In the keyed prototype a completion can free global capacity without telling anybody:
  `SilentExactlyWhenKeyIsEmpty`, `SilentCompletion`.
* The keyed completion is not fenced: `CompletionExactness`, `CompletingAWaitingJobHarms`.
* A keyed claim for zero jobs costs the first key its turn, while every other key still moves up one place:
  `FirstIsServed`, `ServedInTurn`, `AskingForNothingSkipsATurn`.

## Model

| member | source | states |
|---|---|---|
| QueueScripts.Queue.Enqueue | packages/client/src/lua/enqueue.ts:41-62 | an id whose hash exists is refused and nothing changes; otherwise hash, list entry and notification are written together |
| QueueScripts.Queue.ClaimNext | packages/worker/src/lua/claim-global-batch.ts:73-93 | one pop from the right: leased under the next token, or surfaced as corrupt when the hash is gone |
| QueueScripts.Queue.ClaimGlobalBatch | packages/worker/src/lua/claim-global-batch.ts:53-96 | the whole pop loop and the clamp: state and reply are those of the specification the batching, token and limit theorems are about |
| QueueScripts.Queue.ExtendLock | packages/worker/src/lua/extend-lock.ts:38-60 | fenced; moves score and leaseDeadline together or answers missing/stale and changes nothing |
| QueueScripts.Queue.Complete | packages/worker/src/lua/complete.ts:41-70 | fenced; lease removed, retention applied, notification only if a limit is set and work waits |
| QueueScripts.Queue.Fail | packages/worker/src/lua/fail.ts:41-86 | fenced; within the retry budget the job goes back to the left of the list and is published, otherwise it is finished as failed |
| QueueScripts.Queue.RequeueActive | packages/worker/src/lua/requeue-active.ts:39-61 | fenced; the job always goes back to waiting and is published, no counter changes |
| QueueScripts.Queue.RecoverEntry | packages/worker/src/lua/recover.ts:71-112 | one expired entry: restored, given up or corrupt, with the conditional notification |
| QueueScripts.Queue.Recover | packages/worker/src/lua/recover.ts:58-117 | the loop over candidates computed once equals always taking the lowest expired entry of the current set |
| QueueScripts.Queue.DeleteHashes | packages/worker/src/lua/retention-lua.ts:30-32 | the DEL loop removes exactly the listed hashes |
| QueueScripts.Queue.TrimByAge | packages/worker/src/lua/retention-lua.ts:28-34 | members of score at most the cutoff lose pointer and hash together |
| QueueScripts.Queue.TrimByCount | packages/worker/src/lua/retention-lua.ts:35-43 | the overflow of lowest rank loses pointer and hash together |
| QueueScripts.Queue.Finish | packages/worker/src/lua/retention-lua.ts:20-45 | the delete, keep and trim modes of the shared fragment |
| QueueScripts.Queue.DeclareConcurrencyLimit | packages/worker/src/lua/declare-concurrency-limit.ts:37-59 | the versioned write rule, its four answers and the limit stored afterwards |
| Protocol.StepKeeps | packages/worker/src/lua/recover.ts:65-117 | every script, and the loss of any hash, keeps the per-job invariant, and history only grows |
| Protocol.RunKeeps | packages/worker/src/lua/claim-global-batch.ts:72-94 | so does every run of any length by any number of workers |
| Structure.Conservation | packages/client/src/lua/enqueue.ts:45-61 | in every reachable state an enqueued id is in exactly one of waiting, active, completed, failed, deleted, evicted, surfaced as corrupt (at most once), hashes vanishing at any moment; other ids are nowhere |
| Structure.WaitingDistinct | packages/worker/src/lua/claim-global-batch.ts:72-76 | the waiting list never names a job twice |
| Structure.HashesAgree | packages/worker/src/lua/claim-global-batch.ts:82-90 | a stored status names exactly the collection that holds the id; a lock is held exactly while active and was issued at lastStartedAt; leaseDeadline and finishedAt equal the scores |
| Structure.ExtendSucceeds | packages/worker/src/lua/extend-lock.ts:43-60 | the holder of the current token always gets "extended", in index and hash alike |
| Events.LiveHashSurvives | packages/worker/src/lua/retention-lua.ts:20-45 | no script deletes the hash of a waiting or active job unless it settles that very run |
| Ordering.FirstInFirstOut | packages/worker/src/lua/claim-global-batch.ts:72-76 | over any run, those waiting followed by all arrivals are all departures followed by those still waiting: one FIFO line for enqueues, retries, requeues, recoveries and claims, read off the replies |
| Journal.HashIsTheJournal | packages/worker/src/lua/claim-global-batch.ts:82-92 | in every run, hashes lost at any moment, each of the 19 fields of a stored hash is what the replies and arguments of the calls so far say about the job: payload, budgets and creation time of its accepted enqueue; runs, failures and stalls counted; status, lock, deadline, times and reasons of the latest events; the budgets in history likewise |
| Journal.ClaimRepliesTheJournal | packages/worker/src/lua/claim-global-batch.ts:92-92 | what a claim replies with for a leased job is the journal's hash, the claim's own entry included |
| Journal.EnqueueStores | packages/client/src/lua/enqueue.ts:45-62 | accepted if and only if the id has no hash; then exactly the given payload, budgets and time are stored, the id joins the list and is published, and nothing else changes |
| Journal.RequeueStores | packages/worker/src/lua/requeue-active.ts:51-61 | an accepted requeue stores the old hash but for status, lock and the two requeue fields, and changes no other hash |
| Journal.CompleteStores | packages/worker/src/lua/complete.ts:54-63 | an accepted completion stores, if anything, the old hash without its lock, completed now, and rewrites no other hash |
| Journal.FailStores | packages/worker/src/lua/fail.ts:55-80 | an accepted failure answers waiting if and only if the new count is within the budget, and stores the old hash with one failure, its reason and time, waiting or failed accordingly |
| Leasing.ClaimIsExact | packages/worker/src/lua/claim-global-batch.ts:57-93 | a claim pops exactly min(count, waiting, free capacity) pointers, oldest first, and leases each that has a hash from now for leaseMs under the token of its next run; other hashes and leases stand |
| Leasing.NoEarlyRecovery | packages/worker/src/lua/recover.ts:65-70 | no recovery before now + leaseMs, whatever its batch, takes a job just claimed |
| Tokens.DeadForever | packages/worker/src/lua/complete.ts:47-49 | a token once issued and not held now is never held again, in any continuation |
| Tokens.SettledOnce | packages/worker/src/lua/recover.ts:70-79 | over a whole run at most one step ends the run a token stands for |
| Tokens.IssuedOnce | packages/worker/src/lua/claim-global-batch.ts:82-90 | no two leased entries of any claims of a run carry the same token |
| Tokens.AckSettles | packages/worker/src/lua/fail.ts:48-63 | a call that presents the held token is never refused, and the token is dead afterwards |
| Finishing.DeadCallsChangeNothing | packages/worker/src/lua/requeue-active.ts:40-46 | the four fenced scripts with a token that is not held change nothing, and answer missing or stale according to whether the hash is there |
| Tokens.HeldFrozen | packages/worker/src/lua/fail.ts:48-72 | while a token stays held no step of anyone changes anything in the hash but the lease deadline |
| Accounting.RunsAddUp | packages/worker/src/lua/claim-global-batch.ts:82-82 | runs = failures + stalls + requeues + (1 if active or completed); live jobs are within both budgets |
| Accounting.ClaimsAreBounded | packages/worker/src/lua/fail.ts:57-72 | a job is claimed at most retries + stalls + 1 + requeues times |
| Accounting.ClaimReplyIsHistory | packages/worker/src/lua/claim-global-batch.ts:79-92 | the tokens and corrupt ids in a reply are exactly what the claim added to each job's history |
| Accounting.SweepReplyIsHistory | packages/worker/src/lua/recover.ts:71-112 | each non-corrupt entry of a sweep counts exactly one stall, each corrupt one is surfaced once |
| Accounting.ProgressIsBounded | packages/worker/src/lua/recover.ts:74-91 | a potential pays for every claim, recovery, completion and failure of any run; only enqueue and requeue add to it |
| Events.SnapshotCurrent | packages/worker/src/internal/worker-runner.ts:335-350 | from the claim that returned a job to the end of that run the worker's snapshot equals the stored hash but for the lease deadline |
| Events.AckReportsAreStored | packages/worker/src/internal/worker-runner.ts:322-371 | after an acknowledgement that was not refused, the job, willRetry and retriesLeft reported (failure) or the job reported (completion) are what the script wrote, but for the times the worker does not know |
| SweepReports.RecoverReportsTheTruth | packages/worker/src/internal/worker-runner.ts:415-439 | every entry of a recovery carries the hash with one more stall and no lock, restored exactly within the stall budget; when it ends the queue agrees with every entry |
| Batching.RecoversCompose | packages/worker/src/lua/recover.ts:58-117 | at one instant recoveries of batches b and c equal one of both (a negative one being unbounded) in state, notifications and replies |
| Batching.RecoverTakesTheBatch | packages/worker/src/lua/recover.ts:58-71 | a recovery takes the entries lowest by (deadline, id), exactly min(batch, number expired) of them or all expired for a negative batch, in order, and leaves every other lease |
| Batching.ConcurrentSweepsAreDisjoint | packages/worker/src/lua/recover.ts:68-71 | two recoveries at one instant, of any batches, never report the same expiry twice |
| SortedSets.RankedIncreasing | packages/worker/src/lua/recover.ts:65-65 | ranks go up by score, and among equal scores by id, so no member is ranked twice |
| SortedSets.RangeByScoreExact | packages/worker/src/lua/recover.ts:65-65 | the candidates are exactly the members with score at most now |
| Structure.ClaimBatchingIsTransparent | packages/worker/src/lua/claim-global-batch.ts:53-94 | in every reachable state claim(m) then claim(n) equals claim(m + n) in state, tokens and replies if and only if the split is harmless, a condition checkable beforehand |
| Batching.NoLossNoDifference | packages/worker/src/lua/claim-global-batch.ts:79-80 | it is harmless whenever no waiting hash is missing |
| Structure.LostHashShowsTheBatch | packages/worker/src/lua/claim-global-batch.ts:58-80 | a legal run from the empty queue after which it is not: a corrupt pointer uses a slot of the clamped request |
| Retention.ResolveKeepsMeaning | packages/core/src/retention.ts:27-39 | normalising a rule keeps, for every age and rank, whether the job is kept; trim mode always carries a bound |
| RetentionExact.TrimmedIsOneEviction | packages/worker/src/lua/retention-lua.ts:25-43 | both trims together leave the suffix of length min(count, entries newer than now - ttl) and delete exactly the hashes of the rest |
| RetentionExact.TrimsCommute | packages/worker/src/lua/retention-lua.ts:28-43 | age then count equals count then age |
| RetentionExact.RetentionIsExact | packages/worker/src/lua/retention-lua.ts:20-45 | each index member survives, with score and hash, if and only if the rule keeps its age and rank; under the delete mode one hash goes and no index changes |
| RetentionExact.AcksRetain | packages/worker/src/lua/complete.ts:56-63 | complete applies the rule it is given to the completed index and an exhausted fail to the failed one, member by member in terms of age and number of newer ones; a retry touches neither |
| RetentionExact.RecoverRetains | packages/worker/src/lua/recover.ts:90-105 | a recovery finishes the job it gives up into the failed index under the rule of the call, and otherwise touches no index |
| Limits.ClaimWithinLimit | packages/worker/src/lua/claim-global-batch.ts:57-66 | a claim under limit L ends with at most max(before, L) active jobs |
| Limits.OnlyClaimGrows | packages/worker/src/lua/extend-lock.ts:51-51 | no other script makes active grow |
| Limits.LimitHolds | packages/worker/src/lua/claim-global-batch.ts:57-90 | over any run with limit L, active never exceeds max(start, L) |
| Limits.StoredIsHighest | packages/worker/src/lua/declare-concurrency-limit.ts:41-52 | the record holds a declaration of the highest version seen |
| Limits.DeclarationsConverge | packages/worker/src/lua/declare-concurrency-limit.ts:37-59 | if equal versions carry equal limits, every order of the declarations stores the same record and nobody is told conflict |
| Limits.InconsistencyShows | packages/worker/src/lua/declare-concurrency-limit.ts:56-59 | otherwise some order of the same declarations is told conflict |
| Limits.ConflictHasCause | packages/worker/src/lua/declare-concurrency-limit.ts:56-59 | a conflict means that version was written earlier with another limit |
| Limits.AnswersByHistory | packages/worker/src/lua/declare-concurrency-limit.ts:41-59 | each of the four answers read off the declarations before it: written if and only if all were lower, ignored if and only if one was higher, unchanged or conflict by the limit that version was written with; only written changes the record |
| Limits.VersionsOnlyRise | packages/worker/src/lua/declare-concurrency-limit.ts:49-55 | the stored version never decreases, whatever was stored first |
| SemaphoreObjects.Semaphore.Acquire | packages/worker/src/semaphore.ts:34-47 | granted, queued or rejected |
| SemaphoreObjects.Semaphore.OnAbort | packages/worker/src/semaphore.ts:49-55 | indexOf and splice remove exactly the aborted waiter and keep the others' order |
| SemaphoreObjects.Semaphore.TryAcquire | packages/worker/src/semaphore.ts:68-74 | takes a permit if and only if one is free |
| SemaphoreObjects.Semaphore.Release | packages/worker/src/semaphore.ts:77-85 | hands the permit to the first waiter, or frees it |
| Semaphores.SemaphoreIsSound | packages/worker/src/semaphore.ts:34-85 | over any history of uses: permits out = count, at most max; while one is free nobody waits or is turned away; an aborted request gets nothing; service is first come first served among those that did not abort |
| WorkerRunners.WorkerRunner.Start | packages/worker/src/internal/worker-runner.ts:129-138 | single-shot: refused in any state but idle, otherwise running and in the loop |
| WorkerRunners.WorkerRunner.LoopTop | packages/worker/src/internal/worker-runner.ts:232-237 | loop condition and acquire |
| WorkerRunners.WorkerRunner.PermitResumes | packages/worker/src/internal/worker-runner.ts:239-253 | stop check, or top-up to min(cap, available + 1) and claim |
| WorkerRunners.WorkerRunner.ClaimReturns | packages/worker/src/internal/worker-runner.ts:261-294 | empty, partial, corrupt and full replies: dispatch and permit return |
| WorkerRunners.WorkerRunner.ClaimThrows | packages/worker/src/internal/worker-runner.ts:254-259 | all held permits go back, then the loop waits |
| WorkerRunners.WorkerRunner.ReleasePermits | packages/worker/src/internal/worker-runner.ts:299-301 | the release loop |
| WorkerRunners.WorkerRunner.Wake | packages/worker/src/internal/worker-runner.ts:141-152 | wakes a parked loop or remembers the notification |
| WorkerRunners.WorkerRunner.WaitForNotification | packages/worker/src/internal/worker-runner.ts:441-457 | consumes a remembered notification or parks |
| WorkerRunners.WorkerRunner.PollFires | packages/worker/src/internal/worker-runner.ts:447-450 | the poll timer unparks |
| WorkerRunners.WorkerRunner.StopClaiming | packages/worker/src/internal/worker-runner.ts:158-166 | stop, abort the pending acquire, wake |
| WorkerRunners.WorkerRunner.JobSettles | packages/worker/src/internal/worker-runner.ts:284-287 | the entry leaves the set and its permit is released |
| Runners.NewHasPermits | packages/worker/src/internal/worker-runner.ts:128-138 | a new runner satisfies the permit invariant |
| Runners.EventKeepsPermits | packages/worker/src/internal/worker-runner.ts:229-301 | every step keeps it: permits in use = held by the loop + unfinished jobs, never above the concurrency, the loop waits only when all are taken |
| Runners.PermitsConserved | packages/worker/src/internal/worker-runner.ts:229-301 | so no sequence of errors, aborts, empty, partial or corrupt replies loses or invents a permit |
| Runners.ClaimAsksForTheBatch | packages/worker/src/internal/worker-runner.ts:244-253 | a claim asks for exactly min(cap, free permits + 1) jobs and the loop then holds that many permits |
| Runners.StoppingLoopExits | packages/worker/src/internal/worker-runner.ts:154-166 | once told to stop, the claim loop takes at most two more steps of its own and sends no claim, whatever happens around it; until it has exited, its own claim call is out or its next step can be taken, so it never waits for a handler, a permit or the poll timer |
| Runners.NotificationsAreSpent | packages/worker/src/internal/worker-runner.ts:141-152 | over any run the waits that return at once on a remembered notification are no more than the wakes: each notification is used at most once |
| Runners.RunningLoopLives | packages/worker/src/internal/worker-runner.ts:232-265 | until told to stop the claim loop never exits, whatever fails: it waits for a permit while all jobs run, its call is out, it is parked, or its next step can be taken |
| Wakeups.EmptyReplyMeansBlocked | packages/worker/src/lua/claim-global-batch.ts:57-76 | a claim of at least one job comes back empty if and only if nothing is claimable |
| Wakeups.StepIsAnnounced | packages/worker/src/lua/complete.ts:67-69 | a step that makes the queue claimable publishes, for every script, if and only if it is not a silent raise: a declaration that will be written, over an exhausted limit, while jobs wait and the new limit has room |
| Wakeups.ChannelIsExact | packages/worker/src/lua/recover.ts:84-112 | every call publishes exactly the notices that its arguments, its reply and the state before say, in order, no more and no less |
| Workers.MoveKeepsSound | packages/worker/src/worker-pool.ts:374-387 | queue invariant, permits, call and shutdown bookkeeping are kept by every move of any number of runners |
| LostWakeups.InitialInformed | packages/worker/src/internal/worker-runner.ts:129-138 | runners that have not started satisfy the wake-up invariant |
| LostWakeups.InformedUnlessStranded | packages/worker/src/internal/worker-runner.ts:229-296 | for every move of a sound system: a runner with nothing on its way that is parked or about to park has nothing to claim, and this survives the move if and only if the move does not strand it; the stranding moves are read off the state before (a silent raise met while parking, or its own claim call failing over claimable work) |
| LostWakeups.NoLostWakeup | packages/worker/src/internal/worker-runner.ts:229-296 | at every moment of every run, a parked runner with no notification on its way has nothing to claim unless it is stranded; a stranding lasts at most until its next poll or notification |
| LostWakeups.PollRestores | packages/worker/src/internal/worker-runner.ts:446-456 | a runner is informed right after its poll timer fires or any notification reaches it |
| LostWakeups.MessagesAreConserved | packages/worker/src/worker-pool.ts:262-262 | over any run each message published is delivered to each runner once or still on its way |
| LostWakeups.FailedClaimStrandsItsRunner | packages/worker/src/internal/worker-runner.ts:254-259 | a run from a new runner in which its failed claim call leaves it parked beside a waiting job |
| LostWakeups.RaiseStrandsAParkedRunner | packages/worker/src/lua/declare-concurrency-limit.ts:49-52 | a run from the empty queue and a new runner in which a raised limit leaves it parked beside claimable work |
| Outcomes.ClaimIsRecorded | packages/worker/src/internal/worker-runner.ts:251-253 | what comes back to a runner is what the queue leased for it, as many as it holds permits, from now for the lease named in the call |
| Outcomes.LateClaimIsRecorded | packages/worker/src/internal/worker-runner.ts:251-259 | a claim executed after its call threw leases likewise, and the tokens count as given to the runner |
| Outcomes.ClaimCallsAreConserved | packages/worker/src/internal/worker-runner.ts:251-259 | over any run each claim call a runner sent has been executed once or is still open |
| Outcomes.HandlerOutcomeIsRecorded | packages/worker/src/internal/worker-runner.ts:322-338 | a handler that succeeded has its run settled as completed, one that threw as a failure with that message, retried exactly within the budget; if the lease had ended, nothing changes |
| Outcomes.HandBackIsRecorded | packages/worker/src/internal/worker-runner.ts:182-184 | a job handed back has its run settled as requeued and waits with that reason; if the lease had ended, nothing changes |
| HandOff.MoveAccounted | packages/worker/src/internal/worker-runner.ts:158-195 | for every move of anybody: each live lease ever given to the runner is in its hands (reply, slot or pending requeue) or among those it lost, never both; leases are lost by a lost reply, an undecodable hash, a claim executed after its call threw, an acknowledgement that threw and no requeue, or a requeue that threw |
| HandOff.NoLeaseLeftBehind | packages/worker/src/internal/worker-runner.ts:158-195 | in every run, after stopClaiming and an answered forceRequeueInflight, or an un-timed drain, the leases left to the runner are exactly those it lost that have not ended |
| HandOff.LostReplyLeavesALease | packages/worker/src/internal/worker-runner.ts:254-259 | a run from a new runner in which a lost claim reply leaves a lease behind after a completed hand-off |
| HandOff.LateClaimLeavesALease | packages/worker/src/internal/worker-runner.ts:252-259 | another, in which the claim is executed only after the hand-off |
| Ownership.OneHandlerPerLease | packages/worker/src/internal/worker-runner.ts:267-289 | from any initial system and at every moment: no token is given to two runners, no two in-flight entries anywhere share one, and of two in-flight entries for one job at most one holds its lease |
| HandOff.DrainLeavesNothing | packages/worker/src/internal/worker-runner.ts:202-210 | when an un-timed drain returns nothing is in flight |
| SchedulerObjects.FlatScheduler.Enqueue | benchmarks/panqueue/poc-keyed-vs-flat.mjs:28-34 | the flat enqueue |
| SchedulerObjects.FlatScheduler.Claim | benchmarks/panqueue/poc-keyed-vs-flat.mjs:37-60 | the flat claim loop |
| SchedulerObjects.FlatScheduler.Complete | benchmarks/panqueue/poc-keyed-vs-flat.mjs:63-71 | the flat completion |
| SchedulerObjects.KeyedScheduler.Enqueue | benchmarks/panqueue/poc-keyed-vs-flat.mjs:76-88 | the keyed enqueue |
| SchedulerObjects.KeyedScheduler.PopFrom | benchmarks/panqueue/poc-keyed-vs-flat.mjs:116-131 | the pop loop with the count raised once afterwards equals raising it at each pop |
| SchedulerObjects.KeyedScheduler.Rotate | benchmarks/panqueue/poc-keyed-vs-flat.mjs:132-137 | back of the line, or out of it |
| SchedulerObjects.KeyedScheduler.Claim | benchmarks/panqueue/poc-keyed-vs-flat.mjs:91-139 | the keyed claim with both clamps |
| SchedulerObjects.KeyedScheduler.Complete | benchmarks/panqueue/poc-keyed-vs-flat.mjs:142-157 | the keyed completion |
| KeyedProofs.DoKeeps | benchmarks/panqueue/poc-keyed-vs-flat.mjs:76-157 | from a sound state a call leads to a sound state (lists, counts, cap, line, readiness) if and only if it is legal, a condition on the state before; any claim is legal |
| KeyedProofs.RunKeeps | benchmarks/panqueue/poc-keyed-vs-flat.mjs:76-157 | every run of legal calls keeps the state sound |
| KeyedProofs.ReadinessAndCap | benchmarks/panqueue/poc-keyed-vs-flat.mjs:80-86 | after any run of legal calls a key is ready if and only if it has waiting jobs and is below the key limit; its count is its number of active jobs and never exceeds the limit; ready keys have distinct sequence numbers |
| KeyedProofs.CallWithinLimit | benchmarks/panqueue/poc-keyed-vs-flat.mjs:93-98 | no call, legal or not, from any state, takes the active jobs of all keys together above max(before, global limit) |
| KeyedProofs.GlobalCap | benchmarks/panqueue/poc-keyed-vs-flat.mjs:93-98 | nor does any run of calls |
| KeyedProofs.CompletionExactness | benchmarks/panqueue/poc-keyed-vs-flat.mjs:142-157 | completions are not fenced: the whole invariant survives one if and only if it names a leased job under its own key, or an id neither leased nor waiting under a key with no active job that is not held back by a key limit of 0 |
| KeyedProofs.CompletingAWaitingJobHarms | benchmarks/panqueue/poc-keyed-vs-flat.mjs:142-147 | a legal run and then a completion of a waiting job, after which the next claim leaves count and active jobs different |
| KeyedProofs.SilentExactlyWhenKeyIsEmpty | benchmarks/panqueue/poc-keyed-vs-flat.mjs:148-155 | a legal call makes work claimable without publishing if and only if it completes a leased job whose key has nothing waiting while other keys are ready and every global permit is taken |
| KeyedProofs.SilentCompletion | benchmarks/panqueue/poc-keyed-vs-flat.mjs:148-155 | a legal run from the empty scheduler that ends in such a call |
| RoundRobin.FirstIsServed | benchmarks/panqueue/poc-keyed-vs-flat.mjs:99-137 | a claim the global limit lets through moves the first ready key to the end or out, serves no other key, and serves that key if and only if it asks for at least one job |
| RoundRobin.MovesUpOneByOne | benchmarks/panqueue/poc-keyed-vs-flat.mjs:82-86 | over any legal run each such claim, whatever it asks for, moves a waiting key exactly one place forward and nothing else moves it |
| RoundRobin.ServedInTurn | benchmarks/panqueue/poc-keyed-vs-flat.mjs:99-137 | a ready key with r ready keys ahead is passed over by the first r such claims, and the (r+1)-th serves it if and only if that claim asks for at least one job |
| RoundRobin.AskingForNothingSkipsATurn | benchmarks/panqueue/poc-keyed-vs-flat.mjs:118-137 | a legal run from the empty scheduler ending in a claim of count 0 that sends the first key to the back unserved |
| RoundRobin.EmptyMirrors | benchmarks/panqueue/poc-keyed-vs-flat.mjs:28-157 | empty flat and keyed queues mirror each other |
| RoundRobin.KeyedRefinesFlat | benchmarks/panqueue/poc-keyed-vs-flat.mjs:28-157 | with one key and no key limit any sequence of calls, illegal ones included, gives the same replies, leases, tokens and waiting list as the flat queue |
| KeyOrdering.EachKeyFirstInFirstOut | benchmarks/panqueue/poc-keyed-vs-flat.mjs:118-128 | over any legal run each key's jobs are handed out in the order they were enqueued |
| KeyedCalls.EnqueueStores | benchmarks/panqueue/poc-keyed-vs-flat.mjs:76-80 | payload, key and zero runs are stored, a reused hash keeps its other fields, and no other job or lease changes |
| KeyedCalls.ClaimIsExact | benchmarks/panqueue/poc-keyed-vs-flat.mjs:91-131 | a claim hands out exactly min(count, waiting, free under both limits) jobs of the first ready key, oldest first, each leased from now for leaseMs under the token of its next run; a claim stopped by the global limit or finding nobody ready changes nothing |
| KeyedCalls.FlatTells | benchmarks/panqueue/poc-keyed-vs-flat.mjs:28-71 | the flat queue publishes whenever a call makes work claimable: on every enqueue, on no claim, and on a completion exactly when a limit is set and something waits |

## Left out

- The Redis connection: sockets, reconnect back-off, connection classes, error wrapping, and notifications lost while a subscriber is down (the poll step stands in for all of that).
- `parseCommand`, key strings, hash tags and SHA-1: ids are numbers with the order of the member strings, tokens are triples.
- Reply decoding, status parsing, payload JSON: a claimed entry is decodable or not, chosen by the environment; hashes are complete or gone, so the fallbacks for a missing budget field (0 retries, 5 stalls) and a malformed version field do not arise.
- Sorted-set scores are unbounded integers rather than doubles; all times are whole milliseconds well below 2^53.
- The `queueId` and `id` fields of the hash, which no script reads back.
- Timers: the poll interval, the lease renewer's and the recovery sweep's schedule. Polls, extends and sweeps are steps that may happen at any time.
- User processors and event dispatch: a handler ends, or throws; event handlers cannot affect the queue.
- `WorkerPool` as an object: its phases (stop, drain, requeue) are the enabling conditions of the shutdown moves, since other steps run during each await; its result counters are not modelled, and a drain that times out is one that has not returned when the hand-off starts.
- `finalize` and the stopped state of a runner: nothing happens there after the hand-off.
- Acknowledgement and requeue calls that throw may still be executed, then or later: such an execution appears as a script run by somebody else, which can only end the lease.
- Concurrency across the micro-steps of one reply: resolving a waiter and resuming its continuation are one step each, with nothing observable between them.
- Delayed jobs, configuration types, the documentation site, the demo and the benchmark harness around the prototype scripts.
