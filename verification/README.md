# A verified model of the download bot's queues, jobs and caches

The bot takes media links from chats and downloads them. This project models the parts of it in which
many callers and workers share state, and proves what every run of them keeps.

**The retrying job queue with reservations** (`services/queue_manager.py`, `services/worker.py`,
`services/pipeline.py`, `services/dedupe_cache.py`, the processor in `services/remote_backend.py`). A bounded
FIFO with an in-flight table, a task counter, bounded retries, recovery of stale flights, result waiters, and
a cache of reserved and completed keys in front of an index file.

- `QueueSpec`, `DedupeSpec`, `Results` say what one operation does to the whole state; the classes in
  `QueueManager`, `DownloadCaches`, `Workers` and `Pipelines` are the operations themselves, with the loops
  and the aliasing of the program, each proved against its specification.
- `QueueRuns` runs the queue alone under arbitrary callers; `QueueTimes` says what a recovery does in terms of when
  a job was taken, and `QueueRetries` that every attempt is used. `Pool` is the whole worker pool as a step machine;
  `PoolOutcomes`, `PoolWaiters`, `PoolPlaces`, `PoolOwnership`, `PoolReservations` and `PoolProgress` hold the theorems
  over its steps and runs, and `PoolRuns` two runs in which its promises end.
- `IndexFile` models the index file as text: what a scan finds after any appends, complete or torn, of any keys.
  `JsonStrings` holds the escapes of JSON strings.

**The job lifecycle** (`services/jobs/*`, `services/worker_runner.py`, `services/queue/memory_queue.py`,
`enqueue_download_job` in `bot/routers/download.py`). Many submitters and one sequential consumer share the job
repository, the terminal waiter and the message queue.

- `JobSpec` and `JobServices` hold the repository, the waiter and the service. `Handler` is the control flow of
  the message handler as a machine over its effects, and `HandlerVerdict` what becomes of a message, read off the
  answers of the outside world. `WorkerRunners` is the handler's code over the job service and
  over an object for its surroundings, whose operations (validate, look up, make and remove a work directory,
  download, store, notify) each log their own event; it is proved that the log of a message is a complete run of
  that machine, that the records, memory and registrations are what the log makes of them, and that every work
  directory is removed.
- `Lifecycle` puts submitters and consumer together; `LifecycleSafety`, `LifecycleQueued`, `LifecycleWaits` and
  `LifecycleRest` hold the theorems over its runs, and `LifecycleRuns` the runs in which its promises end.

**Small stateful algorithms with an exact history** (`bot/middleware/rate_limit.py`, `bot/pending_choice.py`,
`downloader/_sync_engine.py`, `services/cache/file_cache.py`, `downloader/sanitize.py` and the media mode and
attachment name): `RateLimit`, `PendingChoices`, `ProgressLog`, `FileCache`, `BlobNames`, `CacheKeys`.

## How the program is read

- A step is the code between two real suspension points. The `asyncio.Lock` sections contain no inner await, so
  taking them never suspends; `submit`, or commit followed by acknowledge, is one step.
- Clocks are parameters and do not run backwards where a theorem says so. New job ids and tokens are ones nobody
  used before. SHA-256 is a function without collisions where a theorem says so.
- What the outside answers is arbitrary: a processor may return any result for any job, raise, or be missing; a
  download may succeed, time out, fail in either way or raise; file operations, notices and notifications may fail.
- Jobs of the download pipeline have retries off and the default counters, as `submit_download` builds them; other
  jobs have any counters.
- Times and percentages are real numbers.

## What was found

Where a property does not hold of the code, the model keeps the code, shows an input or a run in which it fails, and
states the condition under which it holds.

- Recovery cannot tell a dead worker from a slow one, although the class documentation speaks of crashes only. What
  happens to each stale flight shows beforehand (`QueueRuns.RecoverFates`). Mutual exclusion per key needs exactly
  that no recovery gives a download back while a worker still holds it: from a state reached by such recoveries, a
  recovery gives no held download back if and only if no run that goes on from it puts two downloads of one key under
  way (`PoolOwnership.ExclusionExactly`). Losing a held flight, or giving back a live job that is no download, breaks
  nothing here. After any recovery that does give one back, four steps break it (`PoolOwnership.CopyBreaks`);
  `PoolRuns.RecoveryMustSpareLiveWorkers` is a complete run, in which the older download also releases the reservation
  of the newer.
- The ledger of all jobs asks for more, and exactly this: that every flight a worker holds stays in the table
  (`PoolPlaces.LedgerExactly`), which it does exactly when none of them is stale but the one that met the full queue
  (`PoolPlaces.SparingExactly`). Otherwise the holder's completion puts its job into two places.
- The task counter asks in addition that the queue is open and takes all n stale flights or all but two of them; no
  other recovery leaves it in step (`QueueSpec.DriftKeptExactly`, `PoolPlaces.ConservationExactly`).
- A recovery of n stale flights that fills the queue after k of them loses n-k-1 jobs and moves the task counter by
  n-k-2 against the jobs; on a closed queue it loses all n (`QueueSpec.RecoverDrift`, `QueueSpec.RecoverLosesAll`).
- A reservation is left without a job exactly when the processor raises, no processor is registered for the job's
  kind, the submit meets a closed queue, a recovery meets the stale flight of a job that nobody holds on a closed
  queue, with an exhausted counter, or behind the flight that no longer fits, or a worker is cancelled whose flight a
  recovery had lost (`PoolReservations.OrphanCauses`; a run is `PoolRuns.OrphanedOnce`). Such a key stays refused
  (`PoolReservations.OrphansAreForever`).
- A record left unterminated at the end of the index file hides the next committed key, and is itself swallowed by
  it (`IndexFile.AppendEffect` is exact, `IndexFile.TornTailHidesKey` is a concrete file).
- A key with one of the line separators U+0085, U+2028 and U+2029 is never found on disk again, however well its record
  was written: `json.dumps` leaves these characters alone and `splitlines` breaks at them. Every other key is
  (`IndexFile.AppendEffect` again, `IndexFile.SeparatorHidesKey`). The default keys are hex digests.
- `is_duplicate` calls itself a read-only check, but it copies a disk hit into memory and switches the disk off on
  an error. The first changes no answer (`DedupeSpec.AnswersAsOneSet`). The second does, unless memory answers or
  already knows every key of the disk (`DedupeSpec.AskingIsReadOnly` is exact, `DedupeSpec.AskingForgets` is a cache
  that forgets one key when it is asked about another).
- A submitter that raises between creating a record and enqueueing its message blocks the key for good
  (`LifecycleRuns.StrandedOnce` is a run, `LifecycleQueued.StrandedBlocksItsKey` says what follows). So does every
  record that is active when the consumer has stopped (`LifecycleQueued.StoppedConsumerBlocks`).
- Callers for one job share one future, so the time-out of one ends the wait of all
  (`LifecycleWaits.TimeOutCancelsAll`, with the run `LifecycleRuns.SharedTimeOut`), and who subscribes before the job
  is published gets the cancelled future too (`LifecycleWaits.LaterSubscribersInherit`). Nothing else cancels a
  pending future (`LifecycleWaits.CancelledExactly`).
- `mark_running` keeps one active job per key exactly when its job is unknown, is active already, or has a key
  without an active job (`LifecycleSafety.MarkRunningKeeps`). A run in which only the handler's guard prevents it from
  breaking that is `LifecycleRuns.GuardIsNeeded`. It takes a queue that delivers a message twice, which neither
  consumer of the repository does: the memory queue hands out each message once, and the Redis consumer reads new
  entries only (`services/queue/redis_queue.py:66-71`) and claims no unacknowledged ones. Without that step every
  message that is taken finds its record queued, and the guard never fires (`LifecycleRest.GuardNeverFires`).
- When the handler's own notification raises, a job already marked succeeded is marked failed
  (`Handler.RaisingOutcome` is exact, `Handler.SucceededThenFailed` is a trace). The consumer ends exactly when the
  task is cancelled or the notification of the last resort raises (`Handler.DiesExactly`).
- A negative bound makes the terminal waiter's trim loop run out of entries and raise, after the record was saved
  (`JobServices.JobService.MarkTerminal`).
- With a negative time to live an entry of the choice store has expired when it is stored
  (`PendingChoices.PendingChoiceStore.Create`); the answers stay right.
- Two different formats can share a cache key exactly when one ends in a line break followed by the other, after a
  character that stripping keeps (`CacheKeys.CollisionsExactly`). Formats on one line cannot.
- A key is its own blob name exactly when it has no separators, no two dots in a row and at most 240 characters
  (`BlobNames.KeptExactly`). Such keys, hex digests among them, never share a blob, but every key shares its blob
  with a key that is not of this kind (`BlobNames.EveryBlobIsShared`).
- A hard-linked blob shares its inode with the source. Overwriting a file changes a blob exactly when the blob is a
  link to that file (`FileCache.WriteShows`), and disturbs anything in the cache exactly when the file has a name
  under the cache root or is being copied (`FileCache.WriteDisturbs`). It can make a blob show bytes that nobody put,
  then or later, exactly when the new bytes were not offered under the name of some blob or staged put that is a link
  to the file, or some copy of the file that is under way is then going to hold bytes that were not
  (`FileCache.WritesExactly`); a file that only the staging file of a crashed put still links to may be overwritten.
  Two runs show it (`FileCache.WrittenSourceShowsThrough`, `FileCache.WriteDuringCopyMixes`). A copied blob survives
  every write (`FileCache.CopiedBlobIsImmutable`).
- The throttle on progress lines does not bound a download by itself. A percentage that falls back costs ten more
  lines, and it falls back whenever one hook serves several files, as for the default format, which asks for video and
  audio separately (`downloader/_sync_engine.py:392`). With d falls in T seconds the bound is 11 + 10d + T/3, or
  12 + 10d + T/2 when the percentage is sometimes unknown (`ProgressLog.FallsBound`, `ProgressLog.FallsBoundUnknown`).
  For every d some run reaches the first bound (`ProgressLog.BoundIsReached`): two files write 22 lines in three
  seconds. One report without a percentage lets 12 lines through in one instant (`ProgressLog.UnknownBoundIsReached`).

## Model

| member | source | states |
|---|---|---|
| QueueManager.JobQueueManager.constructor | services/queue_manager.py:29-41 | a new manager is an empty open queue of the given capacity with no waiters |
| QueueManager.JobQueueManager.PutNowait | services/queue_manager.py:51-53 | a put is refused exactly when a positive capacity is reached, and otherwise appends the job and counts it |
| QueueManager.JobQueueManager.TaskDone | services/queue_manager.py:64 | task_done takes one off the counter and fails at zero |
| QueueManager.JobQueueManager.Enqueue | services/queue_manager.py:47-53 | the whole new state and which of the two errors is raised, closed before full |
| QueueManager.JobQueueManager.Dequeue | services/queue_manager.py:55-59 | the oldest job moves from the queue to the in-flight table under its id and start time |
| QueueManager.JobQueueManager.Acknowledge | services/queue_manager.py:61-64 | the flight is dropped, if any, before the counter is asked |
| QueueManager.JobQueueManager.Nack | services/queue_manager.py:66-85 | the whole new state for each of the four ends, and that the attempt is counted unless the counter fails |
| QueueManager.JobQueueManager.SweepStale | services/queue_manager.py:89-95 | the loop removes exactly the stale flights and lists them in table order |
| QueueManager.JobQueueManager.GiveBack | services/queue_manager.py:101-110 | one job given back, or refiled under a new start time with the counter one too low |
| QueueManager.JobQueueManager.RequeueStale | services/queue_manager.py:97-111 | the loop gives the jobs back in order and stops at a closed queue, an exhausted counter or a full queue |
| QueueManager.JobQueueManager.RecoverStaleTasks | services/queue_manager.py:87-111 | both loops together make the state that the specification of recovery says, and its count or error |
| QueueManager.JobQueueManager.Close | services/queue_manager.py:113-114 | nothing but the flag changes |
| QueueManager.JobQueueManager.EnqueueAndWait | services/queue_manager.py:123-130 | the waiter is registered before the job can be taken, and gone again when the enqueue raises |
| QueueManager.JobQueueManager.EndWait | services/queue_manager.py:129-130 | leaving the wait removes the waiter of the job only |
| QueueManager.JobQueueManager.PublishResult | services/queue_manager.py:132-136 | the registered future gets the result unless it is already done, and leaves the table |
| QueueManager.JobQueueManager.AbandonWaitIfPending | services/queue_manager.py:138-141 | the registered future is cancelled unless it is already done, and leaves the table |
| QueueSpec.RecoverDrift | services/queue_manager.py:87-111 | with room every stale job returns in order and the counter stays in step; after an overflow at k the one it failed on is refiled, n-k-1 are lost and the counter drifts by n-k-2 |
| QueueSpec.RecoverLosesAll | services/queue_manager.py:97-111 | a recovery with nothing stale changes nothing; on a closed queue or an exhausted counter it loses all n jobs and the counter drifts by n |
| QueueSpec.DriftKeptExactly | services/queue_manager.py:87-111 | a recovery of n stale flights leaves the counter as far from the jobs as it was exactly when n is zero, or the queue is open, the counter not exhausted, and there is room for n or n - 2 |
| QueueSpec.SettleDrift | services/queue_manager.py:61-85 | acknowledge and nack of an in-flight job keep the counter in step unless it is zero, which is when nack raises |
| QueueRuns.SweepEffect | services/queue_manager.py:87-111 | for any state, a recovery gives back a prefix of the stale ids, refiles at most the next one, and removes exactly the others from the table |
| QueueRuns.RecoverFates | services/queue_manager.py:87-111 | what a recovery does to each flight is decided by what shows beforehand: its place among the stale ones, the room, the closed flag and the counter |
| QueueRuns.EveryRun | services/queue_manager.py:47-111 | in every run of arbitrary callers the dequeued jobs followed by the pending ones are the accepted puts, capacity holds, and the counter equals pending plus dequeues minus acks, nacks, recoveries and overflows |
| QueueRuns.LateAcknowledge | services/queue_manager.py:61-64 | exactly when an acknowledge underflows, in terms of what happened before |
| QueueRuns.BoundedRetries | services/queue_manager.py:66-111 | in every run a job accepted once is handed out at most max(1, max_attempts - attempts) times plus its recoveries |
| QueueRuns.AcceptedExactly | services/queue_manager.py:47-53 | an open queue takes a job, at the end, unless a positive capacity is used up; otherwise nothing changes |
| QueueRetries.EveryAttemptIsUsed | services/queue_manager.py:66-85 | the bound on hand-outs is reached: for every capacity and every job there is a run in which the job, failing each time, is handed out exactly max(1, max_attempts - attempts) times |
| QueueTimes.RecoverByAge | services/queue_manager.py:87-104 | a job taken at most the stale time before a recovery stays in flight under its own start; one taken earlier is pending again and no longer in flight when the queue is open with room and the counter above zero |
| QueueTimes.RefiledStartsAnew | services/queue_manager.py:105-108 | a stale job that is still in flight after a recovery counts its age from the moment the recovery failed on it |
| QueueTimes.TimelyWorkersKeepTheirJobs | services/queue_manager.py:55-95 | in every run, a job that is taken while pending once, is neither settled nor submitted again, and is not recovered after the stale time has passed, stays in flight under that start, is not pending, and is handed out to nobody else |
| QueueRuns.ClosedDrains | services/queue_manager.py:47-114 | after close nothing is accepted, and every dequeue and every settled flight lowers 2 pending + in flight |
| DownloadCaches.DownloadCache.constructor | services/dedupe_cache.py:39-50 | a new cache knows what the index file holds and nothing else |
| DownloadCaches.DownloadCache.KeyOnDiskIndex | services/dedupe_cache.py:135-154 | the scan answers true exactly for the keys whose record, in the spacing of json.dumps and with any escapes, is a line of the file; an absent file has none |
| DownloadCaches.DownloadCache.LookUpDisk | services/dedupe_cache.py:60-70 | a disk hit is copied into memory, a read error switches the disk off and counts as a miss |
| DownloadCaches.DownloadCache.IsDuplicate | services/dedupe_cache.py:55-71 | the answer and the whole new state, read errors included |
| DownloadCaches.DownloadCache.TryReserve | services/dedupe_cache.py:73-101 | the answer and the whole new state, the holder's own second call included |
| DownloadCaches.DownloadCache.Commit | services/dedupe_cache.py:103-116 | memory is updated whatever the disk does; the file gets the record or any prefix of it; for every key and every file, torn or not, what a scan finds afterwards is given; on a cleanly ended file a one-line key is found again unless part of the record itself is missing |
| DownloadCaches.DownloadCache.Abort | services/dedupe_cache.py:118-121 | the reservation goes and nothing else changes |
| DownloadCaches.DownloadCache.ResetMemory | services/dedupe_cache.py:129-133 | memory is emptied and the index keeps its keys |
| DedupeSpec.AnswersAsOneSet | services/dedupe_cache.py:55-71 | without a read error the answer is membership in completed, reserved and index together, and asking leaves the set of known keys as it is |
| DedupeSpec.AskingIsReadOnly | services/dedupe_cache.py:55-71 | asking leaves the set of known keys as it is exactly when there is no read error, no disk to read, an answer from memory, or no key that only the disk knows |
| DedupeSpec.AskingForgets | services/dedupe_cache.py:61-70 | a cache that, asked about one key with a read error, answers no for another it knew |
| DedupeSpec.ReserveVersusDuplicate | services/dedupe_cache.py:73-101 | a reservation is refused exactly when the key counts as a duplicate and another job holds it, and granting one makes exactly that key known |
| DedupeSpec.CommittedForever | services/dedupe_cache.py:55-121 | after any later operations, failures and foreign appends a committed key is a duplicate and refused, no key is both reserved and completed, and a disk switched off stays off |
| DedupeSpec.HitsAreRemembered | services/dedupe_cache.py:60-70 | a key once found on disk stays a duplicate and refused, whatever is appended, read or fails afterwards |
| DedupeSpec.CommitsAreShared | services/dedupe_cache.py:103-116 | a committed key that reached the disk is a duplicate for a cache that starts later; after a failed append a cache answers from its memory alone for good |
| DedupeSpec.ResetLeavesTheDisk | services/dedupe_cache.py:129-133 | after a reset a key is a duplicate exactly when the disk is on and holds it |
| JsonStrings.RoundTrip | services/dedupe_cache.py:160 | what json.dumps writes inside a string reads back as the string, control characters, quotes and backslashes included |
| JsonStrings.Written | services/dedupe_cache.py:160 | how quotes, backslashes and control characters are written, and that every other character stands for itself |
| JsonStrings.EscapesAreRead | services/dedupe_cache.py:149-153 | every escape of JSON is read, also those json.dumps does not write |
| IndexFile.DecodeEncode | services/dedupe_cache.py:144-160 | the record written for any key reads back as that key |
| IndexFile.RecordText | services/dedupe_cache.py:156-164 | the record of the key ab, to the letter |
| IndexFile.ScanOfRecord | services/dedupe_cache.py:135-154 | a scan of any cleanly ended file followed by that literal line finds what it found before and ab |
| IndexFile.EveryBreakSeparates | services/dedupe_cache.py:144-148 | a record may end in any of the ten line breaks that splitlines knows |
| IndexFile.AppendEffect | services/dedupe_cache.py:108-164 | for every key, every file content and every number of characters that reach the file: the keys found afterwards are those of its complete lines, and the new key exactly when its record is one line, at most its line break is missing, and only blanks follow the last line break |
| IndexFile.AppendsFound | services/dedupe_cache.py:144-164 | after any series of complete appends to a cleanly ended file the scan finds the old keys and the appended ones without line separators, and no other |
| IndexFile.DigestsFound | services/dedupe_cache.py:144-164 | so after any series of complete appends of hex digests, the default keys, the scan finds the old keys and all appended ones |
| IndexFile.SeparatorHidesKey | services/dedupe_cache.py:144-164 | a key with a line separator that no complete append makes visible |
| IndexFile.TornTailHidesKey | services/dedupe_cache.py:144-164 | a file whose torn last line makes a completely appended key invisible |
| Workers.SettleReservation | services/remote_backend.py:285-293 | the processor commits the job's key on success and aborts it otherwise, when there is a cache |
| Workers.Worker.Dispatch | services/worker.py:37-53 | the result names the job that was dequeued; any status but FAILED is the one the processor returned for that very job, and what it returned for this job is kept |
| Workers.Worker.Complete | services/worker.py:53-67 | publish, then acknowledge or nack by status and retry flag; the first result reaches the waiter; which errors end the worker |
| Pipelines.TaskPipeline.SubmitDownload | services/pipeline.py:48-69 | duplicates touch the queue not at all; the reservation is given back exactly on overflow and kept when the queue is closed; an accepted job has its waiter |
| PoolOutcomes.SubmitGoes | services/pipeline.py:48-69 | where a submitted download goes, in terms of the sets of keys, the closed flag and the capacity: nowhere for a duplicate; at the end of the queue with its reservation and a waiter; on a full queue without the reservation; on a closed one with it |
| PoolOutcomes.ForeignKeysAreRefused | services/dedupe_cache.py:55-71 | a key another process has committed is refused to every job, and after one look at it even when the disk can no longer be read |
| PoolOutcomes.FinishReports | services/worker.py:37-59 | a finished attempt publishes one result, for its own job: FAILED when the processor raised, was missing or answered for another job, and else the status it returned for this one |
| PoolOutcomes.FinishedAttempt | services/worker.py:53-67 | a job that is to be tried again (unsettled status, retrying, an attempt left, open queue) goes to the end of the pending queue with one attempt more, or is dropped if there is no room; it is finished exactly when its status settles it, it does not retry, no attempt is left, or the queue is closed |
| PoolOutcomes.ExhaustedCounter | services/queue_manager.py:61-77 | with an exhausted counter every finished attempt ends its worker, takes the job out of the table and counts and puts nothing; a job that a nack was meant to return is dropped, any other finished |
| PoolOutcomes.TimelyHandsAreSpared | services/queue_manager.py:87-95 | a recovery leaves alone the flight of every worker that got its job at most the stale time ago |
| PoolWaiters.EveryWaiterGetsTheFirstResult | services/queue_manager.py:116-141 | in every run: once a result was published for a job its waiter has exactly the first one, naming that job, unless the wait had been given up |
| PoolWaiters.SetAtMostOnce | services/queue_manager.py:132-141 | a done future never changes; a waiting one is cancelled exactly by a timeout or an abandon of that job, and set exactly when a worker holding that job finishes |
| PoolWaiters.TableExactly | services/queue_manager.py:116-141 | in every run the waiter table names exactly the jobs whose caller joined the queue and whose attempt has not been finished, whose wait not abandoned and whose caller not resumed since |
| PoolOutcomes.WaitersHoldTheFirstReport | services/worker.py:37-59 | in every run, what a waiter holds is what the first processor call that ended for its job reported; it holds COMPLETED only if that call returned COMPLETED for this very job |
| PoolPlaces.Conservation | services/queue_manager.py:47-148 | when recoveries keep the flights workers hold in the table and fit the count (nothing stale, or an open queue with room for all n stale flights or for n - 2), the counter equals pending plus in flight in every reachable state, no worker's task_done underflows, and joining returns exactly when nothing is left |
| PoolPlaces.ConservationExactly | services/queue_manager.py:87-148 | from every such state another recovery does both if and only if every run that goes on from it, again by such recoveries, has all three |
| PoolPlaces.LedgerOfJobs | services/queue_manager.py:47-111 | in every run whose recoveries keep the flights workers hold in the table, even when they fail: every accepted job is in exactly one of pending, in flight, finished and dropped, is accepted once, and no other job is in any of them |
| PoolPlaces.LedgerExactly | services/queue_manager.py:87-111 | from every state so reached another recovery keeps held flights in the table if and only if in every run that goes on from it, again by such recoveries, every accepted job is in exactly one place and no other in any |
| PoolPlaces.DroppedOnlyByOverflow | services/worker.py:60-67 | in every run whose recoveries keep held flights in the table and find room, a step drops a job exactly when it finishes an attempt of that job, the job retries, its status is not settled, an attempt is left, and the queue is open and full |
| Pool.RecoverMoves | services/queue_manager.py:87-111 | after a recovery the jobs pending, in flight and dropped are exactly those that the fates told before it say |
| PoolPlaces.HeldStayExactly | services/queue_manager.py:87-111 | a recovery keeps every held flight in the table if and only if each is untouched or the one that is refiled |
| PoolPlaces.SparingExactly | services/queue_manager.py:87-111 | from every state reached by such recoveries: after another one every held job is in flight if and only if each stale held flight is the one at the place where the room ends, on an open queue whose counter is not exhausted |
| PoolOwnership.MutualExclusion | services/pipeline.py:48-69 | in every state reached by recoveries that give no held download back, at most one download per key is queued, in flight or held by a worker, at most once in each and never both queued and elsewhere; the reservation map names it; no key is both reserved and completed; when recoveries also keep held flights in the table, it is queued or in flight exactly once |
| PoolOwnership.ExclusionExactly | services/queue_manager.py:87-111 | from every such state a recovery gives no held download back if and only if every run that goes on from it, again by such recoveries, has at most one current download per key (while every key has ids nobody used) |
| PoolOwnership.CopyBreaks | services/queue_manager.py:97-111 | from any such state, a recovery that gives a held download back is followed by four steps that put a second download of its key under way beside it |
| PoolOwnership.ReleasesOnlyItsOwn | services/remote_backend.py:285-293 | commit and abort take no job id, yet in every state reached by recoveries that give no held download back they release the caller's own reservation only, and the key is completed exactly on success |
| PoolReservations.CommittedNeverQueued | services/dedupe_cache.py:82-121 | in every run whose recoveries give no held download back: once a key is committed it stays so and none of its jobs is put into the queue again |
| PoolReservations.OrphanCauses | services/worker.py:37-67 | from a state reached by recoveries that give no held download back, a step of that kind leaves a key reserved without a job exactly in the listed cases, each of which shows before the step |
| PoolRuns.OrphanedOnce | services/pipeline.py:48-69 | a run: a submit on a closed queue leaves its key reserved |
| PoolReservations.OrphansAreForever | services/dedupe_cache.py:85-88 | in every run whose recoveries give no held download back, such a key is still reserved later on and every other job is refused |
| PoolRuns.RecoveryMustSpareLiveWorkers | services/queue_manager.py:87-111 | a concrete run: giving a live download back leads to two downloads of one key, and the older one then releases the newer one's reservation |
| PoolProgress.StepProgress | services/worker.py:53-67 | every take and every finished attempt lowers the work left in queue and hands, and no other step without new jobs or recoveries raises it |
| PoolProgress.WorkersComeToRest | services/queue_manager.py:66-85 | however the rest interleaves, without new jobs and recoveries the workers take at most as many steps as the measure says |
| JobServices.Repository.Save | services/jobs/repository.py:16-18 | the record is stored under its own id, in the place its id already had |
| JobServices.Repository.Get | services/jobs/repository.py:20-23 | a record is found exactly when one was saved under the id; it is the record of that job, and saving it back changes nothing |
| JobServices.Repository.FindActiveByDedupe | services/jobs/repository.py:25-32 | the loop finds the first queued or running record of the key in insertion order, or there is none |
| JobServices.TerminalWaiter.TrimTerminal | services/jobs/terminal_waiter.py:17-20 | the loop ends and drops oldest entries down to the bound; it raises for a negative bound |
| JobServices.TerminalWaiter.Subscribe | services/jobs/terminal_waiter.py:22-47 | a terminal snapshot or a remembered record is answered at once, otherwise callers for one job share one future; registered and remembered jobs stay disjoint |
| JobServices.TerminalWaiter.RememberRecord | services/jobs/terminal_waiter.py:52-55 | the memory stays the window of the last insertions |
| JobServices.TerminalWaiter.PublishTerminal | services/jobs/terminal_waiter.py:49-58 | non-terminal records are ignored; otherwise the record is remembered, the registered future settled once and unregistered; a negative bound raises before that |
| JobServices.JobService.SubmitDownload | services/jobs/service.py:22-35 | the record answered and whether it is new, as the specification of submit says |
| JobServices.JobService.MarkRunning | services/jobs/service.py:40-46 | only the status of that record changes, whatever it was; an unknown job is left alone |
| JobServices.JobService.MarkTerminal | services/jobs/service.py:48-79 | the record is saved and then published, if there is a waiter: remembered, and its future settled with it; an unknown job changes nothing; it raises exactly when a waiter with a negative bound is published to, and the record is saved even then |
| JobSpec.FindActive | services/jobs/repository.py:25-32 | a found record is active for the key and stored; none found means no stored record is |
| JobSpec.FindsTheFirst | services/jobs/repository.py:25-32 | what is found is the first queued or running record of the key in insertion order |
| JobSpec.NoKeyNoSharing | services/jobs/service.py:22-35 | requests without a key share nothing: each gets a new record |
| JobSpec.TrimKeepsLast | services/jobs/terminal_waiter.py:17-20 | trimming keeps exactly the newest entries, in order and with their values, and succeeds exactly for a bound of at least zero |
| JobSpec.RememberSlides | services/jobs/terminal_waiter.py:49-56 | publishing slides the window of insertions by at most one; republishing a remembered job changes its value and moves nothing |
| JobSpec.RememberedWindow | services/jobs/terminal_waiter.py:17-58 | after any publishes a job is remembered exactly when fewer than the bound of new insertions followed one of its own |
| Handler.CleansUp | services/worker_runner.py:118-239 | from every point of the handler and however it ends, each work directory made is removed and the downloader is asked at most twice |
| Handler.HandlerOutcome | services/worker_runner.py:43-255 | for a known unfinished job, a working notifier and no cancellation: one terminal write, one publish, one notification, on queued to failed or through running to succeeded or failed, and a normal end |
| HandlerVerdict.VerdictExactly | services/worker_runner.py:52-239 | under the same conditions the last write is succeeded if and only if the cache had the file, or the last download answered an item and storing it worked; otherwise failed, with TIMEOUT exactly for a last answer that timed out, DOWNLOADER_ERROR exactly after a second transient error, UNSUPPORTED exactly for an invalid request or a fatal error, and INTERNAL in all other cases |
| HandlerVerdict.WorkExactly | services/worker_runner.py:86-195 | the job is marked running exactly when the cache was asked and answered, and the downloader is asked a second time exactly after a transient error |
| Handler.RedeliveryIsSilent | services/worker_runner.py:45-50 | a message for an unknown or finished job has no effect at all |
| Handler.RaisingOutcome | services/worker_runner.py:241-255 | with a notifier that may raise, the writes are failed, or running then succeeded or failed, and after them failed with code INTERNAL exactly when the handler's own notification raised |
| Handler.RaisingNotifier | services/worker_runner.py:241-255 | the same from every point the handler can be at |
| Handler.SucceededThenFailed | services/worker_runner.py:97-109 | a trace in which a job is marked running, succeeded and then failed with code INTERNAL |
| Handler.DiesExactly | services/worker_runner.py:241-255 | an exception or cancellation leaves `wrapped` exactly when the task is cancelled at an await or the last resort's notification raises |
| Handler.TraceDecides | services/jobs/service.py:40-79 | the record ends with the last status the handler wrote, no other record changes, and one publish unregisters the waiter |
| Handler.MessageSettlesItsJob | services/worker_runner.py:43-255 | a message's unfinished job ends in a terminal status with nobody left registered for it, and no other record changes; for finished or unknown jobs nothing changes |
| HandlerVerdict.MessageVerdict | services/worker_runner.py:43-255 | the record of a message whose job was queued or running ends with the status and, if failed, the code of that verdict, and is otherwise as it was |
| WorkerRunners.Surroundings.MakeDir | downloader/yt_dlp_downloader.py:142-144 | making a work directory is logged, and there is one more exactly if it worked |
| WorkerRunners.Surroundings.RemoveDir | services/worker_runner.py:239 | removing one is logged and there is one less; the log and the directories always agree |
| WorkerRunners.WorkerRunner.MarkTerminal | services/jobs/service.py:48-79 | a mark_* is a write followed by a publish in the terms of the handler's trace |
| WorkerRunners.WorkerRunner.Conclude | services/worker_runner.py:181-189 | mark, then notify: the log grows by the write, the publish and the notice, in this order, and its three ends go on where the control flow says |
| WorkerRunners.WorkerRunner.Fetch | services/worker_runner.py:157-195 | the loop asks again after the first transient error only, and maps each answer to the failure code the code writes |
| WorkerRunners.WorkerRunner.FetchAndStore | services/worker_runner.py:148-225 | fetching, storing and concluding log a run of the control flow from the first download to the way out, and leave what it says |
| WorkerRunners.WorkerRunner.StoreAndConclude | services/worker_runner.py:197-225 | the fetched file is stored before the job is marked succeeded, and not marked if storing raises |
| WorkerRunners.WorkerRunner.ServeHit | services/worker_runner.py:86-109 | a cache hit logs running, succeeded and the notice, and neither makes nor removes a work directory |
| WorkerRunners.WorkerRunner.InWorkDir | services/worker_runner.py:118-239 | the directory is made, used and removed again on every way out: as many exist afterwards as before |
| WorkerRunners.WorkerRunner.ServeMiss | services/worker_runner.py:111-239 | a miss marks running before anything else and leaves no work directory behind |
| WorkerRunners.WorkerRunner.Handle | services/worker_runner.py:52-239 | validation, lookup and the rest log a run of the control flow, leave what it says, and leave no work directory behind |
| WorkerRunners.WorkerRunner.LastResort | services/worker_runner.py:246-255 | after an exception the job is marked failed with code INTERNAL and its update sent; a notice that raises here ends the consumer |
| WorkerRunners.WorkerRunner.Wrapped | services/worker_runner.py:241-255 | a whole message: its log starts with the record as found and is a complete run of the control flow; the records, memory and registrations are what it makes of them, and no work directory is left behind |
| LifecycleSafety.OneActiveJob | services/jobs/service.py:22-46 | in every reachable state at most one record per dedupe key is queued or running |
| LifecycleSafety.SubmitFiles | services/jobs/service.py:22-35 | a submit answers with the active record of its key, new exactly when there was none, and keeps every other record |
| LifecycleSafety.MarkRunningKeeps | services/jobs/service.py:40-46 | exactly when marking a job running keeps one active job per key |
| LifecycleRuns.GuardIsNeeded | services/worker_runner.py:49-50 | a run behind a queue that delivers a finished job's message again, beside an active job of its key, so that only the terminal guard keeps mark_running from making two active jobs |
| LifecycleRest.GuardNeverFires | services/worker_runner.py:45-50 | when no message is delivered twice, a message that is taken is the only one of its job and finds its record queued, so the handler goes on past the guard |
| LifecycleQueued.FirstComeFirstHandled | services/queue/memory_queue.py:28-34 | messages keep their order: the oldest one is taken and handled, and new ones go to the end |
| LifecycleSafety.RedeliveryChangesNothing | services/worker_runner.py:45-50 | in every reachable state, handling the message of a finished job leaves the whole state as it was but for the message |
| LifecycleQueued.NoQueuedRecordForgotten | bot/routers/download.py:89-101 | every queued record has its message queued, is being handled, has its submitter on the way, lost its handler, or was stranded by a submitter that raised, and a stranded one is none of the others |
| LifecycleQueued.StrandedBlocksItsKey | bot/routers/download.py:89-101 | in every later state a stranded record is still queued and a submit for its key answers with it and enqueues nothing |
| LifecycleQueued.StoppedConsumerBlocks | services/worker_runner.py:241-261 | once the consumer has stopped, in every later state each record then active is unchanged, a submit for its key answers with it and enqueues nothing, and no wait then pending is answered |
| LifecycleRuns.StrandedOnce | bot/routers/download.py:90-92 | a run: the notice to the submitter raises and its record is left queued with no message |
| LifecycleRest.NoRunningRecordForgotten | services/worker_runner.py:97-116 | every running record is being handled or had its handler cut off |
| LifecycleRest.AllOverAtRest | bot/routers/download.py:89-109 | with no message queued, no handler at work and every submitter waiting or gone, every record that was neither cut off nor stranded is terminal, and a wait is still pending only for a job that was cut off, stranded, or subscribed to too late |
| LifecycleRest.NothingIsLeftOver | bot/routers/download.py:89-109 | so if none was cut off or stranded every record is terminal, and if nobody came too late no wait is pending |
| LifecycleWaits.PublishReachesAll | services/jobs/terminal_waiter.py:49-58 | publishing a job settles every waiting future of that job with its record, and no other future |
| LifecycleWaits.NoLostWakeUp | bot/routers/download.py:90-107 | a pending future is the registered one and the next publish of its job settles it; until then the job is unfinished, saved and about to be published, or was finished and forgotten before the subscription |
| LifecycleWaits.NoLostWakeUpAtOnce | bot/routers/download.py:90-107 | the same without the last case, for runs in which every submit is followed at once by its subscription, as in the bot |
| LifecycleWaits.CancelledExactly | bot/routers/download.py:103-109 | a pending future is cancelled by a step if and only if the step is a time-out of someone who waits on that very future |
| LifecycleWaits.TimeOutCancelsAll | bot/routers/download.py:103-109 | in every reachable state a time-out on a pending future cancels the wait of every other caller for the job whose wait is pending |
| LifecycleWaits.LaterSubscribersInherit | services/jobs/terminal_waiter.py:43-47 | in every reachable state, who subscribes to a job whose registered future is cancelled gets that cancelled future |
| LifecycleRuns.SharedTimeOut | bot/routers/download.py:90-109 | a run in which one caller's time-out ends another's wait while the job is still queued |
| LifecycleWaits.LateMeansForgotten | services/jobs/terminal_waiter.py:37-47 | a subscriber comes too late only for a job that was published and pushed out of the bounded memory by that many later insertions |
| LifecycleWaits.PromptSubscribersAreWoken | bot/routers/download.py:90-107 | if nobody came too late, nobody waits for a job that is finished and published |
| RateLimit.WindowBound | bot/middleware/rate_limit.py:34-54 | any closed interval as long as the window contains at most the maximum of admitted events of one user |
| RateLimit.RefusedOnlyWhenFull | bot/middleware/rate_limit.py:34-54 | an event is refused only when the closed window that ends with it holds the maximum of admitted events |
| RateLimit.WindowIsClosed | bot/middleware/rate_limit.py:34-54 | with a maximum of one, the second of two events passes if and only if it comes more than one window after the first |
| RateLimit.DropOldIsRecent | bot/middleware/rate_limit.py:36-37 | on times in order, dropping from the front leaves exactly the times inside the window |
| RateLimit.UsersAreIndependent | bot/middleware/rate_limit.py:35 | a user's admitted events are those of a run with that user's calls alone |
| RateLimit.Middleware.constructor | bot/middleware/rate_limit.py:19-22 | the effective maximum is at least one |
| RateLimit.Middleware.PopExpired | bot/middleware/rate_limit.py:36-37 | the loop drops exactly the leading times that lie before the window |
| RateLimit.Middleware.Call | bot/middleware/rate_limit.py:34-54 | an event passes exactly when fewer than the maximum of earlier admitted ones of the full log lie in the window; the deque holds exactly those and no other user's changes |
| PendingChoices.PendingChoiceStore.constructor | bot/pending_choice.py:19-22 | a new store agrees with the empty history |
| PendingChoices.PendingChoiceStore.Purge | bot/pending_choice.py:24-27 | exactly the entries that expired before now go |
| PendingChoices.PendingChoiceStore.Create | bot/pending_choice.py:29-37 | the creation enters the history, the store still agrees with the unpurged history, and the new entry is there, expired already exactly for a negative time to live |
| PendingChoices.PendingChoiceStore.Pop | bot/pending_choice.py:39-49 | the answer is the one of the unpurged history: the payload exactly for its user, within the time to live, if nobody popped the token since, said of the events themselves too; the second expiry check never fires |
| PendingChoices.StandingIs | bot/pending_choice.py:29-49 | a token stands for its latest creation with no later event on it |
| PendingChoices.AnswerIs | bot/pending_choice.py:39-49 | read off the events alone: a pop gives a choice if and only if that choice was created under the token, no later event is on the token, its time to live has not passed, and its user is the one who asks |
| PendingChoices.StrangersEndIt | bot/pending_choice.py:43-48 | a pop by another user gives nothing, and later pops give nothing to the owner either until the token is created again |
| PendingChoices.PoppedIsGone | bot/pending_choice.py:43 | after a pop by anyone every later pop gives nothing until the token is created again |
| ProgressLog.FallsBound | downloader/_sync_engine.py:205-247 | with known percentages between 0 and P and a clock that does not go back, at most 1 + P/10 + d P/10 + T/3 throttled lines in T seconds with d falls of the percentage; 11 + 10d + T/3 for P = 100 |
| ProgressLog.FallsBoundUnknown | downloader/_sync_engine.py:233-245 | when some percentages are unknown and the clock starts at zero or later, one line more and T/2 |
| ProgressLog.LineBound | downloader/_sync_engine.py:205-247 | with known percentages from 0 to 100 that do not fall, at most 11 + T/3 |
| ProgressLog.LineBoundUnknown | downloader/_sync_engine.py:233-245 | with percentages that do not fall, some of them unknown, at most 12 + T/2 |
| ProgressLog.BoundIsReached | downloader/_sync_engine.py:238-245 | for every number of falls a run that writes exactly as many lines as the bound allows |
| ProgressLog.UnknownBoundIsReached | downloader/_sync_engine.py:235-245 | a run with one unknown percentage that writes 12 lines in one instant |
| ProgressLog.SpacedReportsAreWritten | downloader/_sync_engine.py:233-245 | reports that each come two seconds (without a percentage), or three seconds or ten percent (with one), after the one before are all written |
| ProgressLog.TicksAreWritten | downloader/_sync_engine.py:235-236 | a run of unknown percentages that writes one line every two seconds |
| ProgressLog.FirstReports | downloader/_sync_engine.py:205-245 | the first known percentage is always written, an unknown one only from second two on, another status always |
| ProgressLog.PercentageOf | downloader/_sync_engine.py:132-137 | the percentage is that of the total, or of the estimate when there is no total or it is zero; half the bytes are fifty percent; without counts it is unknown |
| ProgressLog.FilesAreQuiet | downloader/_sync_engine.py:132-137 | n files fetched one after the other through one hook, each growing to its known total, keep to 11 + 10 (n - 1) + T/3 and one line for each that finishes, whatever monotone rounding is used |
| ProgressLog.DownloadIsQuiet | downloader/_sync_engine.py:132-137 | one such file keeps to 11 + T/3, and one line when it finishes |
| ProgressLog.ProgressHook.Call | downloader/_sync_engine.py:219-245 | when one hook call writes an INFO line and what it leaves behind; full logging leaves the throttle alone |
| CacheKeys.CollisionsExactly | downloader/sanitize.py:35-43 | exactly which pairs of different formats can share a hashed text for some pair of URLs |
| CacheKeys.KeysSeparate | downloader/sanitize.py:35-43 | unless one format shadows the other, keys are equal exactly when the stripped URLs and the formats are, no format counting as default |
| CacheKeys.HashedText | downloader/sanitize.py:35-43 | what is hashed, and that no format has the key of the format default |
| CacheKeys.OneLineFormats | downloader/sanitize.py:42-43 | formats without line breaks shadow nothing |
| CacheKeys.EqualKeysKeepTheMode | downloader/yt_dlp_downloader.py:68-72 | requests with equal keys ask for the same audio or video mode |
| CacheKeys.AudioPresets | downloader/yt_dlp_downloader.py:68-72 | the audio presets are these three, in any case, and nothing else |
| CacheKeys.BlanksDoNotMatter | downloader/yt_dlp_downloader.py:68-72 | blanks around a format make no difference |
| CacheKeys.SameNameOnHitAndFetch | bot/notifier.py:19-33 | one request's attachment has the same name from the cache, without a mime type, as from the download |
| CacheKeys.MimeAgrees | downloader/yt_dlp_downloader.py:129-138 | the mime type the downloader reports leads to the extension its mode alone would give |
| CacheKeys.NameShowsTheMode | bot/notifier.py:19-33 | an attachment name ends in .mp3 exactly for audio requests and in .mp4 for all others, from the cache and from the download |
| CacheKeys.StemIsKept | bot/notifier.py:29-33 | of a stem the first 176 characters are kept, with an underscore for each separator; an empty one becomes media |
| CacheKeys.NameIsSafe | bot/notifier.py:29-33 | an attachment name has no separators and at most 180 characters |
| BlobNames.NameIsOneComponent | services/cache/file_cache.py:24-26 | every key maps to one bounded path component under the cache root |
| BlobNames.KeptExactly | services/cache/file_cache.py:24-26 | exactly which keys are kept as they are in the blob name |
| BlobNames.WhatGoes | services/cache/file_cache.py:24-26 | a pair of dots and a separator of either kind go from a key, a third dot and all else stay |
| BlobNames.LongKeyIsCut | services/cache/file_cache.py:24-26 | a longer key without separators and double dots is cut to 240 characters |
| BlobNames.PlainNamesAreInjective | services/cache/file_cache.py:24-26 | two such keys share a blob if and only if they are equal |
| BlobNames.EveryBlobIsShared | services/cache/file_cache.py:24-26 | every key shares its blob with a key that is not of this kind |
| BlobNames.HexNamesAreInjective | services/cache/file_cache.py:24-26 | in particular hex digests keep their blobs apart |
| BlobNames.OtherNamesCollide | services/cache/file_cache.py:24-26 | two other keys that share a blob |
| FileCache.NoPartialBlob | services/cache/file_cache.py:42-74 | while files are overwritten only with bytes that fit what was offered, or only files the cache does not use: between any two steps of any number of puts, failing or crashing anywhere, a blob is absent or holds the complete bytes of a source put under its name |
| FileCache.WhatStays | services/cache/file_cache.py:42-74 | a failing put removes its staging file and no other name, a crash leaves all names, a deletion takes that one blob, a put for a present blob changes nothing, and a move makes the blob what was staged and touches no other name |
| FileCache.WritesExactly | services/cache/file_cache.py:60-74 | from every state reached by writes that fit, another write fits if and only if in every run that goes on from it, again by such writes, every blob holds bytes put under its name |
| FileCache.FirstPutWins | services/cache/file_cache.py:48-74 | with puts one at a time a blob never changes until its key is deleted, whatever is put later, whichever work files are removed, and whatever file is overwritten, unless the blob is a link to that file |
| FileCache.CopiedBlobIsImmutable | services/cache/file_cache.py:60-64 | a blob that came by the copy branch survives every write, to its source too |
| FileCache.WriteShows | services/cache/file_cache.py:60-64 | overwriting a file with other bytes changes a blob if and only if the blob is a link to that file |
| FileCache.WriteDisturbs | services/cache/file_cache.py:60-64 | it changes what any blob, staging file or copied source holds if and only if the cache uses that file |
| FileCache.WrittenSourceShowsThrough | services/cache/file_cache.py:60-64 | a run in which overwriting the source of a hard-linked blob leaves bytes nobody put |
| FileCache.WriteDuringCopyMixes | services/cache/file_cache.py:63 | a run in which overwriting a source while it is copied leaves a mixture |
| FileCache.FileCacheStore.Get | services/cache/file_cache.py:28-40 | the size of the blob, or a miss |
| FileCache.FileCacheStore.CopyFile | services/cache/file_cache.py:63 | the copy loop makes a new file with the source's bytes, touches no other, and may stop early only by failing |
| FileCache.FileCacheStore.PutFromPath | services/cache/file_cache.py:42-74 | for every failure: a present blob is answered as it is, a failed put leaves all names as they were, a successful one adds the blob with the source's bytes and leaves no staging file |

## Left out

- QueueManager.JobQueueManager.Dequeue: describes the code after the wait for a job; the order in which several waiting workers are woken is not modelled.
- QueueManager.JobQueueManager.EnqueueAndWait: ends where the wait begins; the wait itself, its timeout and its clean-up are steps of the pool machine.
- WorkerRunners.WorkerRunner.Wrapped: assumes that the job service has a terminal waiter with a bound that is not negative, as the bot builds it, and says which registrations are left but not the value of the settled future; MarkTerminal of the job service covers both.
- WorkerRunners.Surroundings.RemoveDir: removes the directory whole, where the code ignores errors of the removal and may leave files behind.
- WorkerRunners.Surroundings.MakeDir: what the operations of the surroundings answer is decided by the plan; what they do inside is left out.
- DownloadCaches.DownloadCache.KeyOnDiskIndex: finds the records that the cache itself writes; a line with the same JSON in other spacing, with further members, or with surrogate escapes is found by the code and not by this scan.
- Pipelines.TaskPipeline.SubmitDownload: ends where the wait for the result begins; a wait that times out is a step of the pool machine.
- FileCache.FileCacheStore.Get: answers the size; the path and the times of the entry are left out.
- DedupeSpec.CommittedForever: its machine, like the pool's, lets a successful commit add the key to the index; that a scan may miss it, on a torn file or for a key with line separators, is covered by the foreign write that may follow any step.
- IndexFile.AppendEffect: counts those records only, and cuts a record between characters; a cut inside the bytes of one character would make the whole file unreadable as UTF-8.
- ProgressLog.FallsBound: times are real numbers, so floating-point rounding of clock differences is not captured.
- CacheKeys.SameNameOnHitAndFetch: lower-casing is modelled on the letters A to Z, so other characters that Unicode lower-cases into a preset name are not covered.
- FileCache.NoPartialBlob: staging names and blob names are kept apart by construction, as they are for hex digests.
- `reset_memory` is a test helper and is not a step of the machines.
- Index lines other than the records the cache writes: a line of JSON that is not an object would make the scan raise.
- `default_dedupe_key` and its hashing: a dedupe key is an arbitrary string.
- `execute_remote_download` with its polling and HTTP, and the yt-dlp engine: arbitrary outcomes.
- URL validation: an arbitrary outcome, since it is one call of a URL parser.
- The early returns of `enqueue_download_job` for a deep queue or an invalid URL: they touch none of the shared state.
- Timestamps, outputs and safe messages of job records, `list_active_for_chat`, and the cache entry's times and `touch_ttl`.
- The Redis queue, metrics, logging formats, settings, `stop_event` wiring, and the Telegram side of notifier, routers and middleware registration.
