# Verified model of pget's transfer engine

pget cuts an object into chunks, hands them to concurrent workers with retries and an adaptive number of
connections, and puts them together again, either as an ordered stream or in a file that can be resumed. This project
models that engine in Dafny and proves what it promises: a reported success means that the output is the object.

The model has three layers.

- **Atomic steps.** Every critical section of the scheduler, the stream sink and the sidecar is a function on a value
  (`Scheduling`, `Streaming`, `Sidecar`, `Bitmap`, `Median`, `Backoff`, `Stats`, `Chunks`). Beside it stands the object
  the program has (`SchedulerObject.Scheduler`, `Streaming.StreamSink`, `Sidecar.Manager`, `Positional.FileSink`,
  `Stats.WorkerStats`, `Chunks.Planner`), whose methods update their fields in place and are proved to do exactly what
  the function says.
- **Machines.** `WorkerPool` runs the scheduler with its workers and the collecting driver: each worker has a program
  counter over the calls of `workerLoop`, each event is one call, and what the network and the sinks answer is
  arbitrary. `StreamTransfer` adds the stream sink, its writer and the driver, split at every unlock; the
  eligibility check for duplicates is two steps, because it looks at the sink twice while it holds the scheduler.
  `FileTransfer` adds the file, the sidecar and its temporary file over any number of process runs, each stopped at any
  step.
- **Theorems** about every run of these machines: `PoolTheorems`, `PoolBudget`, `Adaptation`, `StreamTransfer`,
  `StreamMemory`, `StreamFinish`, `FileSafety`, `FileTheorems`, `FileProgress`, `UrlList`, and `ContentRange` for the check that a
  response carries the chunk it was asked for. What the scheduler does is told from the calls made so far, without its
  own terms, in `CallHistory` and `Assignment`; what a cancellation or an error does, in `Cancellation`; how a worker's
  reports balance, in `WorkerLedger`; what the sink promises to any caller, in `SinkCalls`. Where a promise holds for
  some settings only, which ones: `ResumeGaps` and `FileResume`, `DuplicateLimit` and `DuplicateTarget`, `MemoryLimit`,
  `MemoryCapacity`, `Leftover`, `Restoration`. What is out of reach and what stays within it: `LeakedBudget`,
  `Recovery`, `FileRecovery`. Particular runs are built call by call, from the beginning, in `StreamRuns`, `Frontier`,
  `DuplicateRace`, `DuplicateAgain`, `MemoryRuns` and `EarlyRestoration`.

`dafny verify dfyconfig.toml` checks the whole project.

## Assumptions

- At least one connection, at least one try, a split size of at least one (internal/cli/parser.go:323-427), and no
  int64 overflow in object size + split size - 1. Integers are unbounded except where the code relies on their width
  (`retryBackoff`, the planner's bounds, `Content-Range`).
- A transfer of a range either fails or returns exactly those bytes of the object; the object does not change between
  runs, and a resumed sidecar that names the same length was written with the same split size. The program compares the
  length only.
- Time is one abstract clock in nanoseconds, the same for all goroutines, whose zero stands for Go's zero time. A run
  of NextAssignment's loop up to its wait is one step; being blocked is a disabled step. Nothing is said about wakeups.
- A stop loses the process and keeps what was written. Loss of power is not covered: chunks are not synced one by one.

## Where the code and its documents disagree, or a promise fails

The model follows the code. Members say when each of these promises holds: exactly, over all settings or inputs, for
items 1, 2, 4, 5, 6, 7, 9 and 10; for items 3 and 8 as stated there.

1. Resuming from a bitmap with gaps: chunks that are already complete are dispatched again and counted twice, so a
   download can report success with chunks missing. `ResumeGaps.ResumeExactly` gives the exact condition for the
   scheduler, `FileResume.FileResumeExactly` for the bytes of the file; it can be read off the bitmap before the
   download. `PoolTheorems.CompletionCounter` gives the exact drift. A stopped run on an empty disk can leave such a
   bitmap (`FileRecovery.HarmfulGapsOccur`), and the next one a wrong file (`FileRecovery.WrongFile`).
2. "At most one speculative duplicate exists" (ARCHITECTURE.md:1014): the check and the start are two critical sections.
   `DuplicateLimit.DuplicateLimitExactly` says for which settings it holds; for all others `DuplicateRace.TwoDuplicates`
   builds a run with two. A duplicate also makes no reservation of its own.
3. The memory limit is said to include the chunk being written and a duplicate's buffer (ARCHITECTURE.md:553-560). The
   writer releases a chunk's reservation before it writes it, and a duplicate reserves nothing.
   `MemoryLimit.MemoryLimitExactly` is about all runs. It is exact for settings that never start a duplicate. For the
   others it gives a sufficient amount of spare room, connections + 1 chunks, and a necessary one, connections - 1
   chunks, on top of the object. Failed attempts never return their reservation: `StreamMemory.ReservationLaw` accounts
   for them, and `LeakedBudget.NeverRecovers` says when that has cost the download.
4. The retry delay is 1s, 2s, 4s, 8s, 16s, capped at 30s only for most attempt counts: from the 35th on the product
   wraps around. `Backoff.BackoffAsDocumented` lists exactly the counts that come out right, and
   `Assignment.RetriedExactly` says when a failed chunk is due again in a run.
5. "At least four chunks completed since the last reduction" before a slot is restored (ARCHITECTURE.md:672): `cleanup`
   counts all completed chunks. `Restoration.RestorationPromiseExactly` says when that comes to the same, and
   `EarlyRestoration.RestoredTooEarly` is a download in which it does not. The delay is doubled at every restoration, not
   only after a failed one; `Adaptation.RestorationPacing` states the resulting pace.
6. The base offset is carried over from one URL to the next even when each has a file of its own, so later files begin
   with zero bytes. `UrlList.FileOfItsOwn` says exactly when they do not.
7. The sidecar's `Complete` flag stays false when the stored bitmap has padding bits (`Sidecar.CompleteExactly`), and
   the range check of `MarkComplete` is against the padded length.
8. "A speculative duplicate never exceeds effective connection concurrency" (ARCHITECTURE.md:1015): the free ticket is
   seen in one critical section and taken in another. `DuplicateTarget.TargetExactly` decides it for runs in which no
   connection is turned away, with a buffer of three chunks or an object of at most five.
9. A complete stream is reported as an error when a second copy of a written chunk is left in the buffer.
   `Leftover.ReportedExactly` says for which settings this cannot happen.
10. A slot is to be restored only if "mode-specific memory capacity permits another worker" (ARCHITECTURE.md:673).
    `cleanup` does not look at the buffer. `MemoryCapacity.CapacityExactly` says for which settings the target stays
    within it; `MemoryCapacity.GivenPastCapacity` is a download in which it does not while chunks are still given out.

Two further points are not stated by any member: `WriteChunk` marks a chunk complete before its data is synced, against
ARCHITECTURE.md:1016, and `OnPressure` is never called by the runner.

## Model

| member | source | states |
|---|---|---|
| `StreamTransfer.StreamSuccessIsExact` | internal/job/runner.go:410-482 | for every interleaving of workers, retries, duplicates, writer, driver and cancellation, ExitSuccess means the bytes written are the whole object |
| `StreamFinish.StreamCompletionReported` | internal/sink/stream.go:143-154 | the converse: without failed writes and cancellation, when every worker has succeeded and the download returns, the output is the whole object; it is reported as success if and only if no second copy of a written chunk is left in the buffer, hence always without duplicates |
| `Leftover.ReportedExactly` | internal/sink/stream.go:143-154 | a download without failed writes and cancellation whose workers all succeed is reported as a success in every run if and only if the settings start no duplicate: one connection, at most four chunks, or a buffer too small for two whole chunks and the last one |
| `Leftover.CompleteButError` | internal/sink/stream.go:143-154 | otherwise a run from the beginning writes the whole object, all workers return nil, and the result is an error |
| `StreamTransfer.StreamOrder` | internal/sink/stream.go:90-158 | in every reachable state the output is a prefix of the object; while the writer works, output plus the chunk in its hands are exactly the chunks before nextIndex, whatever was submitted, in whatever order and how often |
| `StreamTransfer.NothingAfterReturn` | internal/sink/stream.go:131-138 | once the writer has returned, after a failed write in particular, nothing more is written in the rest of any run |
| `StreamTransfer.PiecesExist` | internal/job/runner.go:691-699 | in every reachable state the range of a worker's chunk lies within the object |
| `StreamTransfer.StepKeepsSink` | internal/job/runner.go:639-737 | every event of the composed machine keeps the buffer genuine, the output in order, and what was delivered either buffered or taken by the writer |
| `StreamMemory.ReservationLaw` | internal/sink/stream.go:43-71 | in every run reserved bytes never exceed the buffer size and are what was ever reserved less the chunks taken by the writer; without duplicates they are exactly the bytes in workers' hands plus those buffered plus those of failed attempts |
| `StreamMemory.GrantedExactly` | internal/sink/stream.go:43-52 | in every reachable state without duplicates a reservation is granted if and only if the chunk fits beside the bytes in workers' hands, those buffered and those lost to failed attempts |
| `SinkCalls.SinkPromises` | internal/sink/stream.go:43-158 | over any calls of any callers: the writer is given chunks 0, 1, 2 and so on, each once, the last copy accepted, in its declared length; nothing accepted is lost; exactly the reservations that fit are granted; exactly the submissions of the declared length are accepted, until a write fails or a gap is found; and each turn of the writer goes on, waits, stops for the context, finishes or reports a gap as it should |
| `MemoryLimit.MemoryLimitExactly` | internal/sink/stream.go:117-141 | over all runs, with the chunk being written and the buffers of duplicates counted: where no duplicate can be started, payload stays within the buffer size if and only if the object fits the buffer or not even one chunk does; elsewhere it does if the buffer has room for the object and connections + 1 more chunks, and only if it has room for the object and connections - 1 more |
| `MemoryLimit.PayloadBounded` | internal/job/runner.go:675-699 | in every reachable state the payload is at most the object, one chunk and one chunk per connection |
| `MemoryLimit.CopiesExceed` | internal/job/runner.go:655-674 | where duplicates can be started and the buffer has less room than that, a run from the beginning holds the object and a copy of its first chunk for every worker but one |
| `MemoryLimit.LimitExceeded` | internal/sink/stream.go:124-132 | when one chunk fits but not the object, a run without duplicates exceeds the limit: the buffer is filled, the writer takes the first chunk, and the first chunk that did not fit is reserved |
| `LeakedBudget.NeverRecovers` | internal/job/runner.go:675-709 | once failed attempts have lost more reserved bytes than the buffer less the length of a chunk still to be reserved, and no duplicate was or is about to be started, that chunk is never delivered and no continuation succeeds, however many tries are left |
| `LeakedBudget.OneFailureIsFinal` | internal/job/runner.go:701-709 | with a buffer for one chunk but not for two, one broken transfer of the first chunk leads to such a state |
| `Recovery.CanStillSucceed` | internal/job/runner.go:639-737 | without a stream sink there is no such state: every reachable state in which nothing was cancelled and no failure is final or about to be has a continuation that reports success |
| `FileRecovery.DownloadCanSucceed` | internal/job/runner.go:288-408 | from every disk that interrupted runs can leave, a run that gets started has a continuation on disk that reports success |
| `FileTheorems.FileSuccessIsExact` | internal/job/runner.go:288-408 | after any history of interrupted runs, a run from a bitmap with harmless gaps, or none, that reports success leaves the object in its segment of the file and every other byte as it was |
| `FileResume.FileResumeExactly` | internal/job/runner.go:203-228 | for a sidecar of this job: every successful run from it leaves the whole object in the file, whatever the file holds where the sidecar makes no claim, if and only if the gaps of its bitmap are harmless |
| `FileResume.FollowAll` | internal/sink/file.go:38-54 | every run of the worker pool that leaves one chunk undelivered can happen on disk, all sidecar updates included, without touching that chunk's bytes |
| `FileRecovery.HarmfulGapsOccur` | internal/job/runner.go:203-228 | on an empty disk a run with two connections can be stopped so that it leaves a sidecar from which success does not mean the whole object |
| `FileRecovery.WrongFile` | internal/schedule/scheduler.go:303-329 | for an object of two chunks that does not begin with a zero byte: a stopped run and then a successful one, and the first byte of the file is wrong |
| `FileTheorems.InterruptedRunSafety` | internal/sink/file.go:38-54 | after any number of runs, each stopped at any step, a sidecar that would be resumed from marks only chunks whose bytes are in the file |
| `FileProgress.ProgressIsKept` | internal/sink/file.go:38-54 | after any history of runs, at any step of one: every chunk that was complete when it began, or that its sink has accepted since, is marked on disk, and a next run has it complete; a stop costs none of them |
| `FileTheorems.SidecarAtomic` | internal/sidecar/sidecar.go:175-191 | every single step leaves the sidecar, removes it, or replaces it by the whole state in memory, never by part of one |
| `FileTheorems.BeginsExactly` | internal/job/runner.go:203-228 | a whole sidecar of the current version and of this length is resumed from: exactly the chunks marked in any of its items are complete; a torn one, one of another version or for another length is removed, if it can be, and everything is pending; the file is not touched, and the new sidecar marks exactly the complete chunks |
| `FileProgress.SuccessPath` | internal/job/runner.go:321-408 | a run that reports success has written and renamed its sidecar, opened the destination, synced it and removed the sidecar, and no step of it, nor its workers, failed |
| `FileTheorems.SuccessCleansUp` | internal/job/runner.go:394-404 | a run that had something to do and reports success leaves no sidecar |
| `FileSafety.StepKeepsDisk` | internal/job/runner.go:203-228 | the disk invariant is kept by every event: start, resume, writes of any length, tmp write, rename, failures, sync, removal, interruption |
| `FileTheorems.WritesDefined` | internal/sink/file.go:38-54 | in every reachable state a worker inside WriteChunk has a chunk within the object and a sidecar state that can be marked |
| `FileTheorems.PrefixBitmap` | internal/job/runner.go:300-310 | the marked plan has a completed prefix and nothing complete behind it if and only if the bitmap had no gap |
| `FileTransfer.CollectResumed` | internal/job/runner.go:215-223 | the loops over items and flags collect the union of the sets their bitmaps mark |
| `FileTransfer.MarkResumed` | internal/job/runner.go:302-309 | the loop marks exactly the collected chunks; its counter is zero if and only if every chunk is complete |
| `ResumeGaps.ResumeExactly` | internal/schedule/scheduler.go:303-329 | every run from a plan that reports success has all chunks if and only if the bitmap has no gap, or nothing is retried and all gaps lie among the chunks dispatched before the counter is full |
| `ResumeGaps.RetryLosesChunk` | internal/schedule/scheduler.go:85-95 | with retries and a gap, any missing chunk among those dispatched first is left waiting by some run that reports success |
| `ResumeGaps.EarlyEndLosesChunk` | internal/schedule/scheduler.go:167-170 | a missing chunk behind the last one the counter needs is lost even when nothing fails |
| `PoolTheorems.TicketsBounded` | internal/schedule/scheduler.go:355-362 | in every reachable state activeCount is the number of active chunks plus outstanding duplicates, lies between 0 and the connections, and each active chunk has exactly one holder |
| `PoolTheorems.CompletionCounter` | internal/schedule/scheduler.go:184-203 | completedCount is the number of completed chunks plus the chunks completed before the start and dispatched again |
| `PoolTheorems.CounterMeansDone` | internal/schedule/scheduler.go:167-170 | from a completed prefix, a full counter means every chunk is complete, and each was complete at the start or accepted by the sink |
| `PoolTheorems.CompletedStays` | internal/schedule/scheduler.go:192-201 | from a completed prefix no event takes a chunk out of Completed |
| `PoolTheorems.SuccessMeansDelivered` | internal/job/runner.go:606-636 | a success verdict means every worker returned nil and, from a completed prefix, every chunk was there or delivered |
| `PoolTheorems.NoStall` | internal/schedule/scheduler.go:303-329 | with chunks missing, nothing active and no fatal error, from 30 s after the last failure every slot that asks is given a chunk |
| `Assignment.AssignedExactly` | internal/schedule/scheduler.go:303-329 | in every reachable state a worker that asks is given a chunk if and only if nothing is cancelled, the counter is not full, active chunks and outstanding duplicates are fewer than the target in force, its slot was not rejected repeatedly in the last 30 s, and a retry is due or a chunk was never given out; it gets the first retry that is due, else the next chunk, and otherwise exits with an error, exits, or waits, and nothing changes |
| `Assignment.StartedExactly` | internal/schedule/scheduler.go:476-516 | in every reachable state a worker that was offered a duplicate starts it if and only if some slot number below the target is neither that of an active chunk nor rejected repeatedly in the last 30 s, and borrows the first such; otherwise the flags are cleared and it goes on to ask |
| `Assignment.RetriedExactly` | internal/schedule/scheduler.go:206-228 | in every run, a chunk that failed at time t after it had been given out or duplicated k times, and is not given out meanwhile, is due at a later time if and only if the documented delay for k is over (at once for the k at which the shift overflows); at the limit of tries it has failed for good and the transfer is cancelled |
| `CallHistory.RetryExactly` | internal/schedule/scheduler.go:206-228 | the same over any calls of the scheduler from a new one, in whatever order |
| `CallHistory.RecordAfter` | internal/schedule/scheduler.go:355-362 | over any calls, a chunk's attempts count how often it was given out or duplicated, and its slot and start time are those of the last time it was given out |
| `CallHistory.InitialTargetExactly` | internal/schedule/scheduler.go:67-83 | the first target is the greatest number of workers, at least one and at most as many as requested, with a chunk each and, for a stream, a full chunk each within the buffer |
| `CallHistory.TargetMoves` | internal/schedule/scheduler.go:231-268 | how each call moves target and cooldown, given the calls before it: pressure halves upwards and if that lowers the target starts the cooldown asked for, or 30 s; a slot's repeated rejection takes one; a question after the cooldown with four chunks complete adds one and starts a cooldown of min(30 * 2^k, 300) s; no other call moves either |
| `CallHistory.CancelledExactly` | internal/schedule/scheduler.go:206-228 | over any calls, the scheduler is fatal if and only if an active chunk failed for good or at the limit of its tries, and cancelled if and only if that happened or it was stopped |
| `CallHistory.SlotStatistics` | internal/schedule/stats.go:24-40 | over any calls, a slot's record holds the number and the bytes of its successes, the time of the last, and the last 16 durations in order |
| `WorkerLedger.LedgerBalances` | internal/job/runner.go:639-737 | in every reachable state a worker's books balance: each chunk given and each duplicate started is under way or has ended in one way; exactly the refused connections of its own chunks were reported as admission failures, exactly its own failed transfers as retryable and the refused deliveries as final, exactly the other ended duplicates were cancelled, and exactly the deliveries reported and completed, each once |
| `Cancellation.StopIsFinal` | internal/schedule/scheduler.go:157-165 | from any reachable state in which the root context or the scheduler is cancelled, no continuation makes a chunk active or dispatches another; whoever asks exits with an error, and so does whoever reaches the top of its loop after the root context was cancelled |
| `Cancellation.StopMeansFailure` | internal/job/runner.go:606-636 | a download cancelled before all workers have returned never reports success, not even if every chunk is complete |
| `Cancellation.CancelledStream` | internal/sink/stream.go:92-121 | once the root context is cancelled the writer of a stream does not begin to wait, and returns an error when it wakes; if a worker had not returned, the download never reports success |
| `Cancellation.ErrorsAreFinal` | internal/job/runner.go:606-636 | in every reachable state the first collected error has cancelled the scheduler; once a sink has refused a delivery, or a worker has returned an error, no continuation reports success |
| `PoolTheorems.CallsDefined` | internal/schedule/scheduler.go:489-504 | a worker about to start a duplicate or to report can always do so: the slot scan and the chunk index are in bounds in every reachable state |
| `PoolInvariants.StepKeeps` | internal/job/runner.go:651-736 | every call of every worker, with any answer from network and sinks, keeps the pool's nine invariants |
| `PoolInvariants.CallMoves` | internal/job/runner.go:651-736 | each call is one of four moves: nothing settles, a chunk is taken, a chunk is released, or a settled chunk is settled again without effect |
| `PoolBudget.BoundedWork` | internal/schedule/scheduler.go:206-228 | without duplicates, assignments, completions and failures number exactly the drop of the retry measure, and no chunk is attempted more than MaxTries times |
| `DuplicateLimit.DuplicateLimitExactly` | internal/job/runner.go:665-674 | at most one duplicate is out in every run of a download to a stream if and only if there are at most two connections, at most four chunks, or a buffer too small for two whole chunks and the last one |
| `DuplicateRace.TwoDuplicates` | internal/schedule/scheduler.go:476-516 | otherwise a run from the beginning, with the sink's own frontier and reserved bytes, has two duplicates of one chunk |
| `DuplicateRace.AllStart` | internal/schedule/scheduler.go:476-516 | any number of workers that have passed the check all start their duplicates of the chunk, whatever has become of it meanwhile, as long as one slot number below the target is free |
| `DuplicateLimit.NoneStarted` | internal/schedule/scheduler.go:407-470 | with one connection, at most four chunks, or a buffer too small for two whole chunks and the last one, no run starts a duplicate |
| `DuplicateTarget.TargetExactly` | internal/schedule/scheduler.go:462-516 | in runs in which no connection is turned away, no duplicate takes more tickets than the target if none is ever started or the target begins at the number of connections; only then, if the buffer holds three chunks or the object has at most five |
| `HedgeLimits.TwoWorkers` | internal/schedule/scheduler.go:407-516 | with two connections at most one duplicate is out, whatever the sink reports |
| `HedgeLimits.FourChunks` | internal/schedule/scheduler.go:438-441 | with at most four chunks no duplicate is ever started |
| `DuplicateLimit.SmallBuffer` | internal/schedule/scheduler.go:467-470 | in a buffer that cannot hold three chunks no duplicate is ever started, even though the check reads the sink twice and the writer moves on in between |
| `HedgeRace.UndividedMeansSingle` | internal/schedule/scheduler.go:407-470 | if nothing happened between a worker's check and its start, at most one duplicate would exist in every reachable state, the scheduler would believe in one exactly while there is one, and it would be started only on a free ticket: the gap between the two is the only cause |
| `HedgeRace.FlagBacked` | internal/schedule/scheduler.go:519-529 | in every reachable state, however checks and starts interleave, the scheduler believes in a duplicate only while a worker has one of that very chunk under way; without any, a new one may be started |
| `CallHistory.FlagExactly` | internal/schedule/scheduler.go:476-529 | over any calls, it believes in a duplicate of chunk i if and only if the last call that decided about one started one of chunk i and it was not cancelled since |
| `DuplicateAgain.DuplicatedAgain` | internal/schedule/scheduler.go:519-529 | with two connections, eight chunks and a buffer for three, a run from the beginning has a duplicate of chunk 2, which breaks off and is given up, and later one of chunk 5 |
| `Adaptation.TargetBounded` | internal/schedule/scheduler.go:67-83 | over any calls, pressure included, the target stays between one and the connections, which is also the number of slots; the restoration backoff is min(30 * 2^k, 300) s after k restorations |
| `Adaptation.PressureHalves` | internal/schedule/scheduler.go:231-247 | k pressure events and nothing else take a target t to exactly ceil(t / 2^k) |
| `Adaptation.RestorationPacing` | internal/schedule/scheduler.go:366-382 | between effective pressure events, a later restoration comes no earlier than an earlier one plus all backoffs in between, so a window of length T holds at most T / 60 s + 1 |
| `Restoration.RestorationPromiseExactly` | internal/schedule/scheduler.go:366-382 | over calls in the order of their clocks: after a reduction, four more chunks are completed before any slot is restored if and only if no chunk was complete at the reduction or there are fewer than four |
| `EarlyRestoration.RestoredTooEarly` | internal/schedule/scheduler.go:250-268 | a run of the worker pool from its beginning, for every object of six chunks with retries: a refused connection lowers the target, and the same worker's next call of NextAssignment raises it, with no completion in between |
| `MemoryCapacity.CapacityExactly` | internal/schedule/scheduler.go:366-382 | in every run of a download to a stream the buffer holds a full chunk for each worker of the target if and only if it holds one for each connection, or holds one and the object has at most three chunks |
| `MemoryCapacity.GivenPastCapacity` | internal/schedule/scheduler.go:366-382 | with more connections than full chunks fit and an object of five chunks that does not fit either, a run from the beginning gives out the fifth chunk under a target the buffer has no room for |
| `Adaptation.OneStep` | internal/schedule/scheduler.go:366-382 | only NextAssignment raises the target, by one, after the cooldown and with four chunks complete; only an effective pressure event otherwise moves the cooldown |
| `Adaptation.SuppressedExactly` | internal/schedule/scheduler.go:250-268 | a slot is suppressed exactly for 30 s after each admission failure that is at least its second in a row since its last success |
| `Adaptation.WindowOfDurations` | internal/schedule/scheduler.go:192-201 | over any calls, the window behind the rolling median holds the last 32 positive durations of completed chunks, in order |
| `Backoff.BackoffAsDocumented` | internal/schedule/scheduler.go:331-342 | the delay is the documented one if and only if the attempt count is at most 34 or one of eight later ones; otherwise it is zero or negative |
| `Backoff.EarlyBackoff` | internal/schedule/scheduler.go:333-342 | for 1 to 34 attempts the delay is min(2^(a-1), 30) s despite the wrap-around arithmetic |
| `Median.WindowIsSuffix` | internal/schedule/scheduler.go:384-389 | after any recordings the window is the last min(cap, k) of them in order |
| `Median.MedianIgnoresOrder` | internal/schedule/scheduler.go:532-540 | the median depends only on the multiset of the window |
| `Median.MedianRanks` | internal/schedule/scheduler.go:532-540 | at least floor(len/2)+1 entries are no larger and at least ceil(len/2) no smaller than the median |
| `SchedulerObject.Scheduler.constructor` | internal/schedule/scheduler.go:59-115 | counts the completed chunks, skips the completed prefix, limits the target by memory and by the number of chunks |
| `SchedulerObject.Scheduler.NextAssignment` | internal/schedule/scheduler.go:150-181 | one pass of the loop up to the wait does to the object what the step does to its value |
| `SchedulerObject.Scheduler.TryAssign` | internal/schedule/scheduler.go:303-329 | suppressed slot, full target, due retry, next chunk, in that order |
| `SchedulerObject.Scheduler.MarkComplete` | internal/schedule/scheduler.go:184-203 | only an active chunk is completed, and its positive duration enters the window |
| `SchedulerObject.Scheduler.MarkFailed` | internal/schedule/scheduler.go:206-228 | the whole new state of a failure, retryable or final |
| `SchedulerObject.Scheduler.OnPressure` | internal/schedule/scheduler.go:231-247 | the whole new state of a pressure event |
| `SchedulerObject.Scheduler.OnAdmissionFailure` | internal/schedule/scheduler.go:250-268 | the whole new state, of the slot's record and of the target |
| `SchedulerObject.Scheduler.HedgeEligible` | internal/schedule/scheduler.go:407-473 | the loop over later chunks counts the completed ones; the answer is the step's |
| `SchedulerObject.Scheduler.StartHedge` | internal/schedule/scheduler.go:476-516 | the nested slot scan finds the first free slot and stays in bounds |
| `SchedulerObject.Scheduler.CancelHedge` | internal/schedule/scheduler.go:519-529 | the ticket is returned; the flag is cleared only for the hedged chunk |
| `SchedulerObject.Scheduler.Cleanup` | internal/schedule/scheduler.go:366-382 | the whole new state of a restoration |
| `Stats.WorkerStats.Success` | internal/schedule/stats.go:24-40 | a success clears the failure count and slides the window |
| `Stats.WorkerStats.AdmissionFailure` | internal/schedule/stats.go:42-44 | one more failure in a row |
| `Streaming.StreamSink.ReserveBytes` | internal/sink/stream.go:43-52 | refused exactly when it would exceed the buffer |
| `Streaming.StreamSink.SubmitChunk` | internal/sink/stream.go:54-71 | refused after a fatal error or with the wrong length; else stored, over any earlier copy |
| `Streaming.StreamSink.EnterLoop` | internal/sink/stream.go:92-121 | one critical section of the writer from the top of its loop |
| `Streaming.StreamSink.AfterWrite` | internal/sink/stream.go:132-154 | one critical section of the writer after a write, failed or not |
| `Sidecar.MarkIsInsertion` | internal/sidecar/sidecar.go:108-139 | decoding, setting and encoding again inserts one index into the set of marked chunks and changes nothing else |
| `Sidecar.MarkAccepted` | internal/sidecar/sidecar.go:108-126 | a chunk can be marked if and only if the item exists and the index is below the chunk count or within the stored bitmap |
| `Sidecar.MarkAllIsUnion` | internal/sidecar/sidecar.go:108-139 | any sequence of calls is union with the set of their indices |
| `Sidecar.CompleteExactly` | internal/sidecar/sidecar.go:131-136 | Complete is set if and only if every chunk is marked and the stored bitmap has no padding |
| `Sidecar.Manager.MarkComplete` | internal/sidecar/sidecar.go:108-139 | the in-memory mark survives a failed checkpoint; the file changes only on success |
| `Sidecar.Manager.WriteLocked` | internal/sidecar/sidecar.go:175-191 | on success the sidecar is the whole new state and the temporary file gone; else the sidecar is unchanged |
| `Sidecar.Manager.Create` | internal/sidecar/sidecar.go:66-83 | state and file are replaced together or not at all |
| `Sidecar.Manager.Load` | internal/sidecar/sidecar.go:86-103 | only a whole state of the current version is accepted, and then kept |
| `Bitmap.EncodeBitmap` | internal/sidecar/sidecar.go:220-229 | the loop packs flag i into bit i % 8 of byte i / 8, with clear padding |
| `Bitmap.DecodeBitmap` | internal/sidecar/sidecar.go:194-217 | the loops unpack every bit and extend to the wanted length with false |
| `Bitmap.PackingUnique` | internal/sidecar/sidecar.go:220-229 | bytes that pack the same flags are equal |
| `Bitmap.EncodedPacks` | internal/sidecar/sidecar.go:220-229 | what is encoded is a packing of the flags |
| `Bitmap.DecodeEncoded` | internal/sidecar/sidecar.go:194-229 | decoding what was encoded gives the flags back, false elsewhere, with length max(8 * ceil(n/8), m) |
| `Bitmap.EncodeDecoded` | internal/sidecar/sidecar.go:194-229 | encoding what was decoded gives the bytes back |
| `Positional.WritingSource` | internal/sink/file.go:38-48 | writing object bytes at base plus start puts them in place, keeps those already in place, and touches nothing outside the segment |
| `Positional.NewFile` | internal/sink/file.go:23-35 | a new file filled in this way is base zero bytes and the object: the object exactly when the base is 0 |
| `Positional.FileSink.WriteChunk` | internal/sink/file.go:38-54 | nothing is marked unless the whole chunk was written; success means written, marked and checkpointed |
| `Positional.FileSink.Finalize` | internal/sink/file.go:58-83 | success exactly when sync, close and removal succeeded, or there was no sidecar to remove; the sidecar goes only after sync and close |
| `Chunks.Planner.Plan` | internal/chunk/chunk.go:64-85 | the loop fills the slice with the planned layout |
| `Chunks.PlanIsLayout` | internal/chunk/chunk.go:64-85 | chunks are consecutive, non-empty, indexed by position, end at the object's end, and all but the last are exactly splitSize long |
| `Chunks.LengthsAddUp` | internal/chunk/chunk.go:64-85 | the lengths of the first k chunks sum to the k-th boundary, all of them to the size |
| `Chunks.EveryByteInOneChunk` | internal/chunk/chunk.go:64-85 | byte o lies in chunk o / splitSize and in no other |
| `Chunks.PlanFitsInt64` | internal/chunk/chunk.go:68-84 | without overflow in size + splitSize - 1, every value of the loop fits an int64 |
| `Chunks.ChunkCount` | internal/chunk/chunk.go:88-93 | n with (n-1) * splitSize < size <= n * splitSize; 0 for an empty object |
| `UrlList.Run` | internal/job/runner.go:95-119 | the loop writes what the attempted URLs send, stops at the first failure of a common output, and returns that code or the worst |
| `SequentialCopy.Copy` | internal/job/runner.go:551-557 | the copy loop writes the pieces of the body up to its end or the first error of either side |
| `SequentialCopy.CopyIsPrefix` | internal/job/runner.go:551-557 | what is copied is the beginning of the object, and success means it is all of it |
| `UrlList.ConcatenationExact` | internal/job/runner.go:95-119 | success means the output is all objects in order; after a failure it is the objects before the failing one and a prefix of that one, and later URLs add nothing |
| `UrlList.ExitCodeExactly` | internal/job/runner.go:95-119 | 2 without URLs; 0 if and only if every URL succeeded; else the first failure's code when all share an output, and the greatest when each has its own file |
| `UrlList.SentIsPrefix` | internal/job/runner.go:252-257 | on either path a URL sends a prefix of its object, all of it on success |
| `UrlList.FileOfItsOwn` | internal/job/runner.go:378-379 | a later URL's own new file, downloaded in parallel at the offset reached so far, is its object if and only if no URL before it has advanced the offset; after a parallel download to a file that succeeded or whose workers ran, and after a sequential one of a known size, it never is; after streams, transfers that were not started and sequential ones that failed or had no known size, it always is |
| `UrlList.SuccessCounts` | internal/job/runner.go:378-379 | a successful parallel download to a file always advances the offset by its size |
| `UrlList.OwnFileExists` | internal/job/runner.go:288-408 | successful parallel downloads to a new file exist at every base offset |
| `ContentRange.AcceptsExactlyItsRange` | internal/adapter/http/adapter.go:318-341 | the printed header of a range (section 14.4 of RFC 9110) is accepted for a requested range if and only if they are the same, whatever the total |
| `ContentRange.AcceptedExactly` | internal/adapter/http/adapter.go:318-341 | every header: one is accepted for a requested range if and only if, less an optional leading "bytes ", it is a + "-" + b + "/" + t, with no dash in a and no slash in a or b, where a and b, less surrounding space, are read as the two ends |
| `ContentRange.RefusedHeaders` | internal/adapter/http/adapter.go:318-341 | a missing header and the unsatisfied-range form "bytes */n" are refused for every range |
| `ContentRange.ParsedExactly` | internal/adapter/http/adapter.go:332-340 | a text is read as an int64 if and only if it is an optional sign and digits whose value fits |
| `ContentRange.TotalExactly` | internal/adapter/http/adapter.go:302-315 | every header: a total is read if and only if there is exactly one slash and what follows is a positive int64 |
| `ContentRange.OnlyTheChunkAskedFor` | internal/adapter/http/adapter.go:206-240 | among the chunks of one plan, a response for chunk j is accepted for the request for chunk i if and only if i = j |
| `ContentRange.TotalReadBack` | internal/adapter/http/adapter.go:302-315 | a printed positive int64 total is read back; zero, larger numbers and "*" are refused |

## Left out

- HTTP, FTP and TLS traffic, redirects, probing and If-Range: a transfer fails or returns the exact range.
- Condition variables, the retry ticker and lost wakeups: a blocked call is a disabled step.
- fsync order and power loss: the program does not sync per chunk.
- JSON, base64, hashes and timestamps of the sidecar: a file holds a whole state or the torn beginning of one; resuming never compares the hashes.
- Two processes on one destination at the same time.
- `-O FILE`: `os.Create` truncates the file and the two transfer paths keep separate positions in it.
- `-c` without a sidecar, `-N`, `-nc`, `--spider`, background mode, file names, progress display.
- Matching of error texts to exit codes: a failed transfer has some code other than success.
- The throughput figures of WorkerStats and of RecentThroughput, and the sink's `active` and `totalExpected`: they drive nothing.
- Data races on the chunk pointers a worker keeps: their fields are read when the worker's next call happens.
- The choice among equal elements in `sort.Slice`: the window holds plain numbers, so any sort gives the same result.
- PoolTheorems.NoStall: says that an asking worker is given a chunk, not that it is woken to ask.
- StreamMemory.ReservationLaw: the exact balance is stated for runs without duplicates, because a duplicate submits bytes it never reserved.
- PoolBudget.BoundedWork: is stated for runs without duplicates, because a duplicate adds an attempt to a chunk that is already active.
- MemoryLimit.MemoryLimitExactly: where duplicates can be started it leaves two chunks of spare room undecided; what happens there depends on the number of chunks and tries.
- Cancellation.StopMeansFailure: says how a cancelled download ends, not when: a transfer under way ends when the network lets it.
- SinkCalls.SinkPromises: is about one writer, which is what the program has.
- DuplicateTarget.TargetExactly: gives one direction only for more than five chunks in a buffer of less than three, where it matters when the target was last restored; an admission failure lowers the target at any time.
- LeakedBudget.NeverRecovers: is stated for runs without duplicates, which deliver bytes that were never reserved.
- Recovery.CanStillSucceed: is about the worker pool; from within WriteChunk only the beginning of a run is followed on disk (`FileRecovery.DownloadCanSucceed`).
- Restoration.RestorationPromiseExactly: is stated for plans without gaps and calls without duplicates, cancellation and fatal failure, since with those the counter or the tickets drift.
- StreamFinish.StreamCompletionReported: leaves out runs with a failed write or a cancellation, which are rightly reported as errors.
- HedgeLimits.TwoWorkers: takes the sink's answers as arbitrary; the exact theorem is the one about downloads to a stream.
- UrlList.Run: what each URL's transfer does is an input, a run of its own machine, so that the loop can be stated over all of them; output to one named file is not covered.
