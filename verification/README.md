# Winter, verified as a distributed queue protocol

Winter is a Redis-backed job queue: eleven Lua scripts change the shared key space, and Go
processes (servers, recovery, workflow advance, cron, rate limiter) call them, interleaving
freely. This project models the key space as one value, each script as one atomic step, and the
Go programs around the scripts as methods or as processes with a program counter. It proves what
every run keeps, and where the code falls short of a natural claim it proves exactly when.

## How it is laid out

- `ZSets`, `Scripts`: sorted sets, the Redis data (`Store`), and for every script the state it
  leaves behind. `RedisQueue`: the queue as a class whose methods make the script's writes one by
  one, each proved to reach that state.
- `Runs`: sequences of script calls by any number of clients over any queues. A *fenced* run
  enqueues fresh ids and finishes only jobs active in the queue named; the scripts check neither,
  so each theorem says which kind of run it is about.
- `Placement`, `JobView`, `Transitions`, `UniqueKeys`, `Conservation`, `Attempts`, `Backoff`,
  `NotBefore`, `Draining`: what fenced runs keep. `AtLeastOnce`, `Leases`: what all runs keep.
  `Effects`: where each call leaves each job, each key and each counter, on any run whatever.
- `Heartbeat`: many servers and threads against a clock. It shows that servers which keep their
  heartbeat produce fenced runs, which is where the fenced theorems get their force.
  `SharedEntry`: what happens when a server runs the same job twice at once.
- `Server`: `processJob`, the two pollers and the queue lists. `Slots`: the poller and the handler
  goroutines sharing the concurrency semaphore, in any interleaving.
- `Workflow`: chain, group and chord as sequential methods; `Chain`, `Group`, `Chord`: the same
  calls cut into their Redis steps, interleaved.
- `Ticks`: the cron scheduler as a class over the queue. `Cron`: the same seedings and ticks cut
  into steps and interleaved across servers whose clocks need not agree. `RateLimit`: the token
  bucket over exact reals.

## What turned out false, and exactly when

- A duplicate or misdirected finishing call loses no job, except a nack that stops with a Lua error
  because the hash has no `max_retries` (`internal/queue/scripts.go:149-151`): it has removed the
  job from the active set by then. `AbortLosesIff` says when that loses the job,
  `UnknownIdCanBeLost` gives the run.
- `inflight` is keyed by job id alone (`server.go:576-577`). When a server runs a job, finishes it
  and dequeues it again before the deferred deletion of the first call, that deletion removes the
  second call's entry and its lease is no longer extended. `DeleteSafeIff` says that this is exactly
  when a deletion can cost a thread its job; `SharedEntryLosesJob` reaches such a deletion.
- A group's record can be overwritten by a slower save. `CompletedIffAlone` says exactly when a group
  ends up completed, `FailedStaysIff` exactly when a saved failure stays.
- A chord goes wrong in two ways while `CreateChord` is still adding dependencies
  (`internal/workflow/chord.go:44-53`): a header that empties the set too soon fires the callback
  without the others (`CallbackCanFireEarly`), and a header that completes before it is added leaves
  itself in the set for good, so that the callback is never enqueued (`CallbackCanBeForgotten`).
  `RightIffSafe` says exactly which SREMs do it. A stale record can also make the callback run again;
  `TwiceIffOthersPending` says exactly when.
- The doc comments of the scheduler promise exactly one enqueue per window by HSETNX
  (`internal/scheduler/cron.go:1-3`, `internal/scheduler/cron.go:46-48`). The code compares and swaps
  first and enqueues afterwards, so it is at most once: `LostIffDropped` says which steps lose a window.
- Exponential backoff from one second wraps 64-bit nanoseconds from attempt 34 on; `OneSecondExact`
  lists the attempts at which the delay is still the capped doubling.
- Uniqueness periods under a second claim nothing although the key name is stored
  (`SubSecondPeriodsDoNotClaim`, `SubSecondPeriodShares`). `ExclusiveIff` lists all the calls that
  break the exclusion of a key.
- The rate limiter accepts intervals below a millisecond and then limits nothing, and maxima below
  one and then lets nothing through (`DegenerateRates`).

## Model

| member | source | states |
|---|---|---|
| Placement.ExclusivePlacement | internal/queue/scripts.go:7-322 | After any fenced run over any queues an unfinished job is recorded exactly once, at a place its state allows, in its own queue only; completed and cancelled jobs and unknown ids are recorded nowhere |
| Placement.StepPlaced | internal/queue/scripts.go:7-322 | Every script, made by a caller that keeps the fence, keeps hash state, ready score, sets, lease map and dead list of all queues in agreement |
| AtLeastOnce.NothingLost | internal/queue/scripts.go:62-310 | In every run without purge whose finishing calls name ids once enqueued, however stale, duplicated or misdirected, a pending, retry, active or dead job is in a collection of that state in some queue |
| AtLeastOnce.StepNoneLost | internal/queue/scripts.go:7-322 | Every single call, fenced or not, purge included, keeps that, unless it is a nack that stops with a Lua error |
| AtLeastOnce.AbortLosesIff | internal/queue/scripts.go:141-151 | The nack that stops with an error loses its job if and only if the job was active nowhere but in the queue named |
| AtLeastOnce.UnknownIdCanBeLost | internal/queue/scripts.go:126-190 | A reschedule of an id never enqueued, a promote, a dequeue and a nack leave a job active in no set |
| Leases.ActiveIffLeased | internal/queue/scripts.go:62-310 | In every run, fenced or not, each queue's active set is the domain of its lease map |
| Leases.SweepEffect | internal/queue/scripts.go:234-263 | A sweep takes only leases expired by its time, at most the limit, removes exactly those leases and reports each job once |
| Leases.SweepOverdue | internal/queue/scripts.go:234-263 | A limited sweep lowers the number of expired leases by the limit, or to zero |
| Leases.SweepsComplete | internal/worker/recovery.go:57-75 | Enough limited sweeps at one instant leave nothing expired and report each expired job exactly once in all |
| Leases.PassSweepsEach | internal/worker/recovery.go:57-75 | A pass over different queues lowers the overdue leases of each by the limit, or to zero, at that queue's own time, and touches no other queue |
| Leases.Recovery.Sweep | internal/worker/recovery.go:57-75 | One pass is the recovery script on each configured queue in order, each at its own reading of the clock |
| Leases.Recovery.constructor | internal/worker/recovery.go:29-40 | A limit of zero or less becomes 100, so the limit is positive |
| UniqueKeys.KeyOwnerIsLive | internal/queue/scripts.go:26-31 | In fenced runs a held unique key is owned by a job carrying it that is ready, delayed or active in its own queue |
| UniqueKeys.FinishFreesOwnOnly | internal/queue/scripts.go:113-119 | A finishing call, fenced or not, frees a key if and only if it ends the job, the hash carries the key and the job owns it; other owners are untouched |
| UniqueKeys.NoTwoLiveJobsShareAKey | internal/queue/scripts.go:26-48 | In a fenced run without a call that breaks the exclusion of a key, no two live jobs carry it |
| UniqueKeys.ExclusiveIff | internal/queue/scripts.go:26-48 | Of all fenced calls exactly these break the exclusion of a key: an enqueue that stores it with a time below one second, its expiry while held, and the retry of a dead job that carries it |
| UniqueKeys.KeyAndPeriod | internal/queue/queue.go:50-58 | A key is stored under its prefix, with the period rounded down to whole seconds, exactly when key and period are given |
| UniqueKeys.SubSecondPeriodsDoNotClaim | internal/queue/queue.go:53-57 | A second enqueue is refused if and only if the key is held and the period reaches a whole second |
| UniqueKeys.SubSecondPeriodShares | internal/queue/queue.go:53-57 | With a shorter period two live jobs carry the same key |
| Conservation.Conserved | internal/queue/scripts.go:7-322 | Per queue, after any fenced run: enqueued is ready, delayed, active, dead, completed, cancelled and purged together, and dead_total is dead, retried and purged together |
| Conservation.StepBalance | internal/queue/scripts.go:7-322 | Each fenced call changes the balance of every queue by what it cancels or purges there and nothing else |
| Conservation.StatsShowDepths | internal/queue/queue.go:361-386 | After any run, fenced or not, the counters merged by QueueStats hide no depth and all counters show |
| JobView.RunStepHash | internal/queue/scripts.go:7-322 | After any run, fenced or not, what each script, loops included, does to every job's hash, stated job by job |
| Effects.RunStepSpot | internal/queue/scripts.go:7-322 | After any run, fenced or not, where each script leaves every job in every queue: its ready score, delayed time, active entry and lease, written out call by call |
| Effects.StepHolder | internal/queue/scripts.go:26-31 | Who holds each unique key after each call: claimed only by an enqueue while free and for a positive time, freed only by expiry or by its owner when that is acked, cancelled or buried |
| Effects.StepDeadAndPaused | internal/queue/scripts.go:152-156 | Each queue's dead list, in order, and its pause flag after each call |
| Effects.CountersCount | internal/queue/scripts.go:7-322 | In any run each counter of each queue is the number of calls it counts |
| Effects.EnqueueStores | internal/queue/scripts.go:26-56 | An enqueue that is not refused leaves exactly the job handed over, pending, attempt 0, in the delayed set at its time or in the ready set at its priority, and owning its key if it claims one |
| Effects.NackRetriesOrBuries | internal/queue/scripts.go:141-170 | A nack counts the attempt and leaves the active set; the job waits for retry after the backoff if and only if the attempts, this one counted, are below max_retries, and otherwise heads the dead list |
| Effects.PausedUntilResumed | internal/queue/queue.go:388-396 | Through any calls but a resume a paused queue answers nothing; on resume the first ready job is available again |
| Effects.BatchStores | internal/queue/queue.go:90-103 | Every job of a batch of different ids is stored whole, pending, in its own queue, whatever the chunks |
| Transitions.StepFollowsTable | winter.go:61-83 | A fenced call keeps a job's state, takes one edge of the table, or two through failed |
| Transitions.TwoEdgeMoves | winter.go:61-83 | The two-edge moves are from active to pending or dead only; failed is never stored; completed and cancelled are final |
| Attempts.LiveJobsHaveRetriesLeft | internal/queue/scripts.go:145-170 | In fenced runs a waiting or running job has attempt 0 or fewer attempts than its max_retries |
| Attempts.NackBudget | internal/queue/scripts.go:145-170 | Between (re)enqueue and dead a job is nacked at most max(1, max_retries) times, whatever recoveries, promotions and reschedules intervene, and the last of these ends it |
| Attempts.DeadExactlyAtBudget | internal/queue/scripts.go:145-170 | Without skips, a job is dead exactly when it has been nacked max(1, max_retries) times, never earlier, whatever intervenes |
| Attempts.FreshStart | internal/queue/scripts.go:305-308 | An accepted enqueue and a retry from the dead list are live states the budget starts from |
| Attempts.ReportedOnce | server.go:584-653 | In a fenced run a job gets at most one ack or nack that buries it, which are the calls its workflow is told of, until it is enqueued or retried again |
| Attempts.RetryDelayNeverWraps | server.go:632-638 | With max_retries at most 34, every delay given to nack on the ordinary path is min(2^attempt seconds, 1 hour) in milliseconds |
| Backoff.NextIsCappedDoubling | winter.go:250-256 | For every base the delay is the capped doubling while the product fits 64 bits |
| Backoff.OneSecondExact | winter.go:250-256 | With a one-second base the delay is the capped doubling if and only if the attempt is one of those listed; 64-bit wrap-around included |
| NotBefore.NeverBeforeItsTime | internal/queue/scripts.go:265-288 | With a shared clock and delays not negative, a delayed score is never below scheduled_at, and a ready, active or dead job's scheduled_at has come |
| NotBefore.StepDelayed | internal/queue/scripts.go:50-54 | For every fenced call and every job, under which score, if any, the job waits afterwards |
| Draining.ReadyAtOriginalPriority | internal/queue/scripts.go:280-285 | After any retries, promotions, recoveries and dead retries the ready score is the priority the job was enqueued with |
| Draining.DrainSorts | internal/queue/scripts.go:77-90 | Repeated dequeues of an unpaused queue return its ready set, each id once, sorted by priority and id; fewer calls return the first of them |
| Draining.DequeuedAsEnqueued | internal/queue/queue.go:153-183 | Through any fenced run that does not enqueue the id again, a dequeue of the job returns the kind, payload, workflow and every other field it was enqueued with, from the queue it was enqueued in |
| ZSets.First | internal/queue/scripts.go:77-77 | The popped member has the least score and, among equal scores, the least name |
| ZSets.RangeByScore | internal/queue/scripts.go:242-242 | The members up to a score, each once, no more than the limit and no fewer than there are |
| ZSets.RangeIsLowest | internal/queue/scripts.go:242-242 | They come by score and then name, and a limit keeps the first of them |
| RedisQueue.Queue.Enqueue | internal/queue/queue.go:44-82 | Refused exactly on a held key claimed for a positive time; the new state is the enqueue script's, with the period truncated to seconds |
| RedisQueue.Queue.EnqueueMany | internal/queue/queue.go:90-103 | Chunks of 100 have the effect of enqueueing every job in order, without keys |
| RedisQueue.Queue.Dequeue | internal/queue/queue.go:153-183 | Nothing from a paused or empty queue; otherwise the first ready job, now active and leased for 30 seconds, with its updated hash |
| RedisQueue.Queue.Ack | internal/queue/scripts.go:97-122 | The new state of the whole store after an ack |
| RedisQueue.Queue.Nack | internal/queue/scripts.go:126-171 | Dead, retry, or a script error that keeps the writes before it; the new state in each case |
| RedisQueue.Queue.RescheduleJob | internal/queue/scripts.go:174-190 | The new state of the whole store after a reschedule |
| RedisQueue.Queue.CancelJob | internal/queue/scripts.go:193-217 | The new state of the whole store after a cancel |
| RedisQueue.Queue.ExtendLease | internal/queue/scripts.go:221-229 | Only a lease that exists is moved |
| RedisQueue.Queue.RecoverExpiredLeasesAt | internal/queue/queue.go:319-343 | The loop over expired leases reaches the specified state and reports the jobs recovered |
| RedisQueue.Queue.Promote | internal/queue/scripts.go:267-288 | The loop over due jobs reaches the specified state and counts them |
| RedisQueue.Queue.RetryDead | internal/queue/scripts.go:292-310 | Found exactly if the id is in the dead list; the new state |
| RedisQueue.Queue.PurgeDead | internal/queue/scripts.go:313-322 | All dead jobs' hashes and the list are gone; how many there were |
| RedisQueue.Queue.QueueStats | internal/queue/queue.go:361-386 | The loop over the stored counters merges them over the four depths |
| Heartbeat.HeldJobsAreSafe | server.go:458-483 | If the time to registration, between extensions and for an extension to take effect stay below the 30s lease together, a job being processed is held by one thread, its lease is strictly ahead of the clock and no sweep can take it |
| Heartbeat.TimedRunsAreFenced | server.go:458-483 | The script calls of such servers form a fenced run, from which every fenced theorem follows |
| SharedEntry.DeleteSafeIff | server.go:576-577 | In a run that kept its heartbeats, a deferred deletion leaves every thread sure of its job in every such continuation if and only if no thread of that server is running the same job |
| SharedEntry.ExposedLosesJob | server.go:473-480 | A thread running without its in-flight entry can lose its job to sweeps of any limit, from any state, while the others keep their heartbeats |
| SharedEntry.SharedEntryLosesJob | server.go:576-577 | Whatever the bounds, a run that kept its heartbeats reaches a deletion that is not safe |
| Server.FinishingCallIsFenced | server.go:512-659 | While heartbeats are kept, every path through processJob makes a finishing call on a job still active in the queue it names, and the run may go on with it |
| Server.FinishingCallMeans | server.go:512-659 | What becomes of the job on every path: completed and counted, pending at now plus the delay, cancelled with the reason, dead, waiting for retry after the backoff, or put off by its rate limit for at least 50 milliseconds; it leaves the active set and the ready set is as before |
| Server.NoticeMeansEnd | server.go:584-653 | A job of a workflow is reported exactly when its call ends it, as completed on ack and as failed on burial |
| Server.Server.ProcessJob | server.go:512-659 | Exactly one finishing call; the store afterwards is the one FinishingCallMeans spells out for the gate and the outcome; the in-flight entry is gone; the workflow is notified exactly on ack and on a death of a handled job |
| Server.Server.Bury | server.go:528-534 | A job nobody handles goes to the dead list without retry |
| Server.Server.PutOff | server.go:536-550 | A job over its rate limit is rescheduled by the hint, 50 milliseconds at least |
| Server.Server.ExtendInflight | server.go:458-483 | One tick of the heartbeat moves the leases of the in-flight jobs that have one to 30 seconds ahead and changes nothing else, in any order of the jobs |
| Server.Server.BuildWeightedQueues | server.go:663-671 | Each queue appears as often as its weights add up to |
| Server.Server.BuildStrictQueues | server.go:675-686 | The names of all queues in some order of descending weight |
| Server.Server.PollWeightedPass | server.go:355-402 | A pass, some of whose dequeues may fail, hands out what one dequeue per remaining list entry hands out |
| Server.Server.PollStrictPass | server.go:404-454 | A pass takes one job from the first queue in order that answers with one |
| Slots.SlotsAreExact | server.go:355-454 | Under any interleaving of acquiring, asking, failing, spawning, returning and signalling, the slots taken are those of the busy handlers and the poller, never more than the concurrency; a poller waits exactly while that many handlers are busy; the wait group counts the handlers not yet done |
| Slots.SlotsComeBack | server.go:387-391 | No slot leaks: while the poller holds none, as many returns as there are busy handlers empty the channel |
| Server.WeightedPassByWeight | server.go:355-402 | One pass without failing dequeues dispatches exactly min(total weight, ready jobs) from each unpaused queue |
| Server.HandedInOrder | server.go:355-402 | From an unpaused queue a pass hands out the first of its ready jobs, in their order of priority and id, one for each time the list names it |
| Server.StrictPassByWeight | server.go:404-454 | A strict pass dispatches from a queue only if every heavier one yields nothing or its dequeue failed |
| Server.StrictDrainsInOrder | server.go:404-454 | Repeated strict passes with no other activity never return to an earlier queue |
| Workflow.Manager.CreateChain | internal/workflow/chain.go:13-46 | Refused exactly when empty; otherwise the record and one job, the first task with defaults filled in |
| Workflow.Manager.CreateGroup | internal/workflow/group.go:13-47 | Refused exactly when empty; otherwise the record and one job per task in order |
| Workflow.Manager.CreateChord | internal/workflow/chord.go:13-56 | Refused exactly when empty; otherwise the record, one job per header and all their ids as dependencies |
| Workflow.LaunchesTasks | internal/workflow/workflow.go:88-115 | A group or chord launches one job per task in the order of the tasks, with the task's kind, payload and priority, 3 retries for none given, and the task's queue, the workflow's or the default one |
| Workflow.Manager.OnJobCompleted | internal/workflow/workflow.go:119-138 | The state after a completion call of any kind of workflow that nothing interrupts |
| Workflow.Manager.OnJobFailed | internal/workflow/workflow.go:141-152 | The stored record becomes failed, whatever it was |
| Workflow.CompletionCounts | internal/workflow/workflow.go:119-138 | What one completion means for a running workflow of each kind: the counter or the dependencies, completed exactly at the end, and the one job it may enqueue |
| Workflow.OverIsOver | internal/workflow/workflow.go:119-126 | A completion changes nothing in a workflow that is over or unknown |
| Workflow.FailureFails | internal/workflow/workflow.go:141-152 | A failure sets the status of a stored record to failed and changes nothing else |
| Workflow.GroupInSequence | internal/workflow/group.go:56-68 | When calls do not overlap the record is completed exactly when all tasks have completed, and failed once one has failed; until then the counts are those of the calls |
| Chain.EachStepOnce | internal/workflow/chain.go:50-77 | Under any interleaving of any number of completion and failure calls, duplicates and stops included, each step is enqueued at most once |
| Chain.ChainRunsInOrder | internal/workflow/chain.go:50-77 | When each job is reported once, the enqueued tasks are a prefix of the chain in order, at most one job is outstanding or being advanced, and completed holds exactly when the counter reached the total and no call is in flight |
| Chain.AloneIsOneCall | internal/workflow/chain.go:55-77 | The steps of one process run without interruption are the sequential call |
| Group.CountsAreExact | internal/workflow/group.go:51-68 | Under any interleaving the INCRs return 1 up to the total, so one call alone sees it, and the record never says completed before all tasks were counted |
| Group.CompletedIffAlone | internal/workflow/group.go:56-68 | Once all calls are over the record says completed if and only if the call that saw the total saved while no other had a save to come |
| Group.CompletionCanBeForgotten | internal/workflow/group.go:56-68 | Two tasks whose saves cross leave a finished group running for ever |
| Group.FailedStaysIff | internal/workflow/workflow.go:141-152 | Under any interleaving of completions and failures, a saved failure stays in the record in every continuation if and only if no completion had a save to come |
| Group.AloneIsOneCall | internal/workflow/group.go:56-68 | The steps of one call run without interruption are the sequential call |
| Chord.CallbackOnlyAfterAll | internal/workflow/chord.go:61-98 | As long as every SREM is safe (the header is in the set, and the set is emptied only once all were added), under any interleaving, failures included, the callback is enqueued only after every header has left the set, and by at most one header |
| Chord.ExactlyOneHeaderFires | internal/workflow/chord.go:61-98 | If moreover no header fails, then once all are done exactly one has enqueued the callback |
| Chord.RightIffSafe | internal/workflow/chord.go:44-98 | From there on every continuation of safe steps goes right if and only if the next SREM is safe or the chord has a single header |
| Chord.LateDependencyHangs | internal/workflow/chord.go:44-53 | A header that leaves the set before it is added, with others in it, keeps the callback from ever being enqueued, whatever happens next |
| Chord.TwiceIffOthersPending | internal/workflow/chord.go:80-98 | When the header that emptied the set saves, some continuation enqueues the callback twice if and only if another header still has a record to save |
| Chord.CallbackCanRunTwice | internal/workflow/chord.go:80-98 | That does happen with two headers |
| Chord.CallbackCanFireEarly | internal/workflow/chord.go:44-53 | A header that completes before it is a dependency fires the callback with the other not enqueued |
| Chord.CallbackCanBeForgotten | internal/workflow/chord.go:44-53 | Or, being the second, it leaves a chord whose headers are all done running for ever |
| Chord.AloneIsOneCall | internal/workflow/chord.go:69-98 | The steps of one completion run without interruption are the sequential call |
| Cron.AtMostOncePerWindow | internal/scheduler/cron.go:117-182 | Across any servers and clocks each window of an entry is claimed once and enqueued at most once, only after being claimed, and later claims are of windows beyond the earlier claimer's clock |
| Cron.SwapAdvances | internal/scheduler/cron.go:144-157 | In every run a successful swap moves the stored time strictly forward, past the swapping server's clock |
| Cron.NextNeverGoesBack | internal/scheduler/cron.go:186-198 | No step of any server moves a stored time back or removes it, so a value read cannot come back after being replaced |
| Cron.LostIffDropped | internal/scheduler/cron.go:150-174 | A step loses a claimed window if and only if it is a failure or stop of the tick that claimed it, before its enqueue |
| Cron.LostStaysLost | internal/scheduler/cron.go:150-174 | No server ever enqueues a window that was lost |
| Cron.JobIdsNeverRepeat | internal/scheduler/cron.go:159-159 | No two cron jobs of the same or of different entries get the same id |
| Cron.JobIdInjective | internal/scheduler/cron.go:159-159 | The id determines entry name and window, colons in names included |
| Cron.DecimalReadsBack | internal/scheduler/cron.go:159-159 | The text of a window reads back as the window, sign included |
| Ticks.Scheduler.SeedNextRuns | internal/scheduler/cron.go:105-115 | The stored times after seeding the entries in order, nothing enqueued |
| Ticks.Scheduler.CompareAndSwap | internal/scheduler/cron.go:186-210 | Swaps exactly when the stored value is the expected one, and otherwise changes nothing |
| Ticks.Scheduler.Tick | internal/scheduler/cron.go:117-182 | The stored times after one uninterrupted tick, and the queue after the enqueues of its jobs in order |
| Ticks.Scheduler.constructor | internal/scheduler/cron.go:65-86 | Nothing is stored yet; an entry without a queue gets the default one and is otherwise kept |
| Ticks.SeedKeeps | internal/scheduler/cron.go:105-115 | Seeding changes no stored time and gives every other entry exactly the next run of its schedule after now |
| Ticks.FirstWindowAfterSeed | internal/scheduler/cron.go:105-182 | Ticks before an entry's first run after seeding enqueue nothing for it, and the first tick at or after that run enqueues exactly that window |
| Ticks.SeedsAreOneCall | internal/scheduler/cron.go:105-115 | The interleaved steps of a seeding run without interruption are the sequential seeding |
| Ticks.TickEnqueuesOnePerDue | internal/scheduler/cron.go:117-182 | One tick enqueues exactly one job for each due entry, however many windows it missed, and none for the rest |
| Ticks.TickJobsMatch | internal/scheduler/cron.go:159-170 | The jobs a tick enqueues are those of its windows, one for one and in order, with the entry's kind, payload and queue, priority 5, 3 retries and the id of entry and window |
| Ticks.AloneIsOneTick | internal/scheduler/cron.go:117-182 | The interleaved steps of a tick run without interruption are the sequential tick |
| RateLimit.Limiter.Allow | internal/ratelimit/limiter.go:78-95 | For any maximum and interval, the answer, the bucket and the expiry the script leaves for this kind; other kinds' buckets are untouched |
| RateLimit.AllowedIff | internal/ratelimit/limiter.go:39-72 | A call is allowed if and only if, counted from every call up to it, the calls allowed so far and itself fit into max + elapsed * max / interval, whatever the clocks |
| RateLimit.FullBurst | internal/ratelimit/limiter.go:49-58 | The first max calls are allowed, however close together |
| RateLimit.RemainingIsExact | internal/ratelimit/limiter.go:57-65 | The remaining count is how many more calls the same instant has room for |
| RateLimit.DegenerateRates | internal/ratelimit/limiter.go:39-72 | With a maximum below one no call is ever allowed; with a maximum of one or more and an interval below a millisecond every call is |
| RateLimit.WindowBound | internal/ratelimit/limiter.go:39-72 | The calls allowed in any stretch whose clocks stay in a window number at most max + length * max / interval |
| RateLimit.BoundUnderSkew | internal/ratelimit/limiter.go:39-72 | Whatever the callers' clocks, the calls allowed from any call up to an allowed one are bounded by the time its clock shows after the first |
| RateLimit.DeniedLeavesNoTrace | internal/ratelimit/limiter.go:53-71 | Leaving out a denied call changes the answer of no other call, whatever the clocks |
| RateLimit.RetryHintIsExact | internal/ratelimit/limiter.go:67-71 | After a denial every call before the hint has passed is denied and any later one is allowed, denied calls in between included |
| RateLimit.ExpiryChangesNothing | internal/ratelimit/limiter.go:63-70 | A bucket that expires after twice the interval gives the same answers as one that never does |

## Left out

- AtLeastOnce.NothingLost: excludes purges, which delete the hashes of dead jobs and so can leave other entries of a misdirected job without one; StepNoneLost covers a purge as a single step.
- Heartbeat.HeldJobsAreSafe: holds before shutdown and while no server deletes the in-flight entry of a job it is running again; without that it is false, and DeleteSafeIff says so exactly. Sweeps use times no later than the shared clock.
- Chain.ChainRunsInOrder: excludes processes that stop midway, after which a chain stays where it is; EachStepOnce includes them.
- Group.CountsAreExact: assumes each task is reported once, as ReportedOnce gives for fenced runs, and none fails; failures are in FailedStaysIff and GroupInSequence.
- Chord.RightIffSafe: about chords no header of which fails; a failed header leaves its chord without a callback, as CallbackOnlyAfterAll says.
- Draining.ReadyAtOriginalPriority: about a job that is not enqueued again under the same id, which would set a new priority.
- NotBefore.NeverBeforeItsTime: assumes clients whose readings lie on a shared clock; sorted-set scores are integers here.
- Backoff.OneSecondExact: from attempt 63 on, the conversion of 2^attempt to 64 bits is taken as it is on amd64, where it gives the smallest integer.
- RateLimit.Limiter.Allow: tokens are exact reals instead of doubles; a denial whose hint would be a division by zero has no hint here; key expiry goes by the caller's clock.
- Ticks.Scheduler.Tick: the class is one server alone; failing and stopping ticks are in Cron.
- Cron.AtMostOncePerWindow: the parser's schedule is a function with a later, whole-millisecond next run for every time; a date that never comes is not modelled, nor JSON: a stored state is its number.
- Server.Server.BuildStrictQueues: the library sort is an insertion sort; its contract allows any order of equal weights.
- Server.Server.PollWeightedPass: the queues change only through the pass itself, and a dequeue that fails has not run; one whose reply alone is lost leaves an active job to recovery.
- RedisQueue.Queue.Enqueue: the state argument is always pending, as every caller passes it.
- Key names: taken to be disjoint. They are not for every queue name: the ready set of a queue named stats and the counters of a queue named ready are both `winter:stats:ready` (`internal/queue/queue.go:30-35`).
- Redis itself: transport, pipelining and script loading; each script is one step that succeeds, and the expiry of a unique key is a step that may happen at any time.
- Worker registry and worker job sets: nothing reads them and recovery does not maintain them.
- Decoding of job records, pagination of dead jobs, results and waiting for them.
- Handlers, middleware, hooks and logging; a handler is its outcome.
- The drain at shutdown, the 7-day life of workflow records, and retrying dead jobs of a workflow.
- gRPC server, command line, configuration, examples and test helpers.
