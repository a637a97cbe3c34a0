# Agent protocols, modelled and verified

The Agent of the stability platform is a set of small concurrent protocols: shared state
under locks, threads that take the locks several times in one operation, replies that may
be anything, and crashes. Each module here models one of them.

A module has up to three layers:

1. the state as a value, and one function per lock region (or other atomic step);
2. a class with the program's own fields, whose methods perform those regions and are
   proved against the functions, or against the property itself;
3. a system `Sys` with all threads, a total step function `Next`, and runs `Exec` over any
   sequence of events. An event that cannot happen changes nothing, so a statement about
   all event sequences is a statement about all interleavings.

Where a promise holds only under a condition, the module gives the condition as a guard on
the state before the step, proves for single steps and for whole runs that the promise holds
if and only if the guard is never met, and adds a run that meets it.

| module | protocol |
|---|---|
| Scheduler | permits: slot accounting, queue order, cancellation, shutdown |
| Occupancy | which job occupies which device; fencing; lease loss |
| TerminalOutbox, OutboxDrain | terminal facts: report, clean-up, drain, dead letters, deferrals |
| StepTrace | the step-trace cursor, attempts, dead letters |
| EventUploader | copy, verify, acknowledge, prune |
| ScanQueue, ReturnDebts | queue and worker |
| Barrier, Disarm, LineSplitter | phase barrier, disarm teardown, output reader |
| SocketBuffer | bounded buffer with replay, log rate limit |
| ToolCache | the archive check and the file tree it protects |
| Options | an optional value, shared by the others |

## Where the code keeps less than its comments say

Each is a theorem with the exact condition and a run:

- Permits are backed by slots only while no device has two acquires in flight: the
  cancellation flag is kept per device, not per call (`Scheduler.AccountingRunExact`).
- `handle_lease_lost` keeps the device occupied only if the id is still active; the renewer
  discards the id first, so in production the device is freed while the worker runs
  (`Occupancy.LossKeepsDeviceUntilExit`, `Occupancy.LeaseLossRunsTwoWorkers`). The discard
  after a failed submission, the claim's pre-occupation and the lease-loss clean-up do not ask
  who owns the device, and a late release frees the one a re-claim of its own job has just
  pre-occupied (`Occupancy.SecureRunExact`, `Occupancy.LateReleaseExact`).
- The recovery record is deleted when any outbox row stands for the job, also one of an
  earlier attempt with another payload (`TerminalOutbox.NoFactVanishesExact`,
  `TerminalOutbox.SecondFactVanishes`).
- A deferral binds a drain only if it is written before that drain's look-up, and it can be
  removed by one that read its expired predecessor or an older list of live rows
  (`OutboxDrain.DeferralRunExact`). The attempts that lead to a dead letter include the
  transient ones: the first permanent refusal after nine overload replies is final
  (`OutboxDrain.RowsRun`).
- The step-trace view is ordered by timestamp, the cursor by id (`StepTrace.EveryWriteExact`,
  `StepTrace.CursorSafeAtRestExact`).
- A half-removed local event directory makes the next upload delete the only full copy
  (`EventUploader.SafeAtRestExact`). The digest has no delimiters, so another tree can pass
  for the event's copy (`EventUploader.TreeKeptExact`).
- The put-back of the scan worker can overwrite a newer request (`ScanQueue.QueueRunExact`).
- A family that the server lists twice for a debt runs twice in one pass
  (`ReturnDebts.PassExact`, `ReturnDebts.DueDistinctExact`).
- An arrival counted for a job that is not registered for the host can be lost with the
  projection (`Barrier.ArrivalStaysExact`, `Barrier.UnregisteredArrivalForgotten`).
- A loss marked between the check and the start of a disarm attempt comes too late, and a
  job without a device id is not checked (`Disarm.NoStartAfterLoss`, `Disarm.NoDeviceNoCheck`).
  A regressed server clock stamps a passed deadline with the present, which is later but
  still over (`Disarm.DeadlineLaterExact`).
- A forced break can carry a line feed inside (`LineSplitter.ForcedPieceHidesLine`).

## Model

| member | source | states |
|---|---|---|
| `Scheduler.OperationScheduler.WakeOneLocked` | backend/agent/operation_scheduler.py:272-283 | promotes from the head of the queue exactly as many waiters as there are free slots, charges each slot before the waiter runs, and names the waiters it signalled; nothing after shutdown |
| `Scheduler.OperationScheduler.ReleasePendingHandoffLocked` | backend/agent/operation_scheduler.py:264-270 | a slot reserved for the device is given back exactly once: from exact accounting to exact accounting with one slot less, no other reservation or slot touched, and nothing at all when none is reserved |
| `Scheduler.OperationScheduler.AcquireEnter` | backend/agent/operation_scheduler.py:184-211 | the first lock region: a permit at once only with a free slot, nobody waiting and nothing held by the device; otherwise a place at the end of the queue, or a refusal |
| `Scheduler.OperationScheduler.AcquireTimedOut` | backend/agent/operation_scheduler.py:220-231 | a call that times out leaves no entry, slot, reservation or mark behind, other entries stay and the accounting stays exact; a call overtaken by promotion, cancellation or shutdown changes nothing |
| `Scheduler.OperationScheduler.AcquireResolve` | backend/agent/operation_scheduler.py:233-256 | the last lock region: shutdown, then cancellation (giving a reserved slot to the next waiter), then hand-over |
| `Scheduler.OperationScheduler.Release` | backend/agent/operation_scheduler.py:258-262 | frees the slot and passes it on |
| `Scheduler.OperationScheduler.CancelDevice` | backend/agent/operation_scheduler.py:285-302 | the queue entry is removed and the device marked if it waits or has a slot reserved; otherwise nothing changes |
| `Scheduler.OperationScheduler.SetMaxConcurrent` | backend/agent/operation_scheduler.py:160-166 | the cap is at least one; growing it promotes |
| `Scheduler.OperationScheduler.Shutdown` | backend/agent/operation_scheduler.py:304-311 | empties the queue and returns everyone to be signalled |
| `Scheduler.AccountingStepExact` | backend/agent/operation_scheduler.py:174-315 | from any state with exact slot accounting (held equals the held devices, which are the live permits and the pending handoffs, disjoint, and disjoint from the waiters), a step keeps it if and only if it does not hand out a permit to a device without a pending handoff |
| `Scheduler.AccountingRunExact` | backend/agent/operation_scheduler.py:174-315 | over any run, without any assumption on callers: the accounting holds throughout if and only if no such permit is handed out |
| `Scheduler.FifoStep` | backend/agent/operation_scheduler.py:160-166 | every step keeps promotions followed by the queue in ticket order, and never leaves a slot free while somebody waits |
| `Scheduler.DisciplinedNeverUnbacked` | backend/agent/operation_scheduler.py:233-256 | with at most one acquire in flight per device no permit is handed out without a slot |
| `Scheduler.ThreadsStep` | backend/agent/operation_scheduler.py:174-256 | every call in flight stays tied to a queue entry, a reservation or a cancellation mark, and is signalled once it is out of the queue |
| `Scheduler.RunKeepsInv` | backend/agent/operation_scheduler.py:174-315 | accounting, order, work conservation and wake-up delivery hold after every disciplined run |
| `Scheduler.StaleCancellationRun` | backend/agent/operation_scheduler.py:239-256 | the run in which a second acquire of the same device consumes the cancellation of the first |
| `Scheduler.StaleCancellationEnd` | backend/agent/operation_scheduler.py:239-256 | that run breaks the one-acquire rule and ends with a live permit and no held slot |
| `Scheduler.GrantsWithinCap` | backend/agent/operation_scheduler.py:200-206 | any step that gives a device a slot leaves the count within the current cap, also after shrinking |
| `Scheduler.NoBarging` | backend/agent/operation_scheduler.py:200-206 | a call that gets its permit at once overtakes no call that still waits |
| `Scheduler.PromotionsInQueueOrder` | backend/agent/operation_scheduler.py:272-283 | over every disciplined run from the start, promotions are in queueing order and never pass a waiter |
| `Scheduler.OutcomeIsFinal` | backend/agent/operation_scheduler.py:213-256 | each acquire in flight ends in exactly one outcome, which never changes |
| `Scheduler.CancelAfterHandoffIsNoop` | backend/agent/operation_scheduler.py:293-300 | cancelling a device that holds its permit changes nothing |
| `Scheduler.CancelledNeverGranted` | backend/agent/operation_scheduler.py:239-256 | once a cancellation reaches a call, no continuation grants it |
| `Scheduler.CancelReachesCall` | backend/agent/operation_scheduler.py:285-302 | a cancellation of a device with a call in flight, waiting or promoted, reaches it: no disciplined continuation ends it with a permit or a timeout |
| `Scheduler.DequeuedCallFinishes` | backend/agent/operation_scheduler.py:233-256 | a call that is out of the queue can finish by its own steps, with its permit exactly when neither cancelled nor shut down, also after a timed-out wait |
| `Scheduler.ExpiredCallGivesUp` | backend/agent/operation_scheduler.py:213-231 | a queued call whose wait expires ends as a timeout and leaves the queue, exactly if it was neither promoted, cancelled nor shut down |
| `Scheduler.ShutdownGrantsNothing` | backend/agent/operation_scheduler.py:304-311 | after shutdown no run adds a permit, a held device or a slot |
| `Scheduler.ShutdownReleasesEveryCall` | backend/agent/operation_scheduler.py:304-311 | after shutdown every call in flight can finish as a shutdown by its own steps |
| `Scheduler.QuiescentSlots` | backend/agent/operation_scheduler.py:258-262 | with no call in flight the held slots are the live permits, so none is held once they are released |
| `ToolCache.PassesLink` | backend/agent/tool_cache.py:130-137 | finds whether a path runs through a link of the archive |
| `ToolCache.ArchiveRejection` | backend/agent/tool_cache.py:107-138 | rejects nothing if and only if every member is acceptable, paths are unique and no member lies on or below a link of another; a reason given is true of a member of that name |
| `ToolCache.ArchiveSoundness` | backend/agent/tool_cache.py:198-204 | extracting an accepted archive into an empty directory, following links as the file system does, writes each member at its own literal path and touches nothing outside; it fails if and only if a file stands in the way of another member or a name cannot be created |
| `ToolCache.AcceptsReordered` | backend/agent/tool_cache.py:107-138 | acceptance does not depend on member order |
| `ToolCache.OrderIrrelevant` | backend/agent/tool_cache.py:198-204 | any two orders of an accepted archive give the same tree, or both fail |
| `ToolCache.MembersStand` | backend/agent/tool_cache.py:126-138 | every extracted member other than a directory stands at its own path strictly below the root |
| `ToolCache.LinksStayBelow` | backend/agent/tool_cache.py:97-102 | after an accepted archive is extracted, following a relative link of it leads to its own directory or below, through any links that are not absolute |
| `ToolCache.RelativeArchiveIsClosed` | backend/agent/tool_cache.py:97-102 | an accepted archive whose links are all relative is closed: no link of it leads out of its own directory |
| `ToolCache.UpwardLinkRejected` | backend/agent/tool_cache.py:97-102 | an archive with a link whose target starts upwards is rejected |
| `ToolCache.UpwardLinkLeaves` | backend/agent/tool_cache.py:97-102 | following such a link from the extraction root leads out of it |
| `ToolCache.AbsoluteLinkAccepted` | backend/agent/tool_cache.py:98-99 | a link to an absolute place is accepted whatever its target |
| `ToolCache.LinkThenFileEscapes` | backend/agent/tool_cache.py:107-138 | checking members one by one would not do: a link and a file below it both pass and the file lands outside the root |
| `ToolCache.SameNameOverwrites` | backend/agent/tool_cache.py:107-138 | nor without the test on repeated paths: a link and a file of one name both pass and the file overwrites what the link names |
| `Occupancy.HostOccupancy.RegisterActiveJob` | backend/agent/active_job_bindings.py:71-93 | after a registration the clearing call under the same lease and worker token recognises the job and hands back its device, the device is its own, and no other job, device or abort changes |
| `Occupancy.RegisterExitRoundTrip` | backend/agent/active_job_bindings.py:71-93 | registering an unknown job on a free device and exiting under the same tokens restores every table |
| `Occupancy.HostOccupancy.ClearFencingTokenIfCurrent` | backend/agent/lease_renewer.py:170-191 | clears the job's fencing entries and returns its device exactly under the lease and worker tokens they were set with |
| `Occupancy.HostOccupancy.CleanupAfterJobExit` | backend/agent/recovery_executor.py:120-155 | unregisters, and frees the leased device, exactly if the worker's token is the job's current one |
| `Occupancy.HostOccupancy.ReleaseWorker` | backend/agent/job_runner.py:128-170 | the worker's own region: the device is freed unless its job is registered under another token or another job has it; the abort goes unless it is another attempt's |
| `Occupancy.HostOccupancy.Release` | backend/agent/job_runner.py:128-170 | the current worker frees its device, also after the fencing maps were cleared; one whose job is registered no more does unless another job has the device; a superseded worker changes no occupation and no abort |
| `Occupancy.HostOccupancy.RequestAbort` | backend/agent/job_runner.py:119-126 | an abort is recorded if and only if the id is active |
| `Occupancy.HostOccupancy.HandleLeaseLost` | backend/agent/recovery_executor.py:61-117 | one call: an abort is recorded and the device kept if and only if the id is still active, otherwise the device is freed |
| `Occupancy.HostOccupancy.RenewerLeaseLost` | backend/agent/lease_renewer.py:193-215 | through the renewer the id is gone before the callback: an abort is never dispatched and the device is freed at once |
| `Occupancy.BaseStep` | backend/agent/lease_renewer.py:133-191 | every step keeps the token and device maps consistent with the attempts that wrote them |
| `Occupancy.RegisterExact` | backend/agent/active_job_bindings.py:79-93 | a registration keeps every registered job in possession of its device if and only if no other job holds it |
| `Occupancy.ReleaseExact` | backend/agent/job_runner.py:136-170 | a release takes a registered job's device away if and only if that job is registered under the releasing worker's own token |
| `Occupancy.JobExitSafe` | backend/agent/recovery_executor.py:139-155 | the exit clean-up never frees a device of another job |
| `Occupancy.FreeExact` | backend/agent/recovery_executor.py:52-58 | the lease-loss clean-up does so if and only if another job has taken the device |
| `Occupancy.DiscardExact` | backend/agent/claim_loop.py:170-177 | the discard after a failed submission does so if and only if some job holds the device |
| `Occupancy.RollbackExact` | backend/agent/recovery_executor.py:190-205 | so does the roll-back of a failed registration |
| `Occupancy.SecureStepExact` | backend/agent/claim_loop.py:79-177 | the exact tests under which any step of claim, register, roll-back, RESUME, lease loss, clean-up or exit leaves a registered job without its device or a claim without the one it pre-occupied |
| `Occupancy.OwnedStepExact` | backend/agent/job_runner.py:128-170 | for any job and any device it owns, the exact tests under which a step takes that device away |
| `Occupancy.ClaimStepExact` | backend/agent/claim_loop.py:83-96 | a pre-occupied device stays with its claim through a step if and only if the step does not take it away from that job |
| `Occupancy.SecureRunExact` | backend/agent/claim_loop.py:79-177 | over every interleaving, registered jobs keep their devices and claims their pre-occupied ones throughout if and only if no such step is taken |
| `Occupancy.OneJobPerDevice` | backend/agent/claim_loop.py:83-93 | in such runs no device is held by two registered jobs or by one and the claim of another, and no claim takes a registered job's device |
| `Occupancy.LateReleaseExact` | backend/agent/job_runner.py:136-170 | a late release takes no device of a job registered under another token; it frees a device pre-occupied by a re-claim if and only if it is the same job on the same device and no other token is registered; and its own device if and only if no other token is |
| `Occupancy.OwnedUntilExitExact` | backend/agent/job_runner.py:128-170 | an owned device stays so through every continuation up to a worker's last exit region if and only if no step of it takes the device away |
| `Occupancy.LossKeepsDeviceUntilExit` | backend/agent/recovery_executor.py:61-117 | after a lease loss with a dispatched abort the device stays the job's through every continuation up to the worker's last region if and only if no other step takes it, and that region then frees it if and only if the job has no other token |
| `Occupancy.LifeLeavesNothing` | backend/agent/claim_loop.py:79-177 | a job that is claimed, works, is aborted and exits, one that loses its lease meanwhile, and one whose submission or registration fails: each ends with every table as before the claim |
| `Occupancy.ResumeStarts` | backend/agent/recovery_executor.py:357-430 | a resumed job is registered, fenced, queued and started like a claimed one |
| `Occupancy.SubmitFailureDoubleBooks` | backend/agent/claim_loop.py:170-177 | a failed submission followed by a RESUME elsewhere ends with two registered jobs on one device |
| `Occupancy.LeaseLossRunsTwoWorkers` | backend/agent/lease_renewer.py:193-215 | after a lease loss a second worker starts on the device while the first still works |
| `Occupancy.LateReleaseOpensClaim` | backend/agent/job_runner.py:161-170 | a late release between a re-claim's pre-occupation and its registration frees the pre-occupied device |
| `OutboxDrain.DeferralBounds` | backend/agent/outbox_drainer.py:317-339 | a deferral is at least Retry-After (section 10.2.3 of RFC 9110) and at most a quarter more, the cap when Retry-After is longer, and never above the cap; the first one without Retry-After is at most 15 seconds |
| `OutboxDrain.BackoffDoubles` | backend/agent/outbox_drainer.py:317-339 | without Retry-After the range of the draw doubles with every failed attempt, up to the cap |
| `OutboxDrain.ClassifyExact` | backend/agent/outbox_drainer.py:199-310 | the chain of status tests settles, refuses or retries every reply exactly by these conditions |
| `OutboxDrain.OutboxDrainThread.RetainOrDeadLetter` | backend/agent/outbox_drainer.py:89-113 | charges an attempt and dead-letters exactly at the tenth |
| `OutboxDrain.OutboxDrainThread.DrainEntry` | backend/agent/outbox_drainer.py:184-310 | one row, in terms of the reply itself: skipped while deferred; acked exactly on a status that is no error, a 409 without payload conflict whose job is terminal, or a 404 that names the missing job; dead-lettered exactly on the tenth failed attempt or later if that is any other 4xx but 408 and 429; put off for at least Retry-After and never beyond the cap |
| `OutboxDrain.OutboxDrainThread.PruneDeferrals` | backend/agent/outbox_drainer.py:147-169 | a deferral survives if and only if its row is pending, unchanged, so a pass after it skips the same pending rows |
| `OutboxDrain.OutboxDrainThread.DrainOnce` | backend/agent/outbox_drainer.py:171-315 | a pass answers each row of the page once or skips it, touches no other row, and returns the number of rows it sent |
| `OutboxDrain.RowsRun` | backend/agent/outbox_drainer.py:89-113 | over any interleaving a row is acked if and only if one of its replies settled it or its own report got through, its attempts are the replies that did not, and it is dead if and only if the server refused it at or after the tenth of them |
| `OutboxDrain.OverloadNeverKills` | backend/agent/outbox_drainer.py:267-310 | no run of 408, 429, 5xx and network failures dead-letters a row or acks it |
| `OutboxDrain.RefusedRowWaits` | backend/agent/outbox_drainer.py:275-291 | a row refused with Retry-After is put off for at least that long, up to the cap, and never beyond the cap |
| `OutboxDrain.DeferralRunExact` | backend/agent/outbox_drainer.py:147-199 | over any interleaving of look-ups, removals, posts, replies and prunes no row is posted before a time it was put off to if and only if no thread posts one whose unexpired deferral was written after its look-up or was lost from the table |
| `OutboxDrain.SingleDrainOnTime` | backend/agent/outbox_drainer.py:184-193 | a single drain never posts early |
| `OutboxDrain.TwoLookUpsPostEarly` | backend/agent/outbox_drainer.py:184-199 | two drains that both looked a row up before one was refused: the other posts at once |
| `OutboxDrain.StalePopPostsEarly` | backend/agent/outbox_drainer.py:184-193 | a drain removes, on the strength of an expired entry it read, the deferral another has written since |
| `OutboxDrain.StalePruneLosesDeferral` | backend/agent/outbox_drainer.py:147-169 | a prune that listed the live rows before a row was queued removes that row's deferral |
| `TerminalOutbox.LocalStore.EnqueueTerminal` | backend/agent/registry/local_db.py:647-680 | accepts a fact if and only if the write works and no other payload stands for the job |
| `TerminalOutbox.LocalStore.PostWithRetry` | backend/agent/api_client.py:164-236 | succeeds if and only if some post is accepted before a conflict and within the attempts |
| `TerminalOutbox.LocalStore.CompleteJob` | backend/agent/api_client.py:315-391 | confirmed, deferred or lost; lost if and only if the local write was refused and no post got through |
| `TerminalOutbox.LocalStore.CleanupRecord` | backend/agent/recovery_executor.py:156-167 | a record is deleted only for an active job for which a row stands, is kept otherwise and reported so, and no other job's record changes |
| `TerminalOutbox.LocalStore.DeleteRecovered` | backend/agent/recovery_executor.py:310-354 | a recovery sync deletes a record if and only if its job was reported and is either settled for the server or no longer on the relisted page |
| `TerminalOutbox.WholeReport` | backend/agent/api_client.py:315-391 | a worker's whole report for a job without a row: the fact is in a row exactly if the write was accepted, acknowledged exactly if its post also got through, and the record is given up exactly if there is a row |
| `TerminalOutbox.DrainDelivers` | backend/agent/outbox_drainer.py:184-310 | a drain delivers a pending row exactly if the reply settles it, and counts an attempt otherwise |
| `TerminalOutbox.RecoveryExact` | backend/agent/recovery_executor.py:310-354 | a recovery sync gives up a reported record exactly if the server has nothing left to do or the row is off the page it lists after its drain |
| `TerminalOutbox.SafeStepExact` | backend/agent/recovery_executor.py:156-167 | the exact tests (write refused, row and record present, how the last report ended, equality of payloads) under which a step loses a finished fact or marks an undelivered one as delivered |
| `TerminalOutbox.NoFactVanishesExact` | backend/agent/recovery_executor.py:310-354 | over every interleaving with crashes, failures and recovery syncs, every finished fact stays settled, stored or recoverable if and only if no such step is taken |
| `TerminalOutbox.CleanAttemptsNeverVanish` | backend/agent/recovery_executor.py:310-354 | if every job is taken up with nothing of an earlier attempt left, no clean-up, drain, prune, recovery deletion or crash loses a fact, whatever fails |
| `TerminalOutbox.SecondFactVanishes` | backend/agent/recovery_executor.py:156-167 | a job taken up again while a row of an earlier attempt stands: the new fact, refused by the outbox and not accepted by the server, is lost when the clean-up deletes its record |
| `EventUploader.DigestDecidesShape` | backend/agent/event_uploader.py:802-818 | for trees with equal name and size lengths equal digest input means equal trees |
| `EventUploader.DigestIgnoresBorders` | backend/agent/event_uploader.py:802-818 | in general it does not: a byte can move from content into the name |
| `EventUploader.EventFiles.UploadOne` | backend/agent/event_uploader.py:445-556 | the event becomes remote, and is pruned as asked, exactly with a good copy (there already, or made without an error and of the same digest) and an acknowledgement; without a good copy an attempt is charged; an intact local directory is never lost |
| `EventUploader.OneUploadStep` | backend/agent/event_uploader.py:392-443 | unless a retry timer fires before its worker has left, there is at most one upload of an event |
| `EventUploader.NothingLost` | backend/agent/event_uploader.py:445-556 | over every run with crashes, re-enqueues and corrupt copies a tree with the event's digest is at hand locally or remotely, if the local removal is atomic and no timer fires early |
| `EventUploader.TreeKeptExact` | backend/agent/event_uploader.py:492-543 | in every such run in which only certain trees ever appear on the store, the event itself is kept if and only if none of them is another tree with the event's digest |
| `EventUploader.NothingLostOfShape` | backend/agent/event_uploader.py:802-818 | hence it is when what appears there has as many files with names and contents of the same lengths |
| `EventUploader.DeleteAfterAck` | backend/agent/event_uploader.py:492-543 | a step that changes the local directory follows equal digests and a 2xx REMOTE acknowledgement |
| `EventUploader.SafeAtRestExact` | backend/agent/event_uploader.py:492-520 | at rest, an event stays kept through all clean runs if and only if its local directory is intact or gone |
| `EventUploader.RemnantDestroysCopy` | backend/agent/event_uploader.py:492-520 | a remnant of a half-removed directory makes the next upload delete the only full copy |
| `EventUploader.TornRemovalLosesEvent` | backend/agent/event_uploader.py:520-543 | from the start, a torn local removal leads to that remnant and the next upload to the loss |
| `EventUploader.EarlyFireUploadsTwice` | backend/agent/event_uploader.py:431-443 | a timer that fires early lets two uploads of the event run |
| `EventUploader.LastFailureReleases` | backend/agent/event_uploader.py:392-443 | an upload that fails for the last time leaves the event free to be enqueued again |
| `StepTrace.StepTraceUploader.BumpOrDeadLetterBatch` | backend/agent/step_trace_uploader.py:283-296 | charges an attempt to exactly the given rows, dead-lettering at the tenth |
| `StepTrace.StepTraceUploader.ResolveRejectedBatch` | backend/agent/step_trace_uploader.py:220-281 | acks the rows before the first that is neither stored nor rejected with 404 or 409, charges the rest, and moves the cursor only when all are acked |
| `StepTrace.StepTraceUploader.UploadOnce` | backend/agent/step_trace_uploader.py:186-218 | one round: exactly the first n rows of the page are acked and the rest charged, n is returned, the cursor moves only when all are, and a round fails exactly if its status is an error other than 404 and 409 |
| `StepTrace.StepTraceUploader.DrainSync` | backend/agent/step_trace_uploader.py:123-135 | the blocking drain leaves a row waiting only after a failed round or one whose first row was refused, and returns the number of rows acked |
| `StepTrace.RejectedRoundRun` | backend/agent/step_trace_uploader.py:220-281 | the step-wise system does the same for a lone rejected round |
| `StepTrace.RefusedRoundRun` | backend/agent/step_trace_uploader.py:204-212 | and for a refused one: every row charged, cursor left |
| `StepTrace.SettledBatchExact` | backend/agent/step_trace_uploader.py:214-216 | after a settled batch the cursor has passed no unresolved row if and only if no waiting row outside the batch lies below its largest id |
| `StepTrace.EveryWriteExact` | backend/agent/step_trace_uploader.py:213-216 | at every single write of the cursor within a round it has passed no unresolved row if and only if no waiting row has a smaller id and a later timestamp than a row of the batch |
| `StepTrace.CursorSafeAtRestExact` | backend/agent/step_trace_uploader.py:186-218 | from rest, the cursor is safe at every point of every run, whose new rows are not older than those that wait, if and only if the timestamps of the unresolved rows follow their ids |
| `StepTrace.DrainsWithinTenRoundsPerRow` | backend/agent/step_trace_uploader.py:123-135 | without producers at most ten non-empty rounds per unresolved row; when none is left to do every row is acked or dead |
| `StepTrace.PageExists` | backend/agent/registry/local_db.py:474-485 | while a row waits above the cursor there is a batch to work on |
| `StepTrace.CursorNeverPasses` | backend/agent/step_trace_uploader.py:186-303 | with timestamps of unresolved rows that follow their ids, the cursor never passes an unresolved row, for any number of concurrent drains interleaved down to reads and writes of the cursor |
| `StepTrace.LateStampIsPassed` | backend/agent/registry/local_db.py:474-485 | with timestamps against ids it does: the view is ordered by timestamp |
| `LineSplitter.NormIsBothReplacements` | backend/agent/pipeline_engine.py:507-507 | one-pass normalisation equals the two replacements |
| `LineSplitter.ChunkingMattersExact` | backend/agent/pipeline_engine.py:507-507 | normalising chunk by chunk agrees with normalising the stream if and only if no CRLF pair straddles two chunks |
| `LineSplitter.Reader.DrainPolling` | backend/agent/pipeline_engine.py:488-520 | the pieces handed over for a list of chunks |
| `LineSplitter.OutputIsStream` | backend/agent/pipeline_engine.py:507-520 | for every chunking the output is the normalised stream up to forced line feeds; for text without carriage returns it is the stream |
| `LineSplitter.PendingBounded` | backend/agent/pipeline_engine.py:507-518 | after every read at most the budget is held back, without a line feed, and no piece exceeds the budget |
| `LineSplitter.ChunkIndependence` | backend/agent/pipeline_engine.py:516-518 | without forced breaks and cut pairs the lines do not depend on the chunking |
| `LineSplitter.ForcedPieceHidesLine` | backend/agent/pipeline_engine.py:512-515 | a read hands over two lines as one if and only if the buffer overflows and a line feed lies before the cut |
| `LineSplitter.CaptureSink.HandleLine` | backend/agent/pipeline_engine.py:573-622 | progress lines are never captured, others until the budget is reached |
| `LineSplitter.CaptureSink.CaptureAll` | backend/agent/pipeline_engine.py:612-622 | captured text of a stream is below twice the budget |
| `LineSplitter.CaptureBounded` | backend/agent/pipeline_engine.py:612-622 | and is the output itself while within the budget |
| `LineSplitter.StreamCaptureBounded` | backend/agent/pipeline_engine.py:488-622 | for a whole stream read in chunks of less than the budget: captured text is below twice the budget, and is the normalised stream while that is within the budget and no line was of progress or broken by force |
| `SocketBuffer.SocketClient.AppendLocked` | backend/agent/socketio_client.py:318-331 | keeps the newest messages and counts the drop |
| `SocketBuffer.SocketClient.PrependLocked` | backend/agent/socketio_client.py:278-292 | puts back in order, keeps the oldest, and counts the drops |
| `SocketBuffer.SocketClient.Emit` | backend/agent/socketio_client.py:300-316 | sent or buffered, never both |
| `SocketBuffer.SocketClient.ReplayBuffer` | backend/agent/socketio_client.py:243-276 | an undisturbed replay sends a prefix in order and puts the rest back unchanged |
| `SocketBuffer.NothingUnaccounted` | backend/agent/socketio_client.py:243-331 | over any interleaving each accepted message is in exactly one place, and accepted equals sent plus buffered plus in replay plus dropped |
| `SocketBuffer.BufferStaysInOrder` | backend/agent/socketio_client.py:243-292 | with one replay at a time the buffer keeps acceptance order through failed replays and overflow |
| `SocketBuffer.TwoReplaysReorder` | backend/agent/socketio_client.py:243-292 | two failing replays reverse it |
| `SocketBuffer.OutageLosesNothing` | backend/agent/socketio_client.py:243-316 | an outage with no more messages than the buffer holds loses none: after the reconnect they are sent, each once and in order |
| `SocketBuffer.LogLimiter.AllowLocked` | backend/agent/socketio_client.py:386-400 | under a positive limit a line is refused if and only if its window is still open and full, and one let through is counted in a window less than a second old and not over the limit |
| `SocketBuffer.AtMostTwicePerSecond` | backend/agent/socketio_client.py:386-400 | under a constant limit no second lets through more than twice the limit |
| `SocketBuffer.LimitIsUsed` | backend/agent/socketio_client.py:386-400 | as many lines as the limit allows pass in a fresh window |
| `ScanQueue.ScanRunner.EnqueueScanNow` | backend/agent/scan_runner.py:187-240 | the job is pending in place of any earlier one of its key, others stay, and the worker flag is set |
| `ScanQueue.ScanRunner.DequeueNext` | backend/agent/scan_runner.py:243-248 | takes the first |
| `ScanQueue.ScanRunner.Retire` | backend/agent/scan_runner.py:276-282 | the worker retires only on an empty queue, in the same region |
| `ScanQueue.OneWorker` | backend/agent/scan_runner.py:231-316 | in every reachable state there is one worker exactly when the flag is set |
| `ScanQueue.GoodStepExact` | backend/agent/scan_runner.py:256-316 | the exact guards under which a step strands, overwrites or loses a request |
| `ScanQueue.QueueRunExact` | backend/agent/scan_runner.py:256-316 | over every run, pending work is served and the newest request of each key is pending, held or begun, if and only if no guarded step is taken |
| `ScanQueue.ConfiguredHostServes` | backend/agent/scan_runner.py:256-316 | so it is on a configured host whose worker does not die |
| `ScanQueue.QueueDrains` | backend/agent/scan_runner.py:250-316 | undisturbed, the worker executes every pending request and retires |
| `ScanQueue.DeferOverwritesNewer` | backend/agent/scan_runner.py:284-294 | the put-back of an unconfigured host overwrites a newer request |
| `ReturnDebts.ReturnDebtConsumer.DueFamilies` | backend/agent/device_return.py:219-221 | the due families in order |
| `ReturnDebts.ReturnDebtConsumer.ScheduleDebts` | backend/agent/device_return.py:209-229 | one scheduling region, and whether a drainer is started |
| `ReturnDebts.PopOnce` | backend/agent/device_return.py:231-237 | taking a pass moves its device from the queue into execution, still in flight and nowhere twice; with an empty queue the drainer stops and no device is in flight |
| `ReturnDebts.OwedIsScheduled` | backend/agent/device_return.py:192-229 | scheduling queues every family that never ran, or not since the reconnection, or is retryable for half an hour, of every device that is ready, and a drainer is at work |
| `ReturnDebts.ResponseExact` | backend/agent/device_return.py:171-205 | after a response exactly the listed debts are in force, with their families; a debt keeps its history exactly if token and serial are the same, and one whose token was rejected does not come back |
| `ReturnDebts.RejectedForGood` | backend/agent/device_return.py:191-192 | a rejected token stays rejected over every run |
| `ReturnDebts.ConflictEndsPass` | backend/agent/device_return.py:272-280 | a conflict ends the pass, bars the token and drops the debt in force |
| `ReturnDebts.WholePass` | backend/agent/device_return.py:239-284 | an undisturbed pass runs each family once, records its result in this epoch, and lets the device go |
| `ReturnDebts.QueueRun` | backend/agent/device_return.py:209-244 | over every interleaving each device is in flight exactly when queued once or executing, queued work has a drainer, and there are never two |
| `ReturnDebts.SpacedStep` | backend/agent/device_return.py:171-284 | what is queued or running, and not listed earlier in its pass, may run: never run before for the debt, reconnected since, or retryable for half an hour |
| `ReturnDebts.RunsAreSpaced` | backend/agent/device_return.py:246-284 | when the server lists no family of a debt twice, no family is ever started too early |
| `ReturnDebts.SpacingRunExact` | backend/agent/device_return.py:192-284 | over every run, a family runs again only in a later connection epoch or half an hour after a retryable result, if and only if no pass starts a family it lists earlier and has just run |
| `ReturnDebts.PrematureExact` | backend/agent/device_return.py:246-284 | a start is too early if and only if the family occurs earlier in the same pass, in the same epoch and with no retryable result half an hour old |
| `ReturnDebts.PassExact` | backend/agent/device_return.py:246-284 | a whole pass within half an hour and without a reconnection starts a family too early if and only if its list repeats a family, whatever the results |
| `ReturnDebts.DueDistinctExact` | backend/agent/device_return.py:192-221 | the list of a pass repeats a family if and only if the server lists a due family twice |
| `Barrier.PlanRunHostView.SetBarrierTotal` | backend/agent/coordinator.py:72-92 | arming again for the same destination changes nothing; any other arming starts afresh |
| `Barrier.PlanRunHostView.ArriveAtBarrier` | backend/agent/coordinator.py:94-102 | counts, signals and answers from the total-th arrival on |
| `Barrier.PlanRunHostView.EnterWait` | backend/agent/coordinator.py:104-118 | passes exactly when the arming is complete, otherwise waits on its event |
| `Barrier.PlanRunHostView.ArriveAll` | backend/agent/coordinator.py:94-102 | of the first total arrivals exactly the last is told so |
| `Barrier.HostRunCoordinator.DeregisterJob` | backend/agent/coordinator.py:392-415 | drops the projection exactly with its last registered job |
| `Barrier.HostRunCoordinator.ReclaimStaleProjections` | backend/agent/coordinator.py:417-432 | a projection stays, unchanged, if and only if some job is registered for its host |
| `Barrier.NoEarlyRelease` | backend/agent/coordinator.py:104-118 | in any run a waiter released by a projection was released by an arming with all arrivals in |
| `Barrier.EveryWaiterReleased` | backend/agent/pipeline_engine.py:1577-1661 | in orderly runs, once a barrier is complete everyone blocked or still coming passes, and nobody is let through for want of a projection |
| `Barrier.CompletionStays` | backend/agent/coordinator.py:120-126 | completion survives re-arming for the same destination, advance and removal |
| `Barrier.ArrivalStaysExact` | backend/agent/coordinator.py:392-432 | over every run for one destination no counted arrival is subtracted, and the host still answers with the projection that holds them if and only if no deregistration or reclaim came while no other job was registered for it |
| `Barrier.RegisteredProtects` | backend/agent/coordinator.py:360-432 | a registered job protects the projection of its host until it is deregistered itself |
| `Barrier.WaiterReleasedExact` | backend/agent/coordinator.py:94-118 | after any run a blocked job can go on if and only if the arrivals counted on its projection have reached the total |
| `Barrier.UnregisteredArrivalForgotten` | backend/agent/job_runner.py:222-253 | two jobs at a barrier of two: the first arrives unregistered, a reclaim drops the projection, the second arrives on a new one and is blocked |
| `Disarm.DisarmWorker.RecordDisarm` | backend/agent/pipeline_engine.py:3034-3090 | a result reports lease loss if and only if the old one did or the new report does; a completed one is not replaced by a skip; other families are untouched |
| `Disarm.DisarmWorker.RefreshGuard` | backend/agent/pipeline_engine.py:3204-3228 | the deadline is no later than the old one or the present, queue and step times only shrink, and what the guard grants bounds them |
| `Disarm.DisarmWorker.RunStepWithRetry` | backend/agent/pipeline_engine.py:1881-1982 | attempts go on until one succeeds, they are used up, or a conflict is met; its result is the last one's, or the loss |
| `Disarm.LoneStep` | backend/agent/pipeline_engine.py:1881-1982 | the same of the step-wise system, from any attempt on, with checks and pauses as separate steps |
| `Disarm.WaitExact` | backend/agent/pipeline_engine.py:1740-1800 | however often it is turned away, a step waits for its permit exactly until its queue time, the deadline or its wall clock is over |
| `Disarm.GuardedWait` | backend/agent/pipeline_engine.py:1769-1774 | a guard read meanwhile only shortens the wait, to the time the server has left for the job; an old protocol leaves the step's wall clock |
| `Disarm.PermitExact` | backend/agent/pipeline_engine.py:1836-1864 | a permit is used exactly if it comes before these are over, also by a guard just read, and the lease is held |
| `Disarm.BudgetExact` | backend/agent/pipeline_engine.py:2012-2026 | a step's budget runs from its first attempt: a later one starts exactly before it and the deadline are over |
| `Disarm.CleanTeardown` | backend/agent/pipeline_engine.py:1676-1982 | with time, permits and the lease every enabled step runs and reports, and every disabled one reports that it was not executed |
| `Disarm.NoStartAfterLoss` | backend/agent/pipeline_engine.py:1676-1982 | over a whole teardown no disarm attempt starts once the loss is known if and only if none starts after a mark that fell between its check and its start |
| `Disarm.NoDeviceNoCheck` | backend/agent/pipeline_engine.py:1698-1704 | a job without a device id is not checked at all |
| `Disarm.LossIsFinal` | backend/agent/pipeline_engine.py:3077-3083 | the loss is never taken back and its result never overwritten, over every run |
| `Disarm.DeadlineLaterExact` | backend/agent/pipeline_engine.py:3204-3228 | no step of a teardown moves the deadline later if and only if none meets a server clock that regressed after the deadline had passed |
| `Disarm.DeadlinesOnlyTighten` | backend/agent/pipeline_engine.py:3204-3228 | over every run deadlines only move earlier, or are already over |
| `Disarm.StartsBeforeDeadlines` | backend/agent/pipeline_engine.py:2012-2026 | under the tail every attempt starts before every deadline ever in force for it |
| `Disarm.TeardownIsBounded` | backend/agent/pipeline_engine.py:3172-3202 | hence none starts a day after the teardown began, nor after queue time and budgets |

## Left out

- HTTP, SocketIO transport, subprocesses, adb, signals and file-system calls: their outcomes are event parameters, and any outcome is allowed.
- Fencing and worker tokens are numbers; the empty token, which the code treats as absent in `clear_fencing_token_if_current`, `_handle_lease_lost` and `_cleanup_after_job_exit`, does not occur. A worker token stands for one attempt, as `_make_local_worker_token` derives it.
- Occupancy: jobs without a device id; the runner map and the abort flag's effect on the pipeline; a duplicate submission of a running worker token, which returns at once.
- The LocalDB is a table with ascending ids and one terminal row per job; each of its calls is atomic, and a failing call is a parameter where the code reacts to it.
- TerminalOutbox: each attempt reports a payload of its own, because the token in it rotates; the page of pending rows that a recovery sync lists again may be any set; the abort jitter; what the server does with a fact after a 2xx.
- OutboxDrain: rows are kept for ever there (pruning is part of TerminalOutbox); the retain branch is a single step; parsing of response bodies yields the fields of `Reply`.
- Python treats a status below 400 as success, and one of 600 or more raises nothing either, so both settle a row; the model does the same.
- StepTrace: the growing wait between rounds and the pruning of old acked rows. Rows of equal timestamps come in the order of their ids, where the query leaves it open.
- EventUploader: spill flags, durable attempt counters, the queue bound and slots beyond refusing an enqueue; SHA-256 is taken as collision-free on its input stream; other writers to the same directories.
- EventUploader.NothingLost: the local `rmtree` is one step; what a partial one leaves behind is the subject of `SafeAtRestExact` and `TornRemovalLosesEvent`.
- LineSplitter: UTF-8 decoding; the Windows reader, the stall clock and the step log. Chunks are decoded text of less than the budget.
- SocketBuffer: `reset_dropped_count` (the dropped messages are counted from the start); log batching by job and its timer; the order on the wire between a replay and direct emits.
- ScanQueue: what a scan does, and its failure counters.
- ReturnDebts: the permit and the activity check are an early end of a pass; a debt object that is dropped and made anew under the same token starts without history, as in the code, so a rejected token can come back that way.
- Barrier: epochs and their persistence; the time-outs and peer-progress renewals of a wait are an event; the engine's removal of a projection by `deregister_plan_run_host` has no caller.
- Disarm: what a script reports is any value; the published evidence and its sequence numbers; collection steps; a permit that is held while the step runs. The last deadline check of an attempt and its start are one step.
- ToolCache: `ensure_package` beyond extraction (marker, digest, replacement of the cache directory), the `filter` argument of newer Python versions, case-insensitive file systems, hard links (rejected as special members).
- Metrics, logging, settings, heartbeat payloads, capacity thresholds and backoff formulas beyond the bounds above.
