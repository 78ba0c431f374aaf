# A verified model of the distributed web scraper

A supervisor fires cron jobs and pushes a payload per fire onto one Redis list; worker nodes pop payloads, scrape,
and write job rows in a shared Postgres database; workers send heartbeats, and the supervisor marks silent workers
offline and puts their jobs back on the list. This project models those parts in Dafny and proves what they keep,
separately and together:

- `Model.dfy`: job rows, payloads and the SQL updates that all processes share.
- `JobLedger.dfy`, `LedgerSafety.dfy`, `LedgerQuiescence.dfy`, `LedgerRuns.dfy`, `FreshPayloads.dfy`, `LedgerRows.dfy`: the protocol as a state machine with one
  action per database or queue operation. Fires, claims, executions, REST edits, requeues, failing writes, crashes of
  nodes and of the supervisor, and restarts interleave freely. One job may be queued and executed several times at once.
- `CronIndex.dfy`, `Startup.dfy`, `JobService.dfy`: the `jobs` table, the `job_cron_entries` table and the entries of the live
  scheduler; a class writes the three in place and is proved against functions whose agreement is proved.
- `Recovery.dfy`, `WorkerService.dfy`: worker registry, requeueing under every pattern of failures, one health check, and
  any history of checks, heartbeats and registrations. `FailureDetector.dfy`: its timing.
- `Cluster.dfy`: ledger and registry together, from the last heartbeat of a worker to the requeued payload.
- `Listener.dfy`: semaphore, `ActiveJobCount`, WaitGroup and shutdown, one atomic action per step, under any scheduler.
- `Aggregator.dfy`, `ScraperService.dfy`: the batching goroutine behind the bounded channel, and a whole execution.
- `HeartbeatClient.dfy`: connection, failure counter and reconnect. `TextParsing.dfy`: prices and host names.
- `Refinement.dfy`: run without interference, the ledger actions of one call leave exactly the rows and the queue that the
  contract of the corresponding service method promises. So the protocol results speak about the same code as the methods.

History variables make the ledger's results sayable: every payload ever pushed (its index is its *ticket*), the payloads
popped since the last flush, the fates of tickets that nobody holds any more, the fires and executions that died or whose
write failed, and the *orphans*: rows in flight whose process or payload was destroyed and that were not written since,
each with the cause. Beyond numbering the executions no action depends on them.

## Where the code does less than its text says or a reader expects

Each of these is proved for an explicit run or input, together with the exact condition.

- `Supervisor/Services/worker_service.go:140-141` says that a failed requeue is retried at the next health check. The worker
  is already `offline` by then and only `active` workers are looked at. Run: `FailedPushAbandons`. The job is abandoned iff
  reading or requeueing it failed (`AbandonedIffFailed`), is retried iff the worker comes back by a heartbeat or a registration
  (`RetriedIffReturned`), and `AbandonmentEndsIff` lists every step that ends its abandonment.
- `README.md:6` presents heartbeats as failure recovery. A worker that dies between BRPop and its `running` write takes the
  payload with it, and no health check lists the job. Run: `ClaimWindowLosesPayload`. Condition, before the crash:
  `NodeCrashStrandsIff`, `CrashStrandsIff`. What health checks can find at all are rows running under a worker that is registered
  and active: `FoundIffUnderActive`. A row whose worker is already offline is not among them, and neither is one that a worker
  without a client wrote under the empty name (`Worker/Services/scraper_service.go:116-120`), which cannot
  register (`NamelessIsNeverRegistered`).
- `README.md:14` limits a worker to 2 concurrent scrapes. That is true of the tokens, but the `ActiveJobCount` that heartbeats report
  has no bound, since a token is given back before the count goes down. Runs: `ActiveCountHasNoBound`. Condition: `ActiveWithinCapacityIff`.
- `executeJob` re-reads only `is_active`: a job renamed while its fire is under way is scraped under its old name and URL.
  Run: `UpdateDuringFireIsMissed`. Condition: `PushIsCurrentIff`.
- A deactivated, finished or deleted job leaves its cron row behind, and a restarted process hands out the same entry
  numbers again, so renaming one job can stop another. Run: `RestartThenUpdateStopsOtherJob`. Condition: `StartupAgreesIff`.
- A recurring job whose last run ended before a restart is not scheduled again, although it is active and has a cron.
  Run: `CompletedJobFallsAsleep`. Condition: `AsleepAfterStartup`.
- An active job whose cron is emptied loses its entry but keeps its `next_run`. Run: `EmptiedCronKeepsNextRun`. Condition:
  `UpdateNextRun`. The next restart deletes the job (`EmptiedCronIsDeleted`; run: `EmptiedJobIsDeleted`).
- If the cron row of a new entry cannot be written, the job fires on even after it is deleted: `LeakIff`, for every such state.

## Assumptions

- Reading a row, saving it and rescheduling it in `UpdateJob` is one step, and REST calls do not overlap. So a fire starts with
  the name and URL that its row has at that moment; from then on it interleaves with everything in the ledger.
- In `Cluster.dfy` one health check is not interrupted by other steps; in the ledger its listings and requeues interleave freely.
- The transaction around one requeue and the insert of one batch are atomic, and commits succeed. Payloads survive JSON
  with id, name and URL.
- The cron parser is an arbitrary predicate that refuses the empty expression, next fire times and the clock are parameters, and
  every database, queue or network operation that the code checks succeeds or fails as a parameter says.
- Worker names are unique in the registry. A node writes its name into `worker_id` (several live nodes may share one in the ledger).
- Prices are exact decimals. Counters are unbounded integers.

## Model

| member | source | states |
|---|---|---|
| LedgerSafety.InvAlways | Supervisor/Services/job_service.go:93-216 | Over every run from any state that satisfies it, whatever processes interleave, crash or fail: rows are keyed, the list is a FIFO of tickets, each ticket that left it is held, finished, flushed or lost (exactly one), and every row in flight has somebody working for it or a record whose cause names a process or payload of that job which the history shows as destroyed |
| LedgerRuns.PendingHasWitness | Supervisor/Services/job_service.go:169-206 | In every reachable state a `pending` row has a queued payload, a worker that popped one and has not yet written `running`, or an `executeJob` between its update and its push; or else the history shows, according to the recorded cause, a claim of this job that died with its node, a fire of it cut between update and push, a flushed payload of it, or a process of it whose status write failed |
| LedgerRuns.RunningHasExecution | Worker/Services/scraper_service.go:86-126 | In every reachable state a row `running` under w has an execution of that job by w between its two status writes, or w died during such an execution, or w finished one whose final write failed, although duplicate executions overwrite each other |
| LedgerQuiescence.FaultlessRunsOrphanNothing | Worker/Services/scraper_service.go:79-126 | Runs without crashes, flushes and failed reverting, starting or final writes orphan no row |
| LedgerRuns.FaultlessWitness | Supervisor/Services/worker_service.go:142-155 | So in such runs a row in flight always has a real payload or process, even when fires and requeues queue the same job several times |
| LedgerSafety.FifoKept | Supervisor/Services/job_service.go:201 | Every action keeps: pushed since the last flush = popped since, followed by the queue from its old end to its new end |
| LedgerSafety.ConservedKept | Worker/Services/scraper_service.go:47-74 | Every action keeps the tickets up to the head partitioned into held, finished, flushed and lost |
| LedgerSafety.ClaimSound | Worker/Services/scraper_service.go:47 | A pop keeps every row in flight witnessed: the job whose payload leaves the queue is now claimed |
| LedgerSafety.BeginSound | Worker/Services/scraper_service.go:98-99 | The `running` write, made or failed, keeps every row in flight witnessed, including rows that other executions of the same job wrote |
| LedgerSafety.FinishSound | Worker/Services/scraper_service.go:86-94 | The final write, made or failed, keeps every row in flight witnessed although it ends an execution |
| LedgerSafety.PushSound | Supervisor/Services/job_service.go:201-206 | A push, made or failed, keeps every row in flight witnessed: by the queued payload, or by the fire that has yet to revert the row |
| LedgerSafety.RequeueSound | Supervisor/Services/worker_service.go:142-155 | A requeue, successful or rolled back, keeps every row in flight witnessed |
| LedgerSafety.NodeCrashSound | Worker/Services/scraper_service.go:79-96 | A node that dies leaves every row in flight with another witness or with a record of the crash |
| LedgerSafety.BlameKept | Worker/Services/scraper_service.go:79-126 | Every action keeps the record of an orphaned row backed by a destroyed process or payload of that job, for a running row by one of the worker it names |
| LedgerRuns.PayloadsAddUp | Worker/Services/scraper_service.go:47-74 | Over every run the number of pushes equals finished + held + queued + flushed + lost |
| LedgerRuns.ClaimTakesHead | Worker/Services/scraper_service.go:47 | Every claim of a run takes the oldest payload that is still queued, and that is the one pushed under its ticket |
| LedgerRuns.ClaimsInPushOrder | Worker/Services/scraper_service.go:47 | Two claims of a run never take the same push, and they come in the order of the pushes, across flushes and restarts |
| LedgerRuns.GoneNodeClaimsNothing | Worker/Services/scraper_service.go:38-47 | A node that stopped or crashed claims and works on nothing in any run until it is started again |
| LedgerQuiescence.WorkFalls | Worker/Services/scraper_service.go:79-111 | Every action of a fire, of an execution or of a requeue makes the measure of open work smaller, although some of them push new payloads |
| LedgerQuiescence.RestIsZero | Worker/Services/scraper_service.go:79-111 | The measure is 0 iff queue, fires, executions and requeues are all gone |
| LedgerQuiescence.ProgressUntilRest | Worker/Services/scraper_service.go:38-74 | While a node lives, nothing is left to do iff the system is at rest |
| LedgerQuiescence.RestRows | Worker/Services/scraper_service.go:79-126 | At rest a row is pending or running iff a failure is recorded for it |
| LedgerQuiescence.WorkIsBounded | Supervisor/Services/job_service.go:169-206 | Over every run, crashes, health checks, updates and restarts included: work done + work left <= work at the start + 8 for each fire + 5 for each job that a health check found |
| LedgerQuiescence.Quiescence | Worker/Services/scraper_service.go:31-111 | So every run does a bounded amount of work for what it is given, and where no work is possible queue, fires and executions are gone and, if nothing failed, no row is pending or running, whatever fires, updates and health checks happened on the way |
| LedgerRuns.ClaimWindowLosesPayload | Worker/Services/scraper_service.go:47-99 | "Never lost" is false: a run of nine actions after which the system is at rest, the row says pending, its payload is gone and no listing of any worker's running jobs contains it |
| LedgerRuns.NodeCrashStrandsIff | Worker/Services/scraper_service.go:47-99 | A node that dies leaves a pending job with nobody to work for it iff it had claimed the job, no other node had, no payload of it was queued and no fire of it was under way |
| LedgerRuns.NodeCrashStopsIff | Worker/Services/scraper_service.go:98-126 | It leaves a running job without an execution of the worker that its row names iff it ran the only one |
| LedgerRuns.CrashStrandsIff | Supervisor/Services/job_service.go:181-206 | A dying supervisor strands a pending job iff only a fire between its update and its push had it in hand |
| LedgerRows.ActionWritesRow | Supervisor/Services/job_service.go:182-213 | Seen from one row, what each action does to it, column by column: a fire writes `pending`, `scheduled` with its report, or `next_run`; an execution `running` with its worker, its report, then `completed` or `failed`; a requeue `pending` unassigned; a restart `scheduled` only where it was in flight; and no action touches any other column or any other row |
| LedgerRows.DeactivatedIsNotPushed | Supervisor/Services/job_service.go:170-179 | Over every run in which a job stays deactivated or deleted, the fires of it that can still push are among those that had read its row before |
| LedgerRows.DeactivationStopsFires | Supervisor/Services/job_service.go:170-179 | An update that deactivates a job stops every fire of it that has not read the row by then, whatever else happens before it is activated again |
| FreshPayloads.TextIsLast | Supervisor/Services/job_service.go:49-54 | Of all actions in the system only creates and updates of a job change its name and URL: over any run the row says what the last of them gave |
| FreshPayloads.PushIsCurrentIff | Supervisor/Services/job_service.go:169-206 | Whatever happens between the start of a fire and its push, the payload is the row's text at the start, and it is the row's present text iff the last update since then, if any, gave that same text |
| FreshPayloads.UpdateDuringFireIsMissed | Supervisor/Services/job_service.go:171-192 | A run in which a job renamed during its fire is queued under its old name and URL |
| CronIndex.ScheduleAgrees | Supervisor/Services/job_service.go:120-167 | Adding an entry for a job that has none keeps the three structures in agreement; an expression that does not parse removes row and cron row instead |
| CronIndex.LeakIff | Supervisor/Services/job_service.go:132-166 | When writing the cron row or `next_run` fails: the structures agree iff the cron row was written; otherwise the entry stays live even after the job is deleted |
| CronIndex.UnscheduleAgrees | Supervisor/Services/job_service.go:59-64 | Removing the entry that the cron row names removes the only entry of that job and no other job's, whatever is then stored under that id |
| CronIndex.UnscheduleLive | Supervisor/Services/job_service.go:59-64 | It takes exactly this job out of the jobs that fire |
| CronIndex.CreateAgrees | Supervisor/Services/job_service.go:31-47 | After a create the structures agree, and the new job fires with its own values iff its cron parses; otherwise it is gone again |
| CronIndex.CreatedFires | Supervisor/Services/job_service.go:120-123 | A created job with a cron that parses fires with the name and URL of the request |
| CronIndex.UpdateStores | Supervisor/Controllers/job_controller.go:75-88 | After an update the row has each field of the request, `is_active` included, and the stored value where the request gave none; status, assignment and report stay; `next_run` is set anew, kept or cleared; the row is gone only if it is active with a cron that does not parse; no other row changes |
| CronIndex.UpdateWakesIff | Supervisor/Services/job_service.go:59-72 | The job fires afterwards, with the values of that row, iff that row is active with a cron that parses, deactivated and reactivated jobs included, and the other jobs fire as before |
| CronIndex.UpdateAgrees | Supervisor/Services/job_service.go:49-75 | After an update the job fires with its new values iff it is active and its cron parses, and every other job fires as before |
| CronIndex.UpdatedFires | Supervisor/Controllers/job_controller.go:75-88 | An updated job that fires does so with each value of the request, and with the stored value where the request gave none |
| CronIndex.UpdateNextRun | Supervisor/Services/job_service.go:50-53 | After an update `next_run` is set iff the job is live, except exactly for an active job with an emptied cron that had a `next_run` |
| CronIndex.EmptiedCronKeepsNextRun | Supervisor/Services/job_service.go:50-72 | A run of a create and an update after which an active job announces a next run and is not live |
| CronIndex.DeleteAgrees | Supervisor/Services/job_service.go:77-91 | After a delete the job no longer fires, the others do, and agreement holds although the cron row stays |
| CronIndex.OneEntryPerJob | Supervisor/Services/job_service.go:120-123 | No job has two live entries, and what an entry captured is what its job fires with |
| CronIndex.FireCarriesCurrentRow | Supervisor/Services/job_service.go:169-192 | What an entry captured at scheduling time still has the id, name and URL of the stored row |
| CronIndex.StaysAwake | Supervisor/Services/job_service.go:31-91 | No create, update or delete stops another job, and none leaves the job it updates active with a cron and not firing |
| CronIndex.RunAgrees | Supervisor/Services/job_service.go:31-91 | Over every sequence of operations of one process the structures agree, live jobs are active with a cron, and no job falls asleep |
| CronIndex.FreshRunAgrees | Supervisor/Services/job_service.go:31-91 | From empty tables the jobs that fire are at any time exactly the stored, active jobs with a cron |
| Startup.LookStep | Supervisor/Services/job_service.go:110-114 | One row of the startup loop is scheduled, deleted with its cron row, or skipped, and earlier rows stay as they were left |
| Startup.FoldedMidway | Supervisor/Services/job_service.go:105-114 | The same for every prefix of the rows, in whatever order the database returns them |
| Startup.StartupAgreesIff | Supervisor/Services/job_service.go:93-117 | After a restart the three structures agree iff every leftover cron row belongs to an active job that is neither completed nor failed |
| Startup.StartupRows | Supervisor/Services/job_service.go:102-114 | After a restart no row is in flight, exactly the due jobs with a cron that does not parse are deleted, with their cron rows, and the entries belong to exactly the due jobs whose cron parses |
| Startup.StartupKeepsRest | Supervisor/Services/job_service.go:102-114 | A row that startup keeps differs only in `status`, back to `scheduled` where it was `pending` or `running`, and in `next_run`, set exactly for the jobs that startup scheduled |
| Startup.AsleepAfterStartup | Supervisor/Services/job_service.go:110-114 | After a restart from any tables the active jobs with a cron that do not fire are exactly those that were completed or failed |
| Startup.CompletedJobFallsAsleep | Supervisor/Services/job_service.go:110-114 | A job that is created, fires and is completed is active and asleep after a restart |
| Startup.EmptiedCronIsDeleted | Supervisor/Services/job_service.go:124-130 | A restart deletes every active job whose cron is empty, with its cron row, unless its last run had ended |
| Startup.EmptiedJobIsDeleted | Supervisor/Services/job_service.go:110-130 | Such a job comes from a create and an update, and no restart leaves it |
| Startup.EmptiedJobRestarts | Supervisor/Services/job_service.go:93-130 | That restart is possible and leaves empty tables |
| Startup.RestartThenUpdateStopsOtherJob | Supervisor/Services/job_service.go:59-64 | Agreement across a restart is false: after deactivating a job and restarting, renaming it removes the entry of another active job |
| JobServices.JobService.ScheduleJob | Supervisor/Services/job_service.go:120-167 | Writes the tables and the scheduler as the proved function says, whichever of its writes fail; for a job without an entry agreement is kept iff the cron row was written |
| JobServices.JobService.CreateJob | Supervisor/Services/job_service.go:31-47 | A failed insert changes nothing; otherwise the new row, its cron row and its entry hold the given values, or none of them stays if the cron does not parse, the returned job is as inserted, and agreement is kept |
| JobServices.JobService.UpdateJob | Supervisor/Controllers/job_controller.go:56-94 | Unknown job and failed save change nothing; otherwise the returned row has each requested or stored value, and what is stored and what fires afterwards is what that row asks for, no other job affected |
| JobServices.JobService.DeleteJob | Supervisor/Services/job_service.go:77-91 | The job no longer fires whether or not the row could be deleted, every other job does, the cron row stays, and agreement is kept |
| JobServices.JobService.ExecuteJob | Supervisor/Services/job_service.go:169-216 | A missing or inactive row is left alone; a failed marshal or push leaves the row `scheduled` with that report and nothing queued; otherwise one payload with the captured id, name and URL is in front of the queue and the row is `pending` with the entry's next fire if there is one; no other column and no other row changes |
| JobServices.JobService.FireEntry | Supervisor/Services/job_service.go:121-123 | A live entry fires for a stored active row, and run without interference it pushes that row's name and URL |
| JobServices.JobService.ScheduleIfDue | Supervisor/Services/job_service.go:110-114 | A row is scheduled iff it is active and neither completed nor failed |
| JobServices.JobService.LoadAndScheduleAllJobs | Supervisor/Services/job_service.go:93-117 | Empties the queue if it can, resets rows in flight if it can, schedules nothing if the rows cannot be read, and otherwise leaves a state to which the startup lemmas apply |
| Recovery.RequeuedRows | Supervisor/Services/worker_service.go:125-164 | The rows of the requeued jobs are pending and unassigned, and all others are untouched, columns included |
| Recovery.RequeuedPayloads | Supervisor/Services/worker_service.go:127-152 | The queue gains exactly one payload for each requeued job, in front, with the id, name and URL of its row |
| Recovery.RequeuedJoin | Supervisor/Services/worker_service.go:97-107 | Requeueing for one worker after another is one requeue of all their jobs |
| Recovery.RecoveryIsComplete | Supervisor/Services/worker_service.go:86-169 | If a stale worker's operations succeed it is offline afterwards, no row runs under it, each of its rows is pending and unassigned, and the queue gained exactly one payload for every recovered row |
| Recovery.OthersUntouched | Supervisor/Services/worker_service.go:89-91 | Workers that are not stale, and the rows of all but stale workers, are as before |
| Recovery.NoRetryWhileOffline | Supervisor/Services/worker_service.go:140-141 | The announced retry does not happen: over any history in which the worker does not come back, no health check turns to an abandoned job and it stays abandoned, whatever happens to other rows, workers and the queue in between |
| Recovery.RetriedIffReturned | Supervisor/Services/worker_service.go:89-91 | By the end of any history that ends in a check more than 45 s after every sign of life of the worker, an abandoned job was retried iff a heartbeat or a registration of the worker was accepted |
| Recovery.FailedPushAbandons | Supervisor/Services/worker_service.go:140-155 | One worker, one job, one failed push: the check at 46 s abandons the job, and no later check turns to it until the worker returns |
| Clusters.CheckIsHealthCheck | Supervisor/Services/worker_service.go:86-169 | In ledger and registry together a health check, visiting the stale workers in any order with any failures, is a run of ledger actions and does what the contract of `CheckAndRecover` promises |
| Clusters.AbandonmentEndsIff | Supervisor/Services/worker_service.go:91-120 | Of all steps of the system exactly these end an abandonment: a heartbeat or registration of the worker, a status write of the job by a fire, a restart or an execution (unless it starts under the same name), and the removal of its row |
| Clusters.FoundIffUnderActive | Supervisor/Services/worker_service.go:91-112 | As long as nobody writes its status and its worker stays silent, some health check can still find a job iff it says running under a worker that is registered and active |
| Clusters.NamelessIsNeverRegistered | Supervisor/Services/grpc_server_service.go:44-49 | The empty name, under which a worker without a client writes its rows, never enters the registry in any run |
| Clusters.SilentWorkerIsCleared | Supervisor/Services/worker_service.go:62-169 | However everything else interleaves, at the first tick more than 45 s after a worker's last sign of life, which comes within 75 s, each row that still runs under it becomes pending and unassigned with a payload in the queue, and none runs under it any more, if that check succeeds |
| Clusters.DeadWorkersJobIsQueued | Supervisor/Services/worker_service.go:62-169 | A row running under an active worker whose node dies is pending, unassigned and queued at most 75 s after the worker's last sign of life, if nobody else writes it and that check succeeds |
| Recovery.AbandonedIffFailed | Supervisor/Services/worker_service.go:97-164 | A stuck job of a stale worker is abandoned iff the worker was written offline and the listing, marshalling, update or push failed |
| WorkerServices.WorkerService.RegisterWorker | Supervisor/Services/grpc_server_service.go:43-87 | An empty id or a failing database changes nothing; otherwise the worker is active from now on, keeps its host only if it is known and none is given, and no other worker changes |
| WorkerServices.WorkerService.Heartbeat | Supervisor/Services/grpc_server_service.go:89-113 | Acknowledged iff the worker is known and the update succeeds; then it is active with the reported job count and capacity and this time, its host and all other workers as before |
| WorkerServices.WorkerService.RequeueOne | Supervisor/Services/worker_service.go:126-160 | Row update and push both happen or neither does |
| WorkerServices.WorkerService.RequeueWorkerJobs | Supervisor/Services/worker_service.go:110-169 | For every pattern of failures exactly the stuck jobs whose attempt succeeds are requeued, and the count is their number |
| WorkerServices.WorkerService.RecoverWorker | Supervisor/Services/worker_service.go:97-107 | Marks one stale worker offline, if that write succeeds, and requeues its jobs in either case, on top of what was requeued for the others |
| WorkerServices.WorkerService.CheckAndRecover | Supervisor/Services/worker_service.go:86-108 | A failed query changes nothing; otherwise exactly the stale workers whose mark succeeds go offline and exactly the jobs of stale workers that could be requeued are, across all of them |
| WorkerServices.StuckUnder | Supervisor/Services/worker_service.go:110-116 | Requeueing jobs of other workers does not change which jobs are stuck under this one |
| FailureDetector.SilentWorkerIsFound | Supervisor/Services/worker_service.go:62-91 | A silent worker is offline exactly from the first tick later than 45 s after its last heartbeat, which comes within 75 s |
| FailureDetector.LongestWait | Supervisor/Services/worker_service.go:62-91 | Last heard of at 0, a worker is still active after the tick at 45 s and offline after the one at 75 s |
| FailureDetector.SteadyWorkerStaysActive | Worker/Services/grpc_client_service.go:210-223 | A worker that beats every 15 s with at most m losses in a row and delays up to d stays active if 15 s (m + 1) + d <= 45 s, for all event orders in time |
| FailureDetector.RegisteredStaysActive | Supervisor/Services/grpc_server_service.go:53-80 | The same from the registration itself, if the first heartbeat follows within 15 s |
| FailureDetector.NeverAccusedIff | Supervisor/Services/worker_service.go:87-91 | And that bound is exact: beyond it some such worker is marked offline |
| FailureDetector.LossesTolerated | Supervisor/Services/worker_service.go:62-65 | Two losses in a row are tolerated only without any delay, one with a delay up to 15 s, three never |
| HeartbeatClient.HeartbeatKeeps | Worker/Services/grpc_client_service.go:225-282 | Every heartbeat keeps counter, connection and the history of calls in step |
| HeartbeatClient.ClientStaysDisciplined | Worker/Services/grpc_client_service.go:225-282 | Over every run the client is absent iff the counter is at least 3, no RPC goes out without a connection, and three failed RPCs in a row are followed by a dial before any further call |
| HeartbeatClient.RefusalsReregister | Worker/Services/grpc_client_service.go:276-281 | Over every run each refused heartbeat is directly followed by a registration, and there is no other registration |
| HeartbeatClient.SupervisorClient.Reconnect | Worker/Services/grpc_client_service.go:130-159 | The connection exists afterwards iff the dial succeeded; the counter is left alone |
| HeartbeatClient.SupervisorClient.SendHeartbeat | Worker/Services/grpc_client_service.go:225-282 | Under any network behaviour: an absent client dials first, an RPC goes out iff there is a connection then, a refusal is directly followed by a registration, a failure by a dial iff it is at least the third in a row; the counter restarts after every answer and every successful dial for it; the invariant is kept |
| Aggregator.BatchesShape | Worker/Services/colly_scraper.go:50-74 | The batches concatenate to the items in order, all but the last have 50 items, none is empty, and there are ceil(n / 50) |
| Aggregator.CutsAgree | Worker/Services/colly_scraper.go:68-74 | Full batches followed by at most one shorter one are the only such cut |
| Aggregator.NothingDroppedIff | Worker/Services/colly_scraper.go:57-64 | Saved + dropped = emitted, and everything is saved iff no flush failed |
| Aggregator.StoredByPosition | Worker/Services/colly_scraper.go:50-74 | Said without batches: the stored items are exactly those at positions i whose flush i / 50 succeeded, in the order of emission |
| Aggregator.Flush | Worker/Services/colly_scraper.go:53-66 | A flush closes the open batch whether or not it is saved; an empty batch is no flush |
| Aggregator.LastFlush | Worker/Services/colly_scraper.go:74 | The flush after the channel is closed leaves exactly the batches of everything received |
| Aggregator.RunScrape | Worker/Services/colly_scraper.go:40-164 | For every interleaving of collector and aggregator over the 100-slot channel: the flushes are the batches of the items, the count is what was stored, and there is an error iff the visit failed or an item was dropped |
| ScraperServices.LastWriterWins | Worker/Services/scraper_service.go:113-126 | However executions of one job overlap, its status is that of the last write, it is assigned to the worker that started last even if another one finished it, and nothing else changes in any row |
| ScraperServices.ScraperService.ScrapeURL | Worker/Services/scraper_service.go:98-111 | Writes `running` once, succeeds iff the visit and every flush did, stores what the flushes stored, and reports that number either way in this row and in no other |
| ScraperServices.ScraperService.ProcessJob | Worker/Services/scraper_service.go:79-96 | Exactly one `running` and then exactly one of `completed` and `failed`; `completed` iff the visit and every batch succeeded, and then the report counts the items, all of them stored; nothing else in this row and no other row changes; an undecodable payload has no effect |
| Listening.AccountedKept | Worker/Services/scraper_service.go:64-74 | Every action keeps the three equations of tokens, `ActiveJobCount` and WaitGroup |
| Listening.ExactAccounting | Worker/Services/scraper_service.go:35-74 | In every reachable state the three equations hold, giving a token back never blocks, and at most three popped payloads are unfinished |
| Listening.ThirdPayloadWaits | Worker/Services/scraper_service.go:64 | The bound of three is reached: a run with two payloads in processing and a third one waiting for a token |
| Listening.ActiveCountHasNoBound | Worker/Services/scraper_service.go:69-72 | For every n some run reaches `ActiveJobCount == n` |
| Listening.ActiveWithinCapacityIff | Worker/Services/scraper_service.go:64-72 | `ActiveJobCount` stays within the capacity throughout a run iff the listener never counts a goroutine while two others have not been counted out |
| Listening.DrainMoves | Worker/Services/scraper_service.go:38-44 | A cancelled listener that has not returned is never stuck |
| Listening.GracefulDrain | Worker/Services/scraper_service.go:38-75 | After cancellation at most one more payload is claimed, the remaining steps are bounded, and a run that cannot go on has returned with every popped payload processed and all counters 0 |
| Listening.ReturnedIsDone | Worker/Services/scraper_service.go:42-44 | At return every popped payload was processed, no goroutine is left, and semaphore, count and WaitGroup are 0 |
| Listening.SchedulerExists | Worker/Services/scraper_service.go:38-75 | There is a scheduler as `StartListening` requires it |
| Listening.ListenerProcess.Perform | Worker/Services/scraper_service.go:38-74 | One atomic action, in place |
| Listening.ListenerProcess.StartListening | Worker/Services/scraper_service.go:31-77 | Under every scheduler that cancels some day the listener's steps are a run from the idle state in which each step is the scheduler's choice, the run ends, and every payload popped in it is processed by then |
| TextParsing.HostHasNoSlash | Worker/Services/colly_scraper.go:190-192 | A host never contains a slash |
| TextParsing.HostIsIdempotent | Worker/Services/colly_scraper.go:185-194 | Extracting the host of a host gives that host |
| TextParsing.HostOfURL | Worker/Services/colly_scraper.go:187-192 | `scheme://host/path` and `scheme://host` give the host, whatever the path contains |
| TextParsing.HostWithoutScheme | Worker/Services/colly_scraper.go:187-192 | Without a scheme the host is what stands before the first slash |
| TextParsing.PriceOfDecimal | Worker/Services/colly_scraper.go:167-182 | A decimal number is read as that number, whatever else is in the text |
| TextParsing.PriceOfWhole | Worker/Services/colly_scraper.go:167-182 | A number without a dot is read as that number |
| TextParsing.PriceOfCents | Worker/Services/colly_scraper.go:166-182 | Text whose digits and dots print n cents gives n / 100 |
| TextParsing.PrintedPriceIsRead | Worker/Services/colly_scraper.go:166-182 | A printed price of n cents between any two texts without digits and dots is read as n / 100 |
| TextParsing.TwelveThirtyFour | Worker/Services/colly_scraper.go:166 | "$12.34" is 12.34 |
| TextParsing.NoiseIsIgnored | Worker/Services/colly_scraper.go:168-173 | Characters that are neither digits nor dots may be put anywhere without changing the price |
| TextParsing.TwoDotsGiveZero | Worker/Services/colly_scraper.go:177-180 | With a second dot the price is 0 |
| TextParsing.NoDigitsGiveZero | Worker/Services/colly_scraper.go:174-180 | Without a digit the price is 0, whatever dots there are |
| Refinement.ExecuteJobIsFire | Supervisor/Services/job_service.go:169-216 | The actions of one fire, alone, leave what the contract of `ExecuteJob` promises, with a push that succeeds or fails |
| Refinement.SkippedFire | Supervisor/Services/job_service.go:171-179 | A started fire that cannot read its row, or finds it deleted or inactive by then, leaves rows, queue and all other processes as they were |
| Refinement.ProcessJobIsExecution | Worker/Services/scraper_service.go:79-111 | The actions of one execution, alone, leave the rows that the contract of `ProcessJob` promises |
| Refinement.RequeueIsRecovery | Supervisor/Services/worker_service.go:110-169 | Finding and requeueing, alone, requeue exactly the jobs that the contract of `RequeueWorkerJobs` promises, for every order and failure pattern |
| Refinement.RestartClearsBoard | Supervisor/Services/job_service.go:93-103 | The first two steps of a restart leave nothing in flight and nothing orphaned, whatever a crash left |

## Left out

- REST routes, DTO validation, gRPC and protobuf plumbing, the two mains, TLS and keepalive settings.
- Colly's crawling, selectors, visited set and depth: a scrape is an arbitrary finite sequence of items and a verdict of the seed visit.
- `parseRating`, one library call and an index.
- `CreateWorker`, `UpdateWorker`, `DeleteWorker` and the REST operations on cron rows: they write rows by hand, beside the protocols.
- `last_run`, `created_at`, `updated_at` and log output: nothing reads them in the code modelled here.
- Overlapping `UpdateJob` calls on one job: the second one saves the row that it read before the first one's save.
- The branches for a missing worker database or client (`WorkerDB == nil`, `supervisorClientInstance == nil`), and `CloseSupervisorClient`.
- The one-second pause after a failed BRPop; that branch and an ill-formed reply are the same step as an empty queue.
- The limit of two executions per node in the job ledger: the ledger allows any number, so its results cover the limited system; `Listener.dfy` proves the limit.
- The order in which the next fire times of different jobs come up: a fire of any stored job may start at any moment.
- JobServices.JobService.CreateJob: does not model failing writes of the cron row and of `next_run` inside `scheduleJob`, which the code only logs; `ScheduleJob` and `LeakIff` do. The same goes for `UpdateJob` and startup.
- JobServices.JobService.FireEntry: states one fire without interference; `FreshPayloads.dfy` has the fire that interleaves.
- WorkerServices.WorkerService.RegisterWorker: does not model a failed second update of a known worker, which the code does not look at.
- LedgerSafety.InvAlways: a failed write that the code only logs is an action with `dbOk == false`; a failed `last_result` or `next_run` write is not.
- FailureDetector.NeverAccusedIff: does not model clock skew between processes; only the supervisor's clock stamps heartbeats and checks.
