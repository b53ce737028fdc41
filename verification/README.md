# Steda: the durable task state machine, in Dafny

Steda keeps durable tasks in PostgreSQL. This project models one queue: its three tables (tasks, runs,
checkpoints), every PL/pgSQL function that changes them, and the Rust code that has to agree with
them (submission options, contexts, executor, worker, counters, storage names). `dafny verify dfyconfig.toml`
checks all of it.

## How it is built

| file | content |
|---|---|
| `Basics`, `Selection`, `Policies` | values and clock readings; `ORDER BY key, id LIMIT n`; retry delays and cancellation deadlines |
| `Storage` | rows, and twelve primitive transitions (`Move`): when each is possible (`Can`) and what it does (`Do`) |
| `Invariant` | the invariant of the tables, kept by every primitive transition; each touches one task only |
| `Plans` | the outcome of each database function: the error it raises, or its value, its tables and its transitions |
| `QueueStorage`, `Service` | the database functions as methods that update the tables in place, statement by statement, each proved to have the outcome of its plan |
| `Soundness`, `History` | plans are timely sequences of transitions; histories are sequences of calls by anyone |
| `Attempts`, `Deadlines`, `Fencing`, `Sweeps`, `Claiming`, `Ownership`, `Supervision`, `Leases`, `Retention` | theorems about every history |
| `Limits`, `Retries`, `Grants`, `Endings`, `Records` | the same in rows and numbers: cancellation limits, retry times, lease expiries, ends and results, stored requests |
| `Witnesses`, `Exhaustion` | histories that show a case to be possible; runs whose attempt counter is exhausted |
| `Submission`, `Idempotency` | client-side normalization, its reading by the database, and idempotency keys |
| `Workflows`, `Context`, `Names` | interleaved contexts with their checkpoint caches and durable sleeps; storage names |
| `Metrics`, `Executor`, `Worker`, `WorkerHistory` | counters, one execution attempt, the worker loop, and its run as one history of calls |

Three conventions carry the model.

- **Time.** A call reads the clock several times. It gets a non-empty, non-decreasing list of readings, and each
  nested lock takes the next one. Calls of a history do not overlap in time.
- **Atomicity.** A database function is one step. A raised exception undoes the whole call, nested calls included.
- **Locked rows.** `SKIP LOCKED` is an arbitrary set of skipped rows, an argument of the call.

An attempt number is a 32-bit integer: where `attempt + 1` overflows, the model raises as PostgreSQL does.

## Findings

Each is proved by the lemmas it names: at an input (a state is one that a history from the empty queue reaches) and, where the code misses a property, with the exact condition.

- A running run whose attempt number is 2147483647 can be neither failed nor reaped before its deadline, because the
  overflow raises (`Exhaustion.StuckRaises`). In every history it stays until its task is cancelled
  (`Exhaustion.StuckStays`), and every claim whose reaping sweep selects it raises as a whole
  (`Exhaustion.StuckBlocksForGood`); nothing else makes a well-formed claim raise (`Claiming.ClaimRaisesIffStuck`).
  `Exhaustion.ExhaustedReached` gives a history that leads there.
- An attempt is not always counted as supervision reports its run. Where a call is refused, the two part exactly in
  the states of `Executor.PartsAt` before the call: an expired lease that nobody has reaped; a run that another holder
  has completed or suspended; a failed run, which a completion or the loading of checkpoints leaves unhandled, and which
  the worker's own failure counts as failed even if it failed of a lost lease or with its task cancelled; and a run that
  is cancelled while checkpoints are loaded (`Executor.RefusalDiffersIff`). `Executor.AttemptTruthful` states the
  equivalence for every attempt, unhandled ones included, and `Executor.ExecuteTask` carries such attempts out; the only
  other cases are a task that the worker does not know and a non-positive lease. Inputs: `Executor.ReapedCountsAsFailed`, `CancelledCountsAsFailed`, `UnreapedCountsAsLost`,
  `CancelledWhileLoading`, `ReapedBeforeCompletion`, `FailedByAnotherHolder` and `CompletedByAnotherHolder`.
- `execute_task` has an arm for invalid task headers. That error arises only where claimed rows are decoded, before an
  attempt starts, and not even there, because stored headers are objects (`Worker.RowsDecode`).
- An exponential delay with a factor below one falls from one attempt to the next exactly when the next one is
  computed below the cap; otherwise, at the cap or on underflow, it is the cap, so it can also jump up
  (`Policies.DelayFallsIff`, `Policies.HalvingShrinks`, `Policies.UnderflowJumps`). `Policies.MonotoneIff` says exactly
  which strategies never shrink.
- Half a lease is the exact bound on the gap between polls: any longer gap can lose the lease (`Leases.HalfLeaseTight`).
  The worker's interval leaves a slack below that bound only for leases of three seconds and more; for one and two
  seconds it is half the lease exactly, so a poll comes later than half a lease by whatever the call takes
  (`Leases.Slack`, `Leases.NoSlackLost`).

## Model

| member | source | states |
|---|---|---|
| `History.HistoryInv` | tests/stateful.rs:1059-1145 | whatever is called, in any order, by anyone and at any times, the invariant holds afterwards |
| `Invariant.MoveInv` | sql/migrations/0005_failure_and_cancellation.sql:47-137 | every primitive transition keeps the invariant: runs carry exactly attempts 1..attempts, the authoritative run is the last, all others have failed, states agree, owner and lease exist iff running, budgets and foreign keys hold |
| `Invariant.Frame` | sql/migrations/0005_failure_and_cancellation.sql:122-137 | a transition changes no row of any task but its own |
| `History.CallReached` | sql/migrations/0004_run_control.sql:10-107 | every database call is a sequence of possible primitive transitions with times between its first and last clock reading |
| `Attempts.HistoriesAudited` | tests/stateful.rs:1059-1145 | every history from an empty queue passes the audit of the stateful tests and meets every declared constraint |
| `Attempts.InvConstraints` | sql/migrations/0001_queue_storage.sql:30-168 | the invariant implies the CHECK, UNIQUE and foreign key constraints of the three tables |
| `Attempts.RunsAreAttempts` | tests/stateful.rs:1083-1091 | a task has exactly as many runs as its attempt counter says |
| `Attempts.AttemptBudget` | sql/migrations/0005_failure_and_cancellation.sql:286-321 | over any history the runs of a task number at most its submitted budget plus its successful manual retries |
| `Attempts.FailuresBounded` | sql/migrations/0005_failure_and_cancellation.sql:62-137 | failures and reapings are at most the remaining budget plus manual retries, each using one unit up; the submitted budget never changes |
| `Attempts.SpendStep` | sql/migrations/0005_failure_and_cancellation.sql:122-137 | a failure strictly decreases the remaining budget, a manual retry adds at most one, nothing else adds any |
| `Attempts.ReopenIsRetry` | sql/migrations/0005_failure_and_cancellation.sql:231-325 | exactly the successful manual retries of a task reopen it |
| `QueueStorage.QueueStorage.LockAttemptContext` | sql/migrations/0004_run_control.sql:15-107 | returns the run, its task and the reading taken after both, or not found |
| `QueueStorage.QueueStorage.LockRunningAttempt` | sql/migrations/0004_run_control.sql:114-202 | raises exactly the first error of the check list, and otherwise returns the held run and its task |
| `QueueStorage.QueueStorage.CompleteRun` | sql/migrations/0004_run_control.sql:209-263 | two updates have the effect of completion, or of cancellation when the deadline is due |
| `Records.CompleteRows` | sql/migrations/0004_run_control.sql:234-259 | a completion stores the result and its reading and changes nothing else |
| `QueueStorage.QueueStorage.ScheduleRun` | sql/migrations/0004_run_control.sql:272-334 | suspends until the wake time, is ready when it has passed, cancels when a deadline is due by then |
| `Records.SuspendRows` | sql/migrations/0004_run_control.sql:307-330 | a suspension releases the run until exactly the wake time and changes nothing else |
| `QueueStorage.QueueStorage.FailRun` | sql/migrations/0005_failure_and_cancellation.sql:15-139 | for every reason and either flag, the step-by-step failure leaves the tables of final failure, retry or cancellation, or nothing when it raises |
| `QueueStorage.FailFollows` | sql/migrations/0006_task_claiming.sql:48-61 | called by a worker or by the reaper, that is the outcome of the failure plan |
| `Retries.FailureFate` | sql/migrations/0005_failure_and_cancellation.sql:37-137 | every committed failure, by worker or reaper: which state its task takes, in terms of limits, budget and retry time, and what its own row keeps |
| `Retries.RetryScheduled` | sql/migrations/0005_failure_and_cancellation.sql:66-137 | a failure is retried exactly with budget and time left; the new row is then available at the reading plus the delay, pending exactly for a zero delay, and the task points at it |
| `Retries.FirstDelay` | sql/migrations/0003_task_submission.sql:106-175 | no retry has no delay, a fixed one its base, an exponential one starts at its base or cap |
| `Retries.NextDelay` | sql/migrations/0003_task_submission.sql:164-175 | with a factor of at least one each delay is the factor times the one before, up to the cap, while the computed numbers are doubles, and the cap from then on |
| `Retries.NextComputed` | sql/migrations/0003_task_submission.sql:170-175 | with any factor the same holds between delays that are computed below the cap |
| `Service.FailureKeepsInv` | sql/migrations/0005_failure_and_cancellation.sql:47-137 | a failure keeps the invariant for every reason and either flag |
| `QueueStorage.QueueStorage.CancelTask` | sql/migrations/0005_failure_and_cancellation.sql:146-223 | cancels an active task and all its active runs; false for a finished one; not found otherwise |
| `QueueStorage.QueueStorage.RetryTask` | sql/migrations/0005_failure_and_cancellation.sql:231-325 | opens a failed task for one more attempt and extends the effective budget only |
| `Records.ReopensIff` | sql/migrations/0005_failure_and_cancellation.sql:265-284 | exactly failed tasks in time, with an attempt number left, can be retried by hand |
| `Records.ReopenRows` | sql/migrations/0005_failure_and_cancellation.sql:286-321 | the row that a manual retry adds and what it changes of the task: the budget only when used up, no start or submission time |
| `Records.ReopenedEligible` | sql/migrations/0005_failure_and_cancellation.sql:291-307 | that attempt can be claimed from the reading of the retry on |
| `QueueStorage.QueueStorage.ReapExpiredRun` | sql/migrations/0006_task_claiming.sql:16-65 | fails an expired run with the reserved reason after checking again; false when it is not expired any more |
| `QueueStorage.QueueStorage.SuperviseRun` | sql/migrations/0006_task_claiming.sql:73-191 | reports, cancels, reaps or renews as its plan states |
| `QueueStorage.QueueStorage.ReapExpiredRuns` | sql/migrations/0006_task_claiming.sql:198-237 | the loop over the selected runs counts the reaped ones; the first exception undoes them all |
| `QueueStorage.QueueStorage.CancelExpiredTasks` | sql/migrations/0006_task_claiming.sql:243-293 | the loop over the selected due tasks counts the cancelled ones |
| `QueueStorage.QueueStorage.ClaimTasks` | sql/migrations/0006_task_claiming.sql:305-425 | validation, both sweeps, a fresh reading, the ordered selection and the two updates have the outcome of the claim plan |
| `QueueStorage.QueueStorage.StartRuns` | sql/migrations/0006_task_claiming.sql:381-405 | the two updates start exactly the selected runs and their tasks |
| `QueueStorage.QueueStorage.SpawnTask` | sql/migrations/0003_task_submission.sql:328-577 | inserts a task and its first run, or returns the holder of the key, or conflicts |
| `Records.SpawnRows` | sql/migrations/0003_task_submission.sql:418-576 | the two rows that a first submission adds, with every default |
| `QueueStorage.QueueStorage.GetTaskResult` | sql/migrations/0003_task_submission.sql:277-314 | name and state, the result only when completed, the failure only when failed, no row for a missing task |
| `QueueStorage.QueueStorage.SetTaskCheckpointState` | sql/migrations/0007_checkpoints.sql:19-97 | the first value under a name wins; later calls get it back unwritten |
| `QueueStorage.QueueStorage.GetTaskCheckpointStates` | sql/migrations/0007_checkpoints.sql:104-141 | all checkpoints of the task, for the owner of a valid lease only |
| `QueueStorage.QueueStorage.CleanupTasks` | sql/migrations/0008_cleanup.sql:15-97 | deletes the selected tasks with their runs and checkpoints and returns their number |
| `Service.Serve` | sql/migrations/0004_run_control.sql:204-334 | serving any call by its method is the step of the history, and keeps the invariant |
| `Deadlines.DeadlinesAbsorbing` | sql/migrations/0003_task_submission.sql:245-270 | once due, a deadline is due in every later state, and from then on the task's rows only stay, become cancelled, or are removed: no lease, checkpoint, result, failure or run is added |
| `Deadlines.FrozenStep` | sql/migrations/0006_task_claiming.sql:371-376 | the same for one transition, including the claim that would switch from maxDelay to maxDuration |
| `Limits.DeadlineFixed` | sql/migrations/0003_task_submission.sql:245-270 | in every history a started task keeps the time of its first claim, so its limit stays that time plus maxDuration |
| `Limits.SweepLeavesNoneLate` | sql/migrations/0006_task_claiming.sql:265-290 | after a deadline sweep with nothing locked and a sufficient limit no active task is left with enqueue time plus maxDelay passed before its first claim, or first claim plus maxDuration passed after it |
| `Limits.SweepCancelsOnlyLate` | sql/migrations/0006_task_claiming.sql:265-290 | every task that a deadline sweep touches had passed its own one of these two limits |
| `Limits.CancelsInOrder` | sql/migrations/0006_task_claiming.sql:277-278 | an unlocked deadline sweep that leaves some late tasks has taken those of lower ids |
| `Limits.CompletesInTime` | sql/migrations/0004_run_control.sql:220-230 | a held run is completed exactly when its task is in time, and cancelled otherwise |
| `Limits.SuspendsInTime` | sql/migrations/0004_run_control.sql:284-305 | suspension, readiness or cancellation, decided by the wake time, the reading and the two limits |
| `Fencing.FinishedRunFenced` | sql/migrations/0004_run_control.sql:138-190 | a call addressed to a finished or removed run changes no row |
| `Fencing.PermanentFencing` | sql/migrations/0004_run_control.sql:138-190 | once finished, a run's row never changes in any history, and every later call addressed to it changes nothing |
| `Fencing.ExpiredLeaseNeverRevived` | sql/migrations/0006_task_claiming.sql:148-165 | in any history an expired lease stays, or ends by reaping with the reserved reason, or by cancellation |
| `Fencing.ClosedTasksAbsorbing` | sql/migrations/0005_failure_and_cancellation.sql:192-194 | completed and cancelled tasks keep all their rows until removed |
| `Fencing.PayloadsPresent` | src/db.rs:141-178 | after any history the decoder never meets a completed task without result or a failed one without failure |
| `Fencing.ResultStable` | sql/migrations/0003_task_submission.sql:294-307 | every later snapshot of a completed task shows the same result |
| `Endings.BodyValuePublished` | src/executor.rs:127-134 | a counted completion shows clients exactly the value that the task returned, from then on and as long as the task is retained, whatever happens |
| `Endings.ResultPublished` | sql/migrations/0004_run_control.sql:234-259 | a completion that takes effect shows its own value and ended the task at its own reading, in every later history |
| `Endings.FailureShown` | sql/migrations/0005_failure_and_cancellation.sql:47-60 | a failure that ends the task shows its own reason and its own reading |
| `Endings.CancelShown` | sql/migrations/0005_failure_and_cancellation.sql:186-221 | cancellation takes effect exactly on active tasks, ends the task at its reading, releases its active runs and changes nothing else |
| `Endings.SeenIsState` | sql/migrations/0003_task_submission.sql:289-311 | the six kinds of snapshot stand for the six states |
| `Sweeps.ReapSweepExact` | sql/migrations/0006_task_claiming.sql:206-235 | under any readings the reaper returns min(limit, number of unlocked expired runs) and exactly the selected runs stop being expired, unless one has an exhausted attempt counter, when it raises |
| `Sweeps.CancelSweepExact` | sql/migrations/0006_task_claiming.sql:251-291 | the deadline sweep never raises and cancels exactly min(limit, number of due active tasks) |
| `Sweeps.JoinLosesNothing` | sql/migrations/0006_task_claiming.sql:266-276 | joining through the authoritative run finds every due active task |
| `Sweeps.ReapUndisturbed` | sql/migrations/0006_task_claiming.sql:215-233 | reaping one candidate leaves every other candidate expired and as reapable as before |
| `Sweeps.StrategyNeverRaises` | sql/migrations/0003_task_submission.sql:440-443 | a stored retry strategy never makes a failure raise |
| `Claiming.MaintenanceKeepsEligible` | sql/migrations/0006_task_claiming.sql:350-357 | maintenance never takes away a run that is eligible at the claim's own fresh reading, and makes nothing else eligible but retries it created |
| `Claiming.ClaimRefines` | sql/migrations/0006_task_claiming.sql:359-417 | the claimed runs are exactly the first min(quantity, n) of the n claimable ones by (available_at, id), in order, each row spelled out column by column: a full lease from the claim's own reading, first start times kept; no other row changes |
| `Claiming.ClaimSpecUnique` | sql/migrations/0006_task_claiming.sql:377-405 | that specification determines the assignments and every row |
| `Limits.ClaimableIff` | sql/migrations/0006_task_claiming.sql:359-376 | the rows a claim chooses from, column by column: waiting run and task, authoritative, available, of a served name and not past a limit |
| `Limits.ClaimedInTime` | sql/migrations/0006_task_claiming.sql:397-401 | no claim hands out a never started task whose maxDelay has passed, nor a started one whose maxDuration has; the first claim of a task is what its duration counts from |
| `Records.HandedOutAsSubmitted` | sql/migrations/0006_task_claiming.sql:406-417 | in every history whoever is handed an attempt gets the name, parameters and headers of the submission |
| `Claiming.ClaimRaisesIffStuck` | sql/migrations/0006_task_claiming.sql:350-352 | a well-formed claim raises exactly when its reaping sweep selects a run with an exhausted attempt counter |
| `Exhaustion.StuckRaises` | sql/migrations/0005_failure_and_cancellation.sql:62-64 | failing a run at the last attempt number raises, by its worker while the lease is valid and by the reaper afterwards |
| `Exhaustion.StuckStays` | sql/migrations/0005_failure_and_cancellation.sql:62-64 | in every history an expired run at the last attempt number stays as it is unless its task is cancelled |
| `Exhaustion.StuckBlocksForGood` | sql/migrations/0006_task_claiming.sql:350-352 | after any history that does not cancel its task, every claim whose sweep selects it before the deadline raises |
| `Exhaustion.ExhaustedReached` | sql/migrations/0005_failure_and_cancellation.sql:286-321 | a history of failures and manual retries from the empty queue reaches such a run |
| `Exhaustion.ExhaustedBlocksClaims` | sql/migrations/0006_task_claiming.sql:350-352 | on that queue every claim with nothing locked raises once the lease has ended |
| `Claiming.ClaimBounded` | sql/migrations/0006_task_claiming.sql:377-379 | a claim hands out at most as many runs as asked for, all leased to the claiming worker |
| `Ownership.ExclusiveOwnership` | sql/migrations/0006_task_claiming.sql:5-9 | two claims of one history that hand out the same run have a suspension of it, by a call in its name, between them |
| `Ownership.HandedOutWaited` | sql/migrations/0006_task_claiming.sql:366-369 | a claim hands out only runs that wait, or that its own maintenance creates, and leaves them running |
| `Claiming.NobodyOvertakes` | sql/migrations/0005_failure_and_cancellation.sql:69-119 | the waiting runs ahead of a position whose time has come never grow in number, in any history |
| `Claiming.ClaimProgress` | sql/migrations/0006_task_claiming.sql:366-379 | a claim that serves a waiting run hands it out or takes `quantity` runs from ahead of it |
| `Claiming.BoundedWaiting` | sql/migrations/0006_task_claiming.sql:377-379 | while a run waits, the claims that serve it ask for no more runs in all than were ahead of it, so it waits for finitely many |
| `Selection.PageIsPage` | sql/migrations/0006_task_claiming.sql:222-224 | a bounded ordered query returns min(limit, n) rows in order and leaves out only later ones |
| `Selection.PageUnique` | sql/migrations/0006_task_claiming.sql:377-378 | ordering by (key, id) leaves no choice of rows or order |
| `Supervision.VerdictAgrees` | sql/migrations/0006_task_claiming.sql:93-165 | under any non-decreasing readings the reported verdict is the one the tables hold afterwards; cancelled iff the task or run ends cancelled |
| `Supervision.SuperviseRaises` | sql/migrations/0006_task_claiming.sql:85-165 | supervision raises exactly for a bad renewal, a missing or pending run, or an expired one with an exhausted attempt counter; the nested reap never fails its own checks |
| `Supervision.LeaseLostIffReaped` | sql/migrations/0006_task_claiming.sql:98-106 | after any history with honest reasons, a failed run of an uncancelled task is reported lease-lost iff the reaper failed it |
| `Supervision.ReasonFields` | sql/migrations/0006_task_claiming.sql:45-58 | the payload of a reaped lease names the attempt, its holder and the end of its lease |
| `Leases.LeaseNeverLost` | sql/migrations/0006_task_claiming.sql:167-187 | with polls at most half a lease apart on the database clock, no stretch of running ends in a lost lease, in histories of any length |
| `Leases.PolledClaimNeverLost` | sql/migrations/0006_task_claiming.sql:356-357 | the same from the claim on |
| `Leases.PollRefreshes` | sql/migrations/0006_task_claiming.sql:170-186 | a poll before expiry leaves more than half a lease whether or not it writes |
| `Leases.RenewalsApart` | sql/migrations/0006_task_claiming.sql:167-173 | two renewal writes in one stretch of running are at least half a lease apart |
| `Leases.NeverShortened` | sql/migrations/0006_task_claiming.sql:178-181 | within a stretch of running the expiry only moves forward |
| `Grants.PollWrites` | sql/migrations/0006_task_claiming.sql:167-187 | a poll in time writes exactly when at most half the lease remains, then leaves exactly a full one from its own reading, and changes nothing else |
| `Grants.SupervisedInTime` | sql/migrations/0006_task_claiming.sql:131-187 | a running run is cancelled past its limit, goes on in time with a valid lease, and stops running otherwise |
| `Grants.LeaseIsGranted` | sql/migrations/0006_task_claiming.sql:354-405 | after any history from an empty queue a running run is leased until exactly what one of its claims or polls granted |
| `Grants.GrantedOut` | sql/migrations/0006_task_claiming.sql:24-35 | once every grant has passed, a run still running is expired |
| `Grants.UnpolledExpires` | sql/migrations/0006_task_claiming.sql:167-187 | while it goes on running, a run is leased for at most one lease after its latest poll, so one that is not polled any more is expired by then |
| `Grants.UnpolledClaimExpires` | sql/migrations/0006_task_claiming.sql:354-405 | the same from the claim on |
| `Grants.ReapsInOrder` | sql/migrations/0006_task_claiming.sql:215-228 | an unlocked reaping sweep that leaves some expired leases has taken those that ran out earlier |
| `Leases.SupervisionInterval` | src/executor.rs:276-279 | the polling interval is positive, at most half the lease and at most one second |
| `Leases.Slack` | src/executor.rs:274-279 | what a poll may take on top of the interval: nothing for leases of one and two seconds, lease/2 - 1 seconds otherwise |
| `Leases.CadenceKeepsLease` | src/executor.rs:257-272 | the worker's cadence keeps the lease for as long as no poll exceeds the slack |
| `Leases.NoSlackLost` | src/executor.rs:274-279 | any latency above the slack can lose the lease with polls that keep the worker's cadence at that latency |
| `Leases.HalfLeaseTight` | sql/migrations/0006_task_claiming.sql:170-173 | polls further apart than half a lease can lose it, however little further |
| `Retention.CleanupExact` | sql/migrations/0008_cleanup.sql:48-95 | deletes the oldest min(limit, n) expired finished tasks, whole, keeps every row of all others and every active task |
| `Retention.CleanupDrains` | sql/migrations/0008_cleanup.sql:50-95 | at a fixed clock the backlog shrinks by the limit in each pass and is empty exactly from ceil(n / limit) passes on |
| `Endings.EndIsFromEndingCall` | sql/migrations/0008_cleanup.sql:52-73 | after any history from an empty queue the time retention counts from lies within the call that ended the task for the last time |
| `Endings.RemovesOnlyOld` | sql/migrations/0008_cleanup.sql:50-84 | what a cleanup removes had ended at least the retention period before; it goes whole, everything else stays |
| `Endings.RemovesOldestFirst` | sql/migrations/0008_cleanup.sql:76-78 | an old unlocked task that stays means a full batch of tasks that ended earlier |
| `Policies.RetryDelayTotal` | sql/migrations/0003_task_submission.sql:106-183 | a strategy accepted at attempt 1 gives, at every attempt, a delay between 0 and its cap of at most 2147483647 |
| `Policies.RetryDelayMonotone` | sql/migrations/0003_task_submission.sql:164-175 | for factors of at least one the delay never shrinks |
| `Policies.MonotoneIff` | sql/migrations/0003_task_submission.sql:164-175 | the delay never shrinks iff the factor is at least one, base or cap is zero, or no later delay is computed below the cap |
| `Policies.DelayFallsIff` | sql/migrations/0003_task_submission.sql:170-175 | below one, the delay falls at the next attempt iff that one is computed below the cap, and is the cap otherwise |
| `Policies.HalvingShrinks` | sql/migrations/0003_task_submission.sql:170-171 | an input whose delay shrinks |
| `Policies.UnderflowJumps` | sql/migrations/0003_task_submission.sql:172-174 | an input whose delay jumps to the cap: a quarter of a second times the least positive double underflows |
| `Policies.RetryDelaySaturates` | sql/migrations/0003_task_submission.sql:170-175 | once at the cap the delay stays there, also when the power overflows |
| `Submission.NormalizeSpawnOptions` | src/queue.rs:457-515 | for any conversion of durations to doubles, accepts exactly the acceptable configurations, and the object it builds is read by the database as the canonical options |
| `Submission.RetryStrategyJson` | src/queue.rs:518-561 | accepts exactly the acceptable strategies, and the database reads the strategy back |
| `Submission.PolicyJson` | src/queue.rs:472-489 | both limits are read back rounded up; the object is empty exactly when no limit is set |
| `Submission.WholeSeconds` | src/queue.rs:583-591 | the least whole number of seconds that covers the duration, or an error when it does not fit |
| `Idempotency.CanonicalIff` | sql/migrations/0003_task_submission.sql:394-443 | two configurations have the same stored request iff they agree up to empty headers, empty policies, defaults, delays of the same double, and limits within the same whole second |
| `Idempotency.ClientAcceptsOnlyValid` | src/queue.rs:497-538 | whatever the client lets through, the database accepts |
| `Idempotency.RespawnExact` | sql/migrations/0003_task_submission.sql:503-553 | after any history that retains the task, its key returns the same task without mutation iff the request is the same, and conflicts otherwise |
| `Idempotency.IdempotentSubmission` | sql/migrations/0003_task_submission.sql:316-327 | the same end to end, on client configurations |
| `Idempotency.KeyFreedOnlyByCleanup` | sql/migrations/0008_cleanup.sql:50-84 | a key has exactly one holder while its task is retained; when the task is gone, some cleanup call removed it, finished and past its retention period |
| `Workflows.CheckpointAgreement` | src/context.rs:346-403 | in every interleaving, caches are part of the durable checkpoints, caches of one task agree, and successful calls of one step agree |
| `Workflows.DurableSleep` | src/context.rs:264-282 | each sleep identity suspends its task at most once; a sleep returns normally only after the first committed wake time |
| `Workflows.LateContextReplays` | src/context.rs:105-140 | a context opened after a commit never runs that body, however the run goes on |
| `Workflows.LaterCallAgrees` | src/context.rs:346-363 | two successful calls of one step, however far apart, return the same stored value |
| `Workflows.CallEvolves` | sql/migrations/0007_checkpoints.sql:65-93 | no call changes or loses a checkpoint of a retained task, and a suspended task runs again only from its wake time on |
| `Context.TaskContext.New` | src/context.rs:105-140 | a new context's cache is all committed checkpoints of its task; the errors are those of loading them |
| `Context.TaskContext.PersistCheckpoint` | src/context.rs:380-403 | commits or adopts, and caches what is stored |
| `Context.TaskContext.Step` | src/context.rs:187-195 | a typed step is one action of the interleaved machine, and returns the decoding of the value logged there |
| `Context.TaskContext.Checkpoint` | src/context.rs:346-363 | runs the body only without a cached value; a success is always the decoding of the stored value; it is the machine's recall or persist action |
| `Context.TypedAgreement` | src/context.rs:172-186 | two successful calls of one typed step return the same value, across contexts, attempts and time |
| `Context.PersistRealized` | src/context.rs:380-403 | committing through the database function is the machine's persist action |
| `Context.RestRealized` | src/context.rs:412-430 | scheduling through the database function is the machine's rest action |
| `Context.TaskContext.SleepUntil` | src/context.rs:264-282 | a first call commits the requested wake time, later ones use the first committed one; suspension puts the run to sleep until exactly then; it is a run of the machine's actions |
| `Basics.ClientNameValid` | src/context.rs:455-457 | the client's check, which trims Unicode white space, accepts only names that the database accepts |
| `Names.ReadBack` | src/context.rs:454-494 | every storage name is read back as its identity |
| `Names.NamesInjective` | src/context.rs:24-33 | step, keyed step, sleep and task-wait names never collide, over all byte strings |
| `Names.KeyedReadBack` | src/context.rs:480-483 | the length prefix separates name and key whatever they contain |
| `Names.TaskWaitReadBack` | src/context.rs:318-318 | the fixed width of the task id separates it from a queue name with colons |
| `Names.NamesValid` | src/context.rs:454-494 | exactly which names are refused, and that the others are valid checkpoint names of at most 1024 bytes |
| `Metrics.QueueMetrics.RecordClaimed` | src/metrics.rs:121-131 | the saturating counter shows the unbounded count, and the highest number of claimed, uncounted runs is kept |
| `Metrics.QueueMetrics.RecordClaimError` | src/metrics.rs:134-136 | the same for refused claims |
| `Metrics.TaskExecution.Finish` | src/metrics.rs:171-192 | one execution, its time and exactly the counter of its outcome are counted; dropping the guard afterwards adds nothing |
| `Metrics.TaskExecution.Drop` | src/metrics.rs:194-203 | an unfinished guard counts as one unhandled execution |
| `Metrics.ShownBalance` | src/metrics.rs:178-203 | below saturation the shown executions are the sum of the five outcomes and the unhandled ones |
| `Executor.AttemptTruthful` | src/executor.rs:52-186 | for every attempt and whatever other sessions do before each of its calls, it is counted as supervision reports its run, a run without a verdict as unhandled, iff not in a listed state of the tables that its last call found |
| `Executor.ExecuteTask` | src/executor.rs:52-186 | the steps of the attempt come to exactly that conclusion, in outcome, error and tables, and it is counted exactly once |
| `Executor.FinishFailure` | src/executor.rs:189-219 | the failure transition and its confirmation come to the conclusion of `FailureEnd` |
| `Executor.FailureEndTruthful` | src/executor.rs:189-219 | that conclusion agrees with the tables, and is counted as supervision reports with the exact exceptions |
| `Executor.FinishOutput` | src/executor.rs:127-134 | completion comes to the conclusion of `OutputEnd`: a deadline and a cancellation by others both count as cancelled, other refusals but a lost lease are unhandled |
| `Executor.OutputEndTruthful` | src/executor.rs:127-134 | that conclusion is counted as supervision reports with the exact exceptions |
| `Executor.LoadExact` | src/executor.rs:85-101 | the same when the loading of checkpoints is refused |
| `Executor.ObservingExact` | src/executor.rs:73-74 | supervision that raises leaves the attempt unhandled, as it has no verdict then, save with a non-positive lease |
| `Executor.SuperviseExecution` | src/executor.rs:257-272 | polls one after the other until one raises or finds the run not running, or the body has ended |
| `Executor.PollsTruthful` | src/executor.rs:257-272 | what the polls end with is what the tables say |
| `Executor.RefusedIff` | sql/migrations/0004_run_control.sql:138-190 | which refusal a worker's call gets, in terms of the tables before it |
| `Executor.RefusalDiffersIff` | src/executor.rs:126-219 | for every refused call, in terms of the tables before it, exactly when its counting parts from supervision; what is counted agrees with the tables all the same |
| `Executor.SettledIff` | sql/migrations/0006_task_claiming.sql:93-121 | supervision has a verdict exactly on runs that are neither running nor pending |
| `Executor.ReportedIff` | sql/migrations/0006_task_claiming.sql:93-121 | each reported outcome in terms of the rows |
| `Executor.ReapedCountsAsFailed` | src/executor.rs:212-215 | an input where a reaped run counts as failed |
| `Executor.CancelledCountsAsFailed` | src/executor.rs:212-215 | an input where a run of a cancelled task counts as failed |
| `Executor.UnreapedCountsAsLost` | src/executor.rs:131-131 | an input where a running run counts as lease lost |
| `Executor.CancelledWhileLoading` | src/executor.rs:100-100 | an input where a cancelled run is unhandled |
| `Executor.ReapedBeforeCompletion` | src/executor.rs:132-132 | an input where a reaped run is unhandled |
| `Executor.FailedByAnotherHolder` | src/executor.rs:132-132 | an input where a failed run is unhandled |
| `Executor.CompletedByAnotherHolder` | src/executor.rs:217-217 | an input where a completed run is unhandled |
| `Executor.SerializeError` | src/executor.rs:308-336 | the loop renders the error with the causes it does not mention yet; the message starts with the error and mentions every cause; the name is never the reserved one |
| `Worker.RunWorkerLoop` | src/worker.rs:87-211 | the log of its claims and executions leads from the tables and counters at the start to those at the end; every execution is the attempt of a run that was handed out and not executed since; on return the runs executed are as a multiset those handed out, except on the early return; every claim asks for all the free capacity; unless something failed, each round got its turn or one stopped the worker; the first fatal error is returned |
| `Worker.Finish` | src/worker.rs:178-195 | each execution is the attempt of exactly the given run, with its tables, error and count, or breaks or crashes and leaves the tables alone |
| `Worker.Settle` | src/worker.rs:172-196 | whichever live execution ends next, it is that run that is executed, and taken out of those in flight |
| `Worker.ProperBalance` | src/worker.rs:87-197 | at every point of the loop executed runs are among those handed out, each no more often; at most `concurrency` are in flight; the counters say so; only registered tasks are handed out |
| `Worker.CountedNeverStops` | src/worker.rs:179-194 | an execution counted under an outcome never stops the worker |
| `WorkerHistory.AttemptLeads` | src/executor.rs:52-219 | the tables an attempt leaves are those that its database calls lead to, with what others do in between |
| `WorkerHistory.WorkerIsHistory` | src/worker.rs:87-211 | a whole run of the loop is one history of database calls, so the theorems about histories hold of it |
| `Worker.Abort` | src/worker.rs:126-128 | executions dropped by the early return count as unhandled if they had begun |
| `Worker.RowsDecode` | src/db.rs:214-242 | every row of every claim on valid tables is decoded as it was made, so neither decoding error arises |
| `Worker.ClaimBatch` | src/worker.rs:126-161 | a claim is answered with exactly the rows it hands out, at most the batch asked for, each leased to this worker; a refused one leaves the tables to others |
| `Worker.RunWorker` | src/worker.rs:560-575 | a built worker never takes the early return: it executes exactly what it was handed out |
| `Worker.BuiltClaimsValid` | src/worker.rs:98-137 | every claim of a built worker is well formed |
| `Worker.WorkerBuilder.LeaseDuration` | src/worker.rs:390-409 | accepts exactly the durations that round to 1..2147483647 seconds; the first error sticks |
| `Worker.WorkerBuilder.Concurrency` | src/worker.rs:416-433 | accepts exactly 1..2147483647 |
| `Worker.WorkerBuilder.Register` | src/worker.rs:472-507 | accepts exactly new valid names |
| `Worker.WorkerBuilder.Build` | src/worker.rs:514-524 | succeeds iff there was no error and there is a task, with every setting in range; the lease is the least whole number of seconds that covers the duration |

## Left out

- Queue creation, dropping, storage verification, retention settings, `cleanup_all_queues`: catalog work and a loop over queues.
- Row locks, MVCC snapshots, advisory locks and deadlocks: each function is one step, and locked rows are skipped rows.
- Clock going backwards and id order: the database clock is assumed not to decrease, and ids to increase strictly (the ordering intended by UUID version 7, section 5.7 of RFC 9562).
- Overlapping calls: a later call's readings are not earlier than those of the call before it.
- Floating-point rounding of the retry delay, timestamps rounded to microseconds, timestamp range: times and delays are reals, with explicit overflow and underflow of doubles in the delay. The client's conversion of durations to doubles is any function that keeps order, whole seconds and positivity.
- JSON texts: values are a datatype; times are stored as numbers, and serializers are assumed to round-trip.
- SQL NULL arguments where the Rust client never passes one, and the `created_at` column.
- White space in the database: its blank check knows ASCII white space only, while its locale may know more; the client's check is modelled on Unicode white space.
- SQLSTATE classes of transient errors, connection pools, middleware, panics inside the runtime, logging: I/O and foreign libraries. The loop is told whether an error is transient.
- `await_task_result_snapshot`, `sleep_for` (the database's time plus a duration, then the modelled sleep), caller-owned transactions, the name check of task waits and the rejection of waits on the same queue: easy additions.
- Per-name locks of a context: their effect, that a name is not cached while its body runs, is the enabling condition of persisting.
- History.HistoryInv: in histories only the reaper fails a run with an expired lease, as in the source; for calls from outside with other reasons `Service.FailureKeepsInv` states the invariant.
- Idempotency.IdempotentSubmission: the factor of a retry strategy is assumed to be a double.
- Supervision.LeaseLostIffReaped: assumes that workers do not fail runs under the reserved name, which `Executor.SerializeError` shows of the executor.
- Worker.RunWorkerLoop: executions end in an order given by the environment and are joined in that order; an attempt is carried out when it ends, so calls of attempts that overlap it, and those of one whose connection breaks before it ends, are among those of other sessions.
- Executor.ExecuteTask: how the task's code runs is an input: its polls, and its value, error or panic.
