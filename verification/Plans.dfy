/**
 * The outcome of each database function on the tables: the error it raises, or the value it returns,
 * the tables it leaves and the primitive transitions that lead there. A raised exception rolls the whole
 * call back, nested calls included. `k` counts the clock readings already taken.
 */
module Plans {
  import opened Basics
  import opened Policies
  import opened Selection
  import opened Storage

  datatype Outcome<+T> = Raise(error: Error) | Commit(value: T, db: Db, moves: seq<Move>)

  function Unchanged<T>(db: Db, value: T): Outcome<T> {
    Commit(value, db, [])
  }

  function Step<T>(db: Db, value: T, m: Move): Outcome<T>
    requires Can(db, m)
  {
    Commit(value, Do(db, m), [m])
  }

  // ---- Run control ----

  /** The checks of `lock_running_attempt`, in order; None when the run may be changed. */
  function LockError(db: Db, r: RunId, expectExpired: bool, at: Time): Option<Error> {
    if r !in db.runs || db.runs[r].taskId !in db.tasks then Some(NotFound)
    else
      var run, task := db.runs[r], db.tasks[db.runs[r].taskId];
      if run.state == Cancelled then Some(TaskCancelled)
      else if run.state == Failed then Some(RunAlreadyFailed)
      else if run.state != Running then Some(NotRunning)
      else if task.state == Cancelled then Some(TaskCancelled)
      else if task.state != Running || task.lastAttemptRun != r then Some(NotAuthoritative)
      else if run.claimExpiresAt.None? then Some(NoFiniteLease)
      else if expectExpired then
        if run.claimExpiresAt.value > at then Some(LeaseNotExpired) else None
      else if run.claimExpiresAt.value <= at then Some(LeaseLost) else None
  }

  /** Completion; false when the cancellation deadline wins. */
  function CompletePlan(db: Db, r: RunId, result: Option<Json>, c: Clock, k: nat): Outcome<bool> {
    var at := Reading(c, k);
    match LockError(db, r, false, at)
    case Some(e) => Raise(e)
    case None =>
      if TaskDue(TaskOfRun(db, r), at) then Step(db, false, CancelTask(db.runs[r].taskId, Reading(c, k + 1)))
      else if result.None? then Raise(ConstraintViolation)
      else Step(db, true, CompleteRun(r, result.value, at))
  }

  datatype ScheduleOutcome = Ready | Suspended | CancelledInstead

  /** Suspension until `wakeAt`; a deadline due now or by the wake time cancels instead. */
  function SchedulePlan(db: Db, r: RunId, wakeAt: Time, c: Clock, k: nat): Outcome<ScheduleOutcome> {
    var at := Reading(c, k);
    match LockError(db, r, false, at)
    case Some(e) => Raise(e)
    case None =>
      if TaskDue(TaskOfRun(db, r), at) || TaskDue(TaskOfRun(db, r), wakeAt) then
        Step(db, CancelledInstead, CancelTask(db.runs[r].taskId, Reading(c, k + 1)))
      else if wakeAt <= at then Unchanged(db, Ready)
      else Step(db, Suspended, SuspendRun(r, wakeAt, at))
  }

  // ---- Failure, cancellation and manual retry ----

  /** Only the reaper expects an expired lease, and it fixes the reason. */
  function FailPlan(db: Db, r: RunId, reason: Option<Json>, expectExpired: bool, c: Clock, k: nat): Outcome<()>
    requires expectExpired && r in db.runs ==> reason == Some(LeaseExpiredReason(db.runs[r]))
  {
    hide RetryDelay, LeaseExpiredReason, CancellationDue, Do;
    var at := Reading(c, k);
    match LockError(db, r, expectExpired, at)
    case Some(e) => Raise(e)
    case None =>
      var run, task := db.runs[r], TaskOfRun(db, r);
      if TaskDue(task, at) then Step(db, (), CancelTask(run.taskId, Reading(c, k + 1)))
      else if reason.None? then Raise(ConstraintViolation)
      else if run.attempt >= INT_MAX then Raise(IntegerOutOfRange)
      else if task.retry.NoRetry? || run.attempt + 1 > task.maxAttempts then
        Step(db, (), FailFinally(r, reason.value, expectExpired, at))
      else if RetryDelay(task.retry, run.attempt).Err? then Raise(InvalidStrategy)
      else if TaskDue(task, NextAvailable(task, run.attempt, at)) then
        Step(db, (), FailAndCancel(r, reason.value, expectExpired, at, Reading(c, k + 1)))
      else Step(db, (), FailAndRetry(r, reason.value, expectExpired, at))
  }

  function CancelPlan(db: Db, t: TaskId, c: Clock, k: nat): Outcome<bool> {
    if t !in db.tasks then Raise(NotFound)
    else if !Active(db.tasks[t].state) then Unchanged(db, false)
    else Step(db, true, CancelTask(t, Reading(c, k)))
  }

  /** The id of the new run. */
  function RetryPlan(db: Db, t: TaskId, c: Clock, k: nat): Outcome<RunId> {
    if t !in db.tasks then Raise(NotFound)
    else if db.tasks[t].state != Failed then Raise(NotFailed)
    else if TaskDue(db.tasks[t], Reading(c, k)) then Raise(DeadlineElapsed)
    else if db.tasks[t].attempts >= INT_MAX then Raise(IntegerOutOfRange)
    else Step(db, db.nextId, ReopenTask(t, Reading(c, k)))
  }

  // ---- Leases and claims ----

  /** Reaping of one run; false when it is not an expired running run any more. */
  function ReapPlan(db: Db, r: RunId, c: Clock, k: nat): Outcome<bool> {
    var at := Reading(c, k);
    if r !in db.runs || db.runs[r].taskId !in db.tasks then Raise(NotFound)
    else
      var run, task := db.runs[r], db.tasks[db.runs[r].taskId];
      if run.state != Running || run.claimExpiresAt.None? || run.claimExpiresAt.value > at then Unchanged(db, false)
      else if task.state != Running || task.lastAttemptRun != r then Raise(NotAuthoritative)
      else
        match FailPlan(db, r, Some(LeaseExpiredReason(run)), true, c, k + 1)
        case Raise(e) => Raise(e)
        case Commit(_, db', moves) => Commit(true, db', moves)
  }

  datatype Verdict = StillRunning | RunCompleted | RunFailed | RunCancelled | RunSuspended | LeaseExpired

  function LaterOf(a: Time, b: Time): Time {
    if a < b then b else a
  }

  /** Observation of one run, renewing its lease for `renew` seconds once half of them remain. */
  function SupervisePlan(db: Db, r: RunId, renew: Option<int>, c: Clock, k: nat): Outcome<Verdict> {
    var at := Reading(c, k);
    if renew.Some? && renew.value <= 0 then Raise(InvalidArgument)
    else if r !in db.runs || db.runs[r].taskId !in db.tasks then Raise(NotFound)
    else
      var run, task := db.runs[r], db.tasks[db.runs[r].taskId];
      if task.state == Cancelled || run.state == Cancelled then Unchanged(db, RunCancelled)
      else if run.state == Failed then
        var expired := run.failureReason.Some? && NamedLeaseExpired(run.failureReason.value);
        Unchanged(db, if expired then LeaseExpired else RunFailed)
      else if run.state == Completed then Unchanged(db, RunCompleted)
      else if run.state == Sleeping then Unchanged(db, RunSuspended)
      else if run.state != Running then Raise(UnsupportedState)
      else if task.state != Running || task.lastAttemptRun != r then Raise(NotAuthoritative)
      else if TaskDue(task, at) then Step(db, RunCancelled, CancelTask(run.taskId, Reading(c, k + 1)))
      else if run.claimExpiresAt.None? then Raise(NoFiniteLease)
      else if run.claimExpiresAt.value <= at then
        match ReapPlan(db, r, c, k + 1)
        case Raise(e) => Raise(e)
        case Commit(_, db', moves) =>
          var cancelled := run.taskId in db'.tasks && db'.tasks[run.taskId].state == Cancelled;
          Commit(if cancelled then RunCancelled else LeaseExpired, db', moves)
      else if renew.Some? && run.claimExpiresAt.value <= at + renew.value as real / 2.0 then
        Step(db, StillRunning, RenewLease(r, LaterOf(run.claimExpiresAt.value, at + renew.value as real), at))
      else Unchanged(db, StillRunning)
  }

  /** The expired leases a sweep sees at one reading, with their sort keys. */
  function ExpiredRuns(db: Db, at: Time, skip: set<RunId>): map<RunId, Time> {
    map r | r in db.runs && r !in skip && Expired(db.runs[r], at)
      :: db.runs[r].claimExpiresAt.value
  }

  /** The due tasks a sweep sees, ordered by id alone. */
  function DueTasks(db: Db, at: Time, skip: set<RunId>): map<TaskId, Time> {
    map t | t in db.tasks && Active(db.tasks[t].state)
         && db.tasks[t].lastAttemptRun in db.runs && db.tasks[t].lastAttemptRun !in skip
         && Active(db.runs[db.tasks[t].lastAttemptRun].state)
         && TaskDue(db.tasks[t], at)
      :: 0.0
  }

  /** A later call follows an earlier one in the same transaction; counts add up. */
  function AndThen(hit: bool, moves: seq<Move>, rest: Outcome<nat>): Outcome<nat> {
    match rest
    case Raise(e) => Raise(e)
    case Commit(count, db, more) => Commit(count + (if hit then 1 else 0), db, moves + more)
  }

  /** Reaps the listed runs one after the other, counting; the first exception undoes them all. */
  function ReapEach(db: Db, ids: seq<RunId>, c: Clock, k: nat): Outcome<nat>
    decreases |ids|
  {
    if ids == [] then Unchanged(db, 0)
    else
      match ReapPlan(db, ids[0], c, k)
      case Raise(e) => Raise(e)
      case Commit(hit, db', moves) => AndThen(hit, moves, ReapEach(db', ids[1..], c, k + 3))
  }

  function CancelEach(db: Db, ids: seq<TaskId>, c: Clock, k: nat): Outcome<nat>
    decreases |ids|
  {
    if ids == [] then Unchanged(db, 0)
    else
      match CancelPlan(db, ids[0], c, k)
      case Raise(e) => Raise(e)
      case Commit(hit, db', moves) => AndThen(hit, moves, CancelEach(db', ids[1..], c, k + 1))
  }

  function ReapSweepPlan(db: Db, limit: int, skip: set<RunId>, c: Clock, k: nat): Outcome<nat> {
    if limit <= 0 then Raise(InvalidArgument)
    else ReapEach(db, Page(ExpiredRuns(db, Reading(c, k), skip), limit), c, k + 1)
  }

  function CancelSweepPlan(db: Db, limit: int, skip: set<RunId>, c: Clock, k: nat): Outcome<nat> {
    if limit <= 0 then Raise(InvalidArgument)
    else CancelEach(db, Page(DueTasks(db, Reading(c, k), skip), limit), c, k + 1)
  }

  /** One claimed attempt, as handed to the worker. */
  datatype Assignment = Assignment(run: RunId, task: TaskId, attempt: int, name: Text, params: Json,
                                   headers: Option<map<Text, Json>>)

  function AssignmentOf(db: Db, r: RunId): Assignment
    requires r in db.runs && db.runs[r].taskId in db.tasks
  {
    var run, task := db.runs[r], db.tasks[db.runs[r].taskId];
    Assignment(r, run.taskId, run.attempt, task.name, task.params, task.headers)
  }

  /** The arguments of a claim, and the rows other sessions have locked in each of its three queries. */
  datatype ClaimCall = ClaimCall(
    worker: Text, lease: int, quantity: int, names: seq<Text>,
    skipDue: set<RunId>, skipExpired: set<RunId>, skipWaiting: set<RunId>)

  predicate ValidClaim(call: ClaimCall) {
    && !Blank(call.worker) && call.lease > 0 && call.quantity > 0
    && call.names != [] && forall name :: name in call.names ==> !Blank(name)
  }

  /** The rows a claim may lock: runs that can start at `at` for the given task names. */
  function Claimable(db: Db, names: seq<Text>, at: Time, skip: set<RunId>): map<RunId, Time> {
    map r | r in db.runs && r !in skip && Eligible(db, r, at) && db.tasks[db.runs[r].taskId].name in names
      :: db.runs[r].availableAt
  }

  function ClaimMoves(ids: seq<RunId>, worker: Text, expires: Time, at: Time): (ms: seq<Move>)
    ensures |ms| == |ids| && forall i :: 0 <= i < |ids| ==> ms[i] == ClaimRun(ids[i], worker, expires, at)
  {
    seq(|ids|, i requires 0 <= i < |ids| => ClaimRun(ids[i], worker, expires, at))
  }

  /** The claim's one statement: the selected runs and their tasks become running together. */
  function ClaimAll(db: Db, ids: seq<RunId>, worker: Text, expires: Time, at: Time): Db {
    db.(runs := map r | r in db.runs :: if r in ids then ClaimedRun(db.runs[r], worker, expires, at) else db.runs[r],
        tasks := map t | t in db.tasks ::
          var r := db.tasks[t].lastAttemptRun;
          if r in ids && r in db.runs && db.runs[r].taskId == t then ClaimedTask(db.tasks[t], db.runs[r], r, at)
          else db.tasks[t])
  }

  /** The runs a claim hands out, in order. */
  function ClaimPage(db: Db, call: ClaimCall, at: Time): (ids: seq<RunId>)
    requires ValidClaim(call)
    ensures forall r :: r in ids ==> Eligible(db, r, at)
  {
    Page(Claimable(db, call.names, at, call.skipWaiting), call.quantity)
  }

  function Assignments(db: Db, ids: seq<RunId>): (rows: seq<Assignment>)
    requires forall r :: r in ids ==> r in db.runs && db.runs[r].taskId in db.tasks
    ensures |rows| == |ids| && forall i :: 0 <= i < |ids| ==> rows[i] == AssignmentOf(db, ids[i])
  {
    seq(|ids|, i requires 0 <= i < |ids| => AssignmentOf(db, ids[i]))
  }

  /** The readings of a claim: one on entry, the deadline sweep, the reaping sweep, and a fresh one. */
  function ReapStart(call: ClaimCall, k: nat): nat
    requires ValidClaim(call)
  {
    k + 2 + call.quantity
  }

  function ClaimStart(call: ClaimCall, k: nat): nat
    requires ValidClaim(call)
  {
    ReapStart(call, k) + 1 + 3 * call.quantity
  }

  /** The bounded maintenance done before claiming: cancel due tasks, then reap expired leases. */
  function MaintenancePlan(db: Db, call: ClaimCall, c: Clock, k: nat): Outcome<nat>
    requires ValidClaim(call)
  {
    match CancelSweepPlan(db, call.quantity, call.skipDue, c, k + 1)
    case Raise(e) => Raise(e)
    case Commit(_, db', cancels) =>
      AndThen(false, cancels, ReapSweepPlan(db', call.quantity, call.skipExpired, c, ReapStart(call, k)))
  }

  function ClaimPlan(db: Db, call: ClaimCall, c: Clock, k: nat): Outcome<seq<Assignment>> {
    if !ValidClaim(call) then Raise(InvalidArgument)
    else
      match MaintenancePlan(db, call, c, k)
      case Raise(e) => Raise(e)
      case Commit(_, db', upkeep) =>
        var at := Reading(c, ClaimStart(call, k));
        var expires := at + call.lease as real;
        var ids := ClaimPage(db', call, at);
        Commit(Assignments(db', ids),
               ClaimAll(db', ids, call.worker, expires, at),
               upkeep + ClaimMoves(ids, call.worker, expires, at))
  }

  // ---- Submission ----

  datatype SpawnOptions = SpawnOptions(
    headers: Option<map<Text, Json>>, maxAttempts: Option<int>, retry: Option<Strategy>,
    cancellation: Option<Policy>, idempotencyKey: Option<Text>)

  predicate ValidSpawn(name: Text, options: SpawnOptions) {
    && ValidName(name)
    && (options.maxAttempts.Some? ==> 1 <= options.maxAttempts.value <= INT_MAX)
    && (options.cancellation.Some? ==> ValidPolicy(options.cancellation.value))
    && (options.idempotencyKey.Some? ==> ValidName(options.idempotencyKey.value))
    && (options.retry.Some? ==> ValidStrategy(options.retry.value))
  }

  /** The request part of a task row: what an idempotency key stands for. */
  datatype Request = Request(
    name: Text, params: Json, headers: Option<map<Text, Json>>, retry: Strategy,
    initialMaxAttempts: int, cancellation: Option<Policy>)

  function RequestOf(task: Task): Request {
    Request(task.name, task.params, task.headers, task.retry, task.initialMaxAttempts, task.cancellation)
  }

  /** The request with defaults filled in and empty headers dropped. */
  function Resolve(name: Text, params: Option<Json>, options: SpawnOptions): Request {
    Request(
      name,
      if params.Some? then params.value else JNull,
      if options.headers == Some(map[]) then None else options.headers,
      if options.retry.Some? then options.retry.value else DEFAULT_STRATEGY,
      if options.maxAttempts.Some? then options.maxAttempts.value else 5,
      options.cancellation)
  }

  function NewTask(q: Request, key: Option<Text>, lastRun: RunId, at: Time): Task {
    Task(q.name, q.params, q.headers, q.retry, q.initialMaxAttempts, q.initialMaxAttempts, q.cancellation,
         at, None, Pending, 1, lastRun, None, key)
  }

  function KeyHolders(db: Db, key: Text): map<TaskId, Time> {
    map t | t in db.tasks && db.tasks[t].idempotencyKey == Some(key) :: 0.0
  }

  /** The task id, and whether it is new. */
  function SpawnPlan(db: Db, name: Text, params: Option<Json>, options: SpawnOptions, c: Clock,
                     k: nat): Outcome<(TaskId, bool)>
  {
    if !ValidSpawn(name, options) then Raise(InvalidArgument)
    else
      var request := Resolve(name, params, options);
      var key := options.idempotencyKey;
      if key.Some? && KeyHolders(db, key.value) != map[] then
        var t := First(KeyHolders(db, key.value));
        if RequestOf(db.tasks[t]) == request then Unchanged(db, (t, false)) else Raise(IdempotencyConflict)
      else
        var row := NewTask(request, key, db.nextId + 1, Reading(c, k));
        assert KeyUnused(db, key) by {
          assert forall t :: t in db.tasks && key.Some? && db.tasks[t].idempotencyKey == key ==>
            t in KeyHolders(db, key.value);
        }
        Step(db, (db.nextId, true), SpawnTask(row, Reading(c, k)))
  }

  /** What `get_task_result` reads: the name, state, result and failure reason of one task. */
  datatype ResultRow = ResultRow(name: Text, state: State, result: Option<Json>, failureReason: Option<Json>)

  function TaskResult(db: Db, t: TaskId): Option<ResultRow> {
    if t !in db.tasks then None
    else
      var task := db.tasks[t];
      var run := if task.lastAttemptRun in db.runs then Some(db.runs[task.lastAttemptRun]) else None;
      Some(ResultRow(task.name, task.state,
                     if task.state == Completed && run.Some? then run.value.result else None,
                     if task.state == Failed && run.Some? then run.value.failureReason else None))
  }

  // ---- Checkpoints ----

  /** The value now stored under the name, and whether this call wrote it. */
  function CheckpointPlan(db: Db, t: TaskId, name: Text, value: Json, r: RunId, c: Clock, k: nat): Outcome<(Json, bool)>
  {
    var at := Reading(c, k);
    if !ValidName(name) then Raise(InvalidArgument)
    else
      match LockError(db, r, false, at)
      case Some(e) => Raise(e)
      case None =>
        if db.runs[r].taskId != t then Raise(WrongTask)
        else if TaskDue(TaskOfRun(db, r), at) then Raise(TaskCancelled)
        else if name in Saved(db, t) then Unchanged(db, (Saved(db, t)[name], false))
        else Step(db, (value, true), CommitCheckpoint(r, name, value, at))
  }

  function LoadCheckpointsPlan(db: Db, t: TaskId, r: RunId, c: Clock, k: nat): Outcome<map<Text, Json>>
  {
    match LockError(db, r, false, Reading(c, k))
    case Some(e) => Raise(e)
    case None => if db.runs[r].taskId != t then Raise(WrongTask) else Unchanged(db, Saved(db, t))
  }

  // ---- Retention ----

  /** The terminal tasks whose retention period has passed, keyed by the time they ended. */
  function Expendable(db: Db, cutoff: Time, skip: set<TaskId>): map<TaskId, Time> {
    map t | t in db.tasks && t !in skip && !Active(db.tasks[t].state) && TerminalAt(db, t).Some?
         && TerminalAt(db, t).value <= cutoff
      :: TerminalAt(db, t).value
  }

  function RemoveMoves(ids: seq<TaskId>, at: Time): (ms: seq<Move>)
    ensures |ms| == |ids| && forall i :: 0 <= i < |ids| ==> ms[i] == RemoveTask(ids[i], at)
  {
    seq(|ids|, i requires 0 <= i < |ids| => RemoveTask(ids[i], at))
  }

  /** The cleanup's one statement: the selected tasks go, with all their runs and checkpoints. */
  function RemoveAll(db: Db, ids: seq<TaskId>): Db {
    Db(map t | t in db.tasks && t !in ids :: db.tasks[t],
       map r | r in db.runs && db.runs[r].taskId !in ids :: db.runs[r],
       map t | t in db.checkpoints && t !in ids :: db.checkpoints[t],
       db.nextId)
  }

  /** Deletion of the oldest expired terminal tasks; returns how many. */
  function CleanupPlan(db: Db, ttl: Time, limit: int, skip: set<TaskId>, c: Clock, k: nat): Outcome<nat> {
    if ttl < 0.0 || limit < 1 then Raise(InvalidArgument)
    else
      var at := Reading(c, k);
      var ids := Page(Expendable(db, at - ttl, skip), limit);
      Commit(|ids|, RemoveAll(db, ids), RemoveMoves(ids, at))
  }
}
