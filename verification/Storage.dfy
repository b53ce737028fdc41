/** The three tables of one queue, and the primitive transitions that every database function commits. */
module Storage {
  import opened Basics
  import opened Policies

  type TaskId = nat
  type RunId = nat

  datatype State = Pending | Running | Sleeping | Completed | Failed | Cancelled

  predicate Active(s: State) {
    s.Pending? || s.Running? || s.Sleeping?
  }

  predicate Waiting(s: State) {
    s.Pending? || s.Sleeping?
  }

  datatype Task = Task(
    name: Text,
    params: Json,
    headers: Option<map<Text, Json>>,
    retry: Strategy,
    initialMaxAttempts: int,
    maxAttempts: int,
    cancellation: Option<Policy>,
    enqueueAt: Time,
    firstStartedAt: Option<Time>,
    state: State,
    attempts: int,
    lastAttemptRun: RunId,
    cancelledAt: Option<Time>,
    idempotencyKey: Option<Text>)

  datatype Run = Run(
    taskId: TaskId,
    attempt: int,
    state: State,
    claimedBy: Option<Text>,
    claimExpiresAt: Option<Time>,
    availableAt: Time,
    startedAt: Option<Time>,
    completedAt: Option<Time>,
    failedAt: Option<Time>,
    result: Option<Json>,
    failureReason: Option<Json>)

  /** Checkpoint rows are grouped by their task; ids come from one strictly increasing counter. */
  datatype Db = Db(
    tasks: map<TaskId, Task>,
    runs: map<RunId, Run>,
    checkpoints: map<TaskId, map<Text, Json>>,
    nextId: nat)

  const EMPTY: Db := Db(map[], map[], map[], 0)

  function Saved(db: Db, t: TaskId): map<Text, Json> {
    if t in db.checkpoints then db.checkpoints[t] else map[]
  }

  predicate TaskDue(task: Task, at: Time) {
    CancellationDue(task.cancellation, task.enqueueAt, task.firstStartedAt, at)
  }

  function NewRun(t: TaskId, attempt: int, state: State, availableAt: Time): Run {
    Run(t, attempt, state, None, None, availableAt, None, None, None, None, None)
  }

  /** The failure payload recorded for a lease that was not renewed in time. */
  function LeaseExpiredReason(run: Run): Json {
    var fixed := map[
      "name" := JString("$LeaseExpired"),
      "message" := JString("worker did not renew task lease before expiry"),
      "attempt" := JNumber(run.attempt as real)];
    var worker := if run.claimedBy.Some? then map["workerId" := JString(run.claimedBy.value)] else map[];
    var expiry := if run.claimExpiresAt.Some? then map["claimExpiredAt" := JNumber(run.claimExpiresAt.value)]
      else map[];
    JObject(fixed + worker + expiry)
  }

  predicate NamedLeaseExpired(reason: Json) {
    reason.JObject? && "name" in reason.fields && reason.fields["name"] == JString("$LeaseExpired")
  }

  /** The run is the running, authoritative attempt of a running task and carries a lease. */
  predicate Held(db: Db, r: RunId) {
    && r in db.runs && db.runs[r].taskId in db.tasks
    && db.runs[r].state == Running
    && db.tasks[db.runs[r].taskId].state == Running
    && db.tasks[db.runs[r].taskId].lastAttemptRun == r
    && db.runs[r].claimExpiresAt.Some?
  }

  function TaskOfRun(db: Db, r: RunId): Task
    requires Held(db, r)
  {
    db.tasks[db.runs[r].taskId]
  }

  /** A running run whose lease has run out. */
  predicate Expired(run: Run, at: Time) {
    run.state == Running && run.claimExpiresAt.Some? && run.claimExpiresAt.value <= at
  }

  /** Held, with the lease still valid and no cancellation deadline reached. */
  predicate Owned(db: Db, r: RunId, at: Time) {
    && Held(db, r)
    && db.runs[r].claimExpiresAt.value > at
    && !TaskDue(TaskOfRun(db, r), at)
  }

  /** A worker fails a run it still leases; the reaper fails one whose lease has run out. */
  predicate MayFail(db: Db, r: RunId, reason: Json, reaped: bool, at: Time) {
    && Held(db, r)
    && !TaskDue(TaskOfRun(db, r), at)
    && (reaped <==> db.runs[r].claimExpiresAt.value <= at)
    && (reaped ==> reason == LeaseExpiredReason(db.runs[r]))
    && db.runs[r].attempt < INT_MAX
  }

  predicate MayRetry(task: Task, attempt: int) {
    !task.retry.NoRetry? && attempt + 1 <= task.maxAttempts && RetryDelay(task.retry, attempt).Ok?
  }

  function NextAvailable(task: Task, attempt: int, at: Time): Time
    requires RetryDelay(task.retry, attempt).Ok?
  {
    var next := at + RetryDelay(task.retry, attempt).value;
    if next < at then at else next
  }

  datatype Move =
    | SpawnTask(row: Task, at: Time)
    | ClaimRun(run: RunId, worker: Text, expires: Time, at: Time)
    | RenewLease(run: RunId, expires: Time, at: Time)
    | CompleteRun(run: RunId, result: Json, at: Time)
    | SuspendRun(run: RunId, wakeAt: Time, at: Time)
    | FailFinally(run: RunId, reason: Json, reaped: bool, at: Time)
    | FailAndCancel(run: RunId, reason: Json, reaped: bool, at: Time, cancelAt: Time)
    | FailAndRetry(run: RunId, reason: Json, reaped: bool, at: Time)
    | CancelTask(task: TaskId, at: Time)
    | ReopenTask(task: TaskId, at: Time)
    | CommitCheckpoint(run: RunId, name: Text, value: Json, at: Time)
    | RemoveTask(task: TaskId, at: Time)

  predicate KeyUnused(db: Db, key: Option<Text>) {
    key.Some? ==> forall t :: t in db.tasks ==> db.tasks[t].idempotencyKey != key
  }

  predicate FreshTask(db: Db, row: Task, at: Time) {
    && ValidName(row.name)
    && ValidStrategy(row.retry)
    && (row.cancellation.Some? ==> ValidPolicy(row.cancellation.value))
    && (row.idempotencyKey.Some? ==> ValidName(row.idempotencyKey.value))
    && 1 <= row.initialMaxAttempts == row.maxAttempts <= INT_MAX
    && row.enqueueAt == at && row.firstStartedAt.None?
    && row.state == Pending && row.attempts == 1
    && row.lastAttemptRun == db.nextId + 1 && row.cancelledAt.None?
    && KeyUnused(db, row.idempotencyKey)
  }

  predicate Eligible(db: Db, r: RunId, at: Time) {
    && r in db.runs && db.runs[r].taskId in db.tasks
    && Waiting(db.runs[r].state)
    && Waiting(db.tasks[db.runs[r].taskId].state)
    && db.tasks[db.runs[r].taskId].lastAttemptRun == r
    && db.runs[r].availableAt <= at
    && !TaskDue(db.tasks[db.runs[r].taskId], at)
  }

  /** When a terminal task ended: the time retention counts from. */
  function TerminalAt(db: Db, t: TaskId): Option<Time>
    requires t in db.tasks
  {
    var task := db.tasks[t];
    match task.state
    case Completed => if task.lastAttemptRun in db.runs then db.runs[task.lastAttemptRun].completedAt else None
    case Failed => if task.lastAttemptRun in db.runs then db.runs[task.lastAttemptRun].failedAt else None
    case Cancelled => task.cancelledAt
    case _ => None
  }

  /** The condition under which a primitive transition may be committed. */
  predicate Can(db: Db, m: Move) {
    match m
    case SpawnTask(row, at) => FreshTask(db, row, at)
    case ClaimRun(r, worker, expires, at) => Eligible(db, r, at) && !Blank(worker) && expires > at
    case RenewLease(r, expires, at) => Owned(db, r, at) && expires >= db.runs[r].claimExpiresAt.value
    case CompleteRun(r, _, at) => Owned(db, r, at)
    case SuspendRun(r, wakeAt, at) => Owned(db, r, at) && wakeAt > at && !TaskDue(TaskOfRun(db, r), wakeAt)
    case FailFinally(r, reason, reaped, at) =>
      MayFail(db, r, reason, reaped, at)
      && (TaskOfRun(db, r).retry.NoRetry? || db.runs[r].attempt + 1 > TaskOfRun(db, r).maxAttempts)
    case FailAndCancel(r, reason, reaped, at, cancelAt) =>
      && MayFail(db, r, reason, reaped, at) && MayRetry(TaskOfRun(db, r), db.runs[r].attempt)
      && TaskDue(TaskOfRun(db, r), NextAvailable(TaskOfRun(db, r), db.runs[r].attempt, at)) && at <= cancelAt
    case FailAndRetry(r, reason, reaped, at) =>
      && MayFail(db, r, reason, reaped, at) && MayRetry(TaskOfRun(db, r), db.runs[r].attempt)
      && !TaskDue(TaskOfRun(db, r), NextAvailable(TaskOfRun(db, r), db.runs[r].attempt, at))
    case CancelTask(t, at) => t in db.tasks && Active(db.tasks[t].state)
    case ReopenTask(t, at) =>
      t in db.tasks && db.tasks[t].state == Failed && !TaskDue(db.tasks[t], at) && db.tasks[t].attempts < INT_MAX
    case CommitCheckpoint(r, name, _, at) =>
      Owned(db, r, at) && ValidName(name) && name !in Saved(db, db.runs[r].taskId)
    case RemoveTask(t, at) =>
      t in db.tasks && !Active(db.tasks[t].state) && TerminalAt(db, t).Some? && TerminalAt(db, t).value <= at
  }

  /** The one task whose rows a transition may touch. */
  function Target(db: Db, m: Move): TaskId
    requires Can(db, m)
  {
    match m
    case SpawnTask(_, _) => db.nextId
    case CancelTask(t, _) => t
    case ReopenTask(t, _) => t
    case RemoveTask(t, _) => t
    case _ => db.runs[m.run].taskId
  }

  function FailedRun(run: Run, reason: Json, at: Time): Run {
    run.(state := Failed, failedAt := Some(at), failureReason := Some(reason), claimedBy := None,
         claimExpiresAt := None)
  }

  function CancelledRun(run: Run): Run {
    run.(state := Cancelled, claimedBy := None, claimExpiresAt := None)
  }

  function CancelRuns(runs: map<RunId, Run>, t: TaskId): map<RunId, Run> {
    map r | r in runs :: if runs[r].taskId == t && Active(runs[r].state) then CancelledRun(runs[r]) else runs[r]
  }

  function CancelledTask(task: Task, at: Time): Task {
    task.(state := Cancelled, cancelledAt := if task.cancelledAt.Some? then task.cancelledAt else Some(at))
  }

  function ClaimedRun(run: Run, worker: Text, expires: Time, at: Time): Run {
    run.(state := Running, claimedBy := Some(worker), claimExpiresAt := Some(expires),
         startedAt := if run.startedAt.Some? then run.startedAt else Some(at), availableAt := at)
  }

  function ClaimedTask(task: Task, run: Run, r: RunId, at: Time): Task {
    task.(state := Running, attempts := Max(task.attempts, run.attempt),
          firstStartedAt := if task.firstStartedAt.Some? then task.firstStartedAt else Some(at), lastAttemptRun := r)
  }

  function CompletedRun(run: Run, result: Json, at: Time): Run {
    run.(state := Completed, completedAt := Some(at), result := Some(result), claimedBy := None, claimExpiresAt := None)
  }

  function SuspendedRun(run: Run, wakeAt: Time): Run {
    run.(state := Sleeping, claimedBy := None, claimExpiresAt := None, availableAt := wakeAt)
  }

  /** The state of a fresh attempt: pending when it is available at once, sleeping otherwise. */
  function RetryState(next: Time, at: Time): State {
    if next > at then Sleeping else Pending
  }

  /** One run row and the row of its task are replaced. */
  function Put(db: Db, r: RunId, run: Run, task: Task): Db {
    db.(runs := db.runs[r := run], tasks := db.tasks[run.taskId := task])
  }

  /** A run row with a fresh id is added and the row of its task is replaced. */
  function Append(db: Db, run: Run, task: Task): Db {
    Put(db, db.nextId, run, task).(nextId := db.nextId + 1)
  }

  function Insert(db: Db, row: Task): Db {
    db.(tasks := db.tasks[db.nextId := row],
        runs := db.runs[db.nextId + 1 := NewRun(db.nextId, 1, Pending, row.enqueueAt)],
        nextId := db.nextId + 2)
  }

  function CancelRows(db: Db, t: TaskId, at: Time): Db
    requires t in db.tasks
  {
    db.(runs := CancelRuns(db.runs, t), tasks := db.tasks[t := CancelledTask(db.tasks[t], at)])
  }

  /** Deletes a task row; the foreign keys delete its runs and checkpoints. */
  function Remove(db: Db, t: TaskId): Db {
    Db(db.tasks - {t}, map r | r in db.runs && db.runs[r].taskId != t :: db.runs[r], db.checkpoints - {t}, db.nextId)
  }

  function Save(db: Db, t: TaskId, name: Text, value: Json): Db {
    db.(checkpoints := db.checkpoints[t := Saved(db, t)[name := value]])
  }

  /** A failed task opened for one more attempt; the budget grows when it is used up. */
  function ReopenedTask(db: Db, t: TaskId): Task
    requires t in db.tasks
  {
    var task := db.tasks[t];
    task.(state := Pending, attempts := task.attempts + 1, maxAttempts := Max(task.maxAttempts, task.attempts + 1),
          lastAttemptRun := db.nextId, cancelledAt := None)
  }

  /** The effect of a primitive transition on the tables. */
  function Do(db: Db, m: Move): Db
    requires Can(db, m)
  {
    match m
    case SpawnTask(row, _) => Insert(db, row)
    case ClaimRun(r, worker, expires, at) =>
      var run := db.runs[r];
      Put(db, r, ClaimedRun(run, worker, expires, at), ClaimedTask(db.tasks[run.taskId], run, r, at))
    case RenewLease(r, expires, _) =>
      Put(db, r, db.runs[r].(claimExpiresAt := Some(expires)), TaskOfRun(db, r))
    case CompleteRun(r, result, at) =>
      Put(db, r, CompletedRun(db.runs[r], result, at), TaskOfRun(db, r).(state := Completed, lastAttemptRun := r))
    case SuspendRun(r, wakeAt, _) =>
      Put(db, r, SuspendedRun(db.runs[r], wakeAt), TaskOfRun(db, r).(state := Sleeping))
    case FailFinally(r, reason, _, at) =>
      var run, task := db.runs[r], TaskOfRun(db, r);
      Put(db, r, FailedRun(run, reason, at),
          task.(state := Failed, attempts := Max(task.attempts, run.attempt), lastAttemptRun := r))
    case FailAndCancel(r, reason, _, at, cancelAt) =>
      var run := db.runs[r];
      CancelRows(Put(db, r, FailedRun(run, reason, at), TaskOfRun(db, r)), run.taskId, cancelAt)
    case FailAndRetry(r, reason, _, at) =>
      var run, task := db.runs[r], TaskOfRun(db, r);
      var next := NextAvailable(task, run.attempt, at);
      Append(Put(db, r, FailedRun(run, reason, at), task),
             NewRun(run.taskId, run.attempt + 1, RetryState(next, at), next),
             task.(state := RetryState(next, at), attempts := Max(task.attempts, run.attempt + 1),
                   lastAttemptRun := db.nextId))
    case CancelTask(t, at) => CancelRows(db, t, at)
    case ReopenTask(t, at) => Append(db, NewRun(t, db.tasks[t].attempts + 1, Pending, at), ReopenedTask(db, t))
    case CommitCheckpoint(r, name, value, _) => Save(db, db.runs[r].taskId, name, value)
    case RemoveTask(t, _) => Remove(db, t)
  }

  /** The transitions can be committed one after the other. */
  predicate Enabled(db: Db, ms: seq<Move>)
    decreases |ms|
  {
    ms == [] || (Can(db, ms[0]) && Enabled(Do(db, ms[0]), ms[1..]))
  }

  /** The latest time that a transition records. */
  function Latest(m: Move): (at: Time)
    ensures at >= m.at
  {
    if m.FailAndCancel? && m.at < m.cancelAt then m.cancelAt else m.at
  }

  /** Their times do not go back and lie between the two readings. */
  predicate Timely(lo: Time, ms: seq<Move>, hi: Time)
    decreases |ms|
  {
    if ms == [] then lo <= hi else lo <= ms[0].at && Latest(ms[0]) <= hi && Timely(ms[0].at, ms[1..], hi)
  }

  function DoAll(db: Db, ms: seq<Move>): Db
    requires Enabled(db, ms)
    decreases |ms|
  {
    if ms == [] then db else DoAll(Do(db, ms[0]), ms[1..])
  }

  lemma {:induction false} DoAllConcat(db: Db, a: seq<Move>, b: seq<Move>)
    requires Enabled(db, a) && Enabled(DoAll(db, a), b)
    ensures Enabled(db, a + b) && DoAll(db, a + b) == DoAll(DoAll(db, a), b)
    decreases |a|
  {
    hide Do, Can;
    if a == [] {
      assert a + b == b;
    } else {
      DoAllConcat(Do(db, a[0]), a[1..], b);
      assert (a + b)[1..] == a[1..] + b;
    }
  }

  lemma {:induction false} TimelyBound(lo: Time, ms: seq<Move>, hi: Time)
    requires Timely(lo, ms, hi)
    ensures lo <= hi
    decreases |ms|
  {
    if ms != [] {
      TimelyBound(ms[0].at, ms[1..], hi);
    }
  }

  lemma {:induction false} TimelyConcat(lo: Time, a: seq<Move>, mid: Time, mid': Time, b: seq<Move>, hi: Time)
    requires Timely(lo, a, mid) && mid <= mid' && Timely(mid', b, hi)
    ensures Timely(lo, a + b, hi)
    decreases |a|
  {
    TimelyBound(mid', b, hi);
    if a == [] {
      assert a + b == b;
      TimelyBound(lo, a, mid);
      TimelyWiden(lo, mid', b, hi, hi);
    } else {
      TimelyConcat(a[0].at, a[1..], mid, mid', b, hi);
      assert (a + b)[1..] == a[1..] + b;
    }
  }

  lemma {:induction false} TimelyWiden(lo: Time, lo': Time, ms: seq<Move>, hi: Time, hi': Time)
    requires lo <= lo' && Timely(lo', ms, hi) && hi <= hi'
    ensures Timely(lo, ms, hi')
    decreases |ms|
  {
    if ms != [] {
      TimelyWiden(ms[0].at, ms[0].at, ms[1..], hi, hi');
    }
  }
}
