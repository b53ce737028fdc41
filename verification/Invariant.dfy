/** The invariant of one queue's tables, and its preservation by every primitive transition. */
module Invariant {
  import opened Basics
  import opened Policies
  import opened Storage

  /** The CHECK constraints of the runs table: payloads of terminal runs, ownership iff running. */
  predicate RunShape(run: Run) {
    && (run.state == Completed ==> run.completedAt.Some? && run.result.Some?)
    && (run.state == Failed ==> run.failedAt.Some? && run.failureReason.Some?)
    && (run.state == Running <==> run.claimedBy.Some?)
    && (run.state == Running <==> run.claimExpiresAt.Some?)
    && (run.claimedBy.Some? ==> !Blank(run.claimedBy.value))
  }

  /** The CHECK constraints of the tasks table, with the attempt budget. */
  predicate TaskShape(task: Task) {
    && ValidName(task.name)
    && ValidStrategy(task.retry)
    && (task.idempotencyKey.Some? ==> ValidName(task.idempotencyKey.value))
    && 1 <= task.initialMaxAttempts <= task.maxAttempts <= INT_MAX
    && 1 <= task.attempts <= task.maxAttempts
    && (task.state == Cancelled <==> task.cancelledAt.Some?)
  }

  /** A task and its authoritative run agree, save that a cancelled task may keep a failed run. */
  predicate Agree(task: State, run: State) {
    task == run || (task == Cancelled && run == Failed)
  }

  predicate RunOk(db: Db, r: RunId)
    requires r in db.runs
  {
    var run := db.runs[r];
    && r < db.nextId
    && run.taskId in db.tasks
    && 1 <= run.attempt <= db.tasks[run.taskId].attempts
    && RunShape(run)
    && (r == db.tasks[run.taskId].lastAttemptRun || run.state == Failed)
  }

  predicate TaskOk(db: Db, t: TaskId)
    requires t in db.tasks
  {
    var task := db.tasks[t];
    && t < db.nextId
    && TaskShape(task)
    && task.lastAttemptRun in db.runs
    && db.runs[task.lastAttemptRun].taskId == t
    && db.runs[task.lastAttemptRun].attempt == task.attempts
    && Agree(task.state, db.runs[task.lastAttemptRun].state)
  }

  ghost predicate HasAttempt(db: Db, t: TaskId, attempt: int) {
    exists r :: r in db.runs && db.runs[r].taskId == t && db.runs[r].attempt == attempt
  }

  ghost predicate AttemptsUnique(db: Db) {
    forall r, q | r in db.runs && q in db.runs ::
      db.runs[r].taskId == db.runs[q].taskId && db.runs[r].attempt == db.runs[q].attempt ==> r == q
  }

  ghost predicate AttemptsFull(db: Db) {
    forall t, attempt :: t in db.tasks && 1 <= attempt <= db.tasks[t].attempts ==> HasAttempt(db, t, attempt)
  }

  ghost predicate KeysUnique(db: Db) {
    forall t, u | t in db.tasks && u in db.tasks ::
      db.tasks[t].idempotencyKey.Some? && db.tasks[t].idempotencyKey == db.tasks[u].idempotencyKey ==> t == u
  }

  /** The CHECK on checkpoint names. */
  ghost predicate CheckpointNames(checkpoints: map<TaskId, map<Text, Json>>) {
    forall t, n :: t in checkpoints && n in checkpoints[t] ==> ValidName(n)
  }

  ghost predicate Inv(db: Db) {
    && (forall r :: r in db.runs ==> RunOk(db, r))
    && (forall t :: t in db.tasks ==> TaskOk(db, t))
    && (forall t :: t in db.checkpoints ==> t in db.tasks)
    && CheckpointNames(db.checkpoints)
    && AttemptsUnique(db)
    && AttemptsFull(db)
    && KeysUnique(db)
  }

  /** No row of task `t` differs between the two states. */
  ghost predicate SameRows(db: Db, db': Db, t: TaskId) {
    && (t in db.tasks <==> t in db'.tasks)
    && (t in db.tasks ==> db'.tasks[t] == db.tasks[t])
    && (forall r :: r in db.runs && db.runs[r].taskId == t ==> r in db'.runs && db'.runs[r] == db.runs[r])
    && (forall r :: r in db'.runs && db'.runs[r].taskId == t ==> r in db.runs && db'.runs[r] == db.runs[r])
    && Saved(db', t) == Saved(db, t)
  }

  /** Ids that no row uses yet. */
  lemma FreshIds(db: Db)
    requires Inv(db)
    ensures db.nextId !in db.runs && db.nextId + 1 !in db.runs && db.nextId !in db.tasks && db.nextId !in db.checkpoints
    ensures forall r :: r in db.runs ==> r < db.nextId && db.runs[r].taskId < db.nextId
  {
    hide AttemptsUnique, AttemptsFull, KeysUnique, RunShape, TaskShape, Agree;
    assert forall r :: r in db.runs ==> RunOk(db, r);
    assert forall t :: t in db.tasks ==> TaskOk(db, t);
  }

  // ---- Row-level lemmas: what each kind of table update keeps ----

  lemma PutFrame(db: Db, r: RunId, run: Run, task: Task, t: TaskId)
    requires t != run.taskId
    requires r in db.runs ==> db.runs[r].taskId == run.taskId
    ensures SameRows(db, Put(db, r, run, task), t)
  {
  }

  /** Replacing a task and its authoritative run, with the same attempt numbers, keeps the invariant. */
  lemma PutInv(db: Db, r: RunId, run: Run, task: Task)
    requires Inv(db) && r in db.runs && run.taskId == db.runs[r].taskId && run.attempt == db.runs[r].attempt
    requires var prior := db.tasks[run.taskId];
      prior.lastAttemptRun == r == task.lastAttemptRun && task.attempts == prior.attempts
      && task.idempotencyKey == prior.idempotencyKey
    requires RunShape(run) && TaskShape(task) && Agree(task.state, run.state)
    ensures Inv(Put(db, r, run, task))
  {
    hide ValidName, ValidStrategy, Blank, AttemptsUnique, AttemptsFull, KeysUnique;
    var db' := Put(db, r, run, task);
    assert TaskOk(db, run.taskId);
    forall q | q in db'.runs ensures RunOk(db', q) {
      assert RunOk(db, q);
    }
    forall t | t in db'.tasks ensures TaskOk(db', t) {
      assert TaskOk(db, t);
    }
    PutAttempts(db, r, run, task);
  }

  lemma PutAttempts(db: Db, r: RunId, run: Run, task: Task)
    requires Inv(db) && r in db.runs && run.taskId == db.runs[r].taskId && run.attempt == db.runs[r].attempt
    requires task.attempts == db.tasks[run.taskId].attempts
    requires task.idempotencyKey == db.tasks[run.taskId].idempotencyKey
    ensures var db' := Put(db, r, run, task); AttemptsUnique(db') && AttemptsFull(db') && KeysUnique(db')
  {
    hide RunShape, TaskShape, Agree;
    var db' := Put(db, r, run, task);
    forall t, a | t in db'.tasks && 1 <= a <= db'.tasks[t].attempts ensures HasAttempt(db', t, a) {
      assert HasAttempt(db, t, a);
      KeptAttempt(db, db', t, a);
    }
  }

  lemma AppendFrame(db: Db, run: Run, task: Task, t: TaskId)
    requires db.nextId !in db.runs && t != run.taskId
    ensures SameRows(db, Append(db, run, task), t)
  {
  }

  /** A further attempt of a failed task keeps the invariant. */
  lemma AppendInv(db: Db, run: Run, task: Task)
    requires Inv(db) && run.taskId in db.tasks
    requires var prior := db.tasks[run.taskId];
      prior.state == Failed && run.attempt == task.attempts == prior.attempts + 1
      && task.idempotencyKey == prior.idempotencyKey
    requires task.lastAttemptRun == db.nextId && task.state == run.state
    requires RunShape(run) && TaskShape(task)
    ensures Inv(Append(db, run, task))
  {
    hide ValidName, ValidStrategy, Blank, AttemptsUnique, AttemptsFull, KeysUnique;
    var db' := Append(db, run, task);
    assert TaskOk(db, run.taskId);
    assert RunOk(db, db.tasks[run.taskId].lastAttemptRun);
    forall q | q in db'.runs ensures RunOk(db', q) {
      assert q in db.runs ==> RunOk(db, q);
    }
    forall t | t in db'.tasks ensures TaskOk(db', t) {
      assert TaskOk(db, t);
      assert RunOk(db, db.tasks[t].lastAttemptRun);
    }
    AppendAttempts(db, run, task);
  }

  lemma AppendUnique(db: Db, run: Run, task: Task)
    requires Inv(db) && run.taskId in db.tasks
    requires run.attempt == db.tasks[run.taskId].attempts + 1
    requires task.idempotencyKey == db.tasks[run.taskId].idempotencyKey
    ensures AttemptsUnique(Append(db, run, task)) && KeysUnique(Append(db, run, task))
  {
    hide RunShape, TaskOk, AttemptsFull;
    FreshIds(db);
    assert forall q :: q in db.runs && db.runs[q].taskId == run.taskId ==> db.runs[q].attempt != run.attempt by {
      assert forall q :: q in db.runs ==> RunOk(db, q);
    }
  }

  lemma AppendAttempts(db: Db, run: Run, task: Task)
    requires Inv(db) && run.taskId in db.tasks
    requires run.attempt == task.attempts == db.tasks[run.taskId].attempts + 1
    requires task.idempotencyKey == db.tasks[run.taskId].idempotencyKey
    ensures var db' := Append(db, run, task); AttemptsUnique(db') && AttemptsFull(db') && KeysUnique(db')
  {
    hide RunOk, TaskOk, AttemptsUnique, KeysUnique;
    var db' := Append(db, run, task);
    FreshIds(db);
    AppendUnique(db, run, task);
    forall t, a | t in db'.tasks && 1 <= a <= db'.tasks[t].attempts ensures HasAttempt(db', t, a) {
      if t == run.taskId && a == task.attempts {
        assert db.nextId in db'.runs && db'.runs[db.nextId].taskId == t && db'.runs[db.nextId].attempt == a;
      } else {
        assert HasAttempt(db, t, a);
        KeptAttempt(db, db', t, a);
      }
    }
  }

  /** An attempt is still there when no run row was deleted or renumbered. */
  lemma KeptAttempt(db: Db, db': Db, t: TaskId, attempt: int)
    requires HasAttempt(db, t, attempt)
    requires forall r :: r in db.runs && db.runs[r].taskId == t ==>
      r in db'.runs && db'.runs[r].taskId == t && db'.runs[r].attempt == db.runs[r].attempt
    ensures HasAttempt(db', t, attempt)
  {
    var q :| q in db.runs && db.runs[q].taskId == t && db.runs[q].attempt == attempt;
    assert q in db'.runs && db'.runs[q].taskId == t && db'.runs[q].attempt == attempt;
  }

  lemma InsertFrame(db: Db, row: Task, t: TaskId)
    requires db.nextId + 1 !in db.runs && t != db.nextId
    ensures SameRows(db, Insert(db, row), t)
  {
  }

  lemma InsertRunOk(db: Db, row: Task, at: Time, q: RunId)
    requires Inv(db) && FreshTask(db, row, at) && q in Insert(db, row).runs
    ensures RunOk(Insert(db, row), q)
  {
    hide ValidName, ValidStrategy, Blank, AttemptsUnique, AttemptsFull, KeysUnique, TaskOk, KeyUnused;
    FreshIds(db);
    assert q in db.runs ==> RunOk(db, q);
  }

  lemma InsertTaskOk(db: Db, row: Task, at: Time, t: TaskId)
    requires Inv(db) && FreshTask(db, row, at) && t in Insert(db, row).tasks
    ensures TaskOk(Insert(db, row), t)
  {
    hide ValidName, ValidStrategy, Blank, AttemptsUnique, AttemptsFull, KeysUnique, KeyUnused;
    assert t in db.tasks ==> TaskOk(db, t) && RunOk(db, db.tasks[t].lastAttemptRun);
  }

  lemma InsertInv(db: Db, row: Task, at: Time)
    requires Inv(db) && FreshTask(db, row, at)
    ensures Inv(Insert(db, row))
  {
    hide RunOk, TaskOk, AttemptsUnique, AttemptsFull, KeysUnique, FreshTask;
    var db' := Insert(db, row);
    forall q | q in db'.runs ensures RunOk(db', q) {
      InsertRunOk(db, row, at, q);
    }
    forall t | t in db'.tasks ensures TaskOk(db', t) {
      InsertTaskOk(db, row, at, t);
    }
    FreshIds(db);
    InsertAttempts(db, row, at);
  }

  lemma InsertUnique(db: Db, row: Task, at: Time)
    requires Inv(db) && FreshTask(db, row, at)
    ensures AttemptsUnique(Insert(db, row)) && KeysUnique(Insert(db, row))
  {
    hide RunOk, TaskOk, AttemptsFull, ValidName, ValidStrategy;
    FreshIds(db);
  }

  lemma InsertAttempts(db: Db, row: Task, at: Time)
    requires Inv(db) && FreshTask(db, row, at) && db.nextId !in db.tasks
    ensures var db' := Insert(db, row); AttemptsUnique(db') && AttemptsFull(db') && KeysUnique(db')
  {
    hide RunOk, TaskOk, AttemptsUnique, KeysUnique, KeyUnused, ValidName, ValidStrategy;
    var db' := Insert(db, row);
    FreshIds(db);
    InsertUnique(db, row, at);
    forall t, a | t in db'.tasks && 1 <= a <= db'.tasks[t].attempts ensures HasAttempt(db', t, a) {
      if t == db.nextId {
        assert db.nextId + 1 in db'.runs && db'.runs[db.nextId + 1].taskId == t && db'.runs[db.nextId + 1].attempt == a;
      } else {
        assert HasAttempt(db, t, a);
        KeptAttempt(db, db', t, a);
      }
    }
  }

  lemma RemoveFrame(db: Db, t: TaskId, u: TaskId)
    requires u != t
    ensures SameRows(db, Remove(db, t), u)
  {
  }

  lemma SaveFrame(db: Db, u: TaskId, name: Text, value: Json, t: TaskId)
    requires t != u
    ensures SameRows(db, Save(db, u, name, value), t)
  {
  }

  lemma RemoveAttempts(db: Db, t: TaskId)
    requires Inv(db)
    ensures var db' := Remove(db, t); AttemptsUnique(db') && AttemptsFull(db') && KeysUnique(db')
  {
    hide RunOk, TaskOk;
    var db' := Remove(db, t);
    assert forall q :: q in db'.runs ==> db.runs[q].taskId != t;
    forall u, a | u in db'.tasks && 1 <= a <= db'.tasks[u].attempts ensures HasAttempt(db', u, a) {
      assert HasAttempt(db, u, a);
      KeptAttempt(db, db', u, a);
    }
  }

  lemma RemoveInv(db: Db, t: TaskId)
    requires Inv(db)
    ensures Inv(Remove(db, t))
  {
    hide RunShape, TaskShape, Agree, AttemptsUnique, AttemptsFull, KeysUnique;
    var db' := Remove(db, t);
    forall q | q in db'.runs ensures RunOk(db', q) {
      assert RunOk(db, q);
    }
    forall u | u in db'.tasks ensures TaskOk(db', u) {
      assert TaskOk(db, u);
    }
    RemoveAttempts(db, t);
  }

  lemma SaveAttempts(db: Db, t: TaskId, name: Text, value: Json)
    requires Inv(db)
    ensures var db' := Save(db, t, name, value); AttemptsUnique(db') && AttemptsFull(db') && KeysUnique(db')
  {
    hide RunOk, TaskOk;
    var db' := Save(db, t, name, value);
    forall u, a | u in db'.tasks && 1 <= a <= db'.tasks[u].attempts ensures HasAttempt(db', u, a) {
      assert HasAttempt(db, u, a);
      KeptAttempt(db, db', u, a);
    }
  }

  lemma SaveInv(db: Db, t: TaskId, name: Text, value: Json)
    requires Inv(db) && t in db.tasks && ValidName(name)
    ensures Inv(Save(db, t, name, value))
  {
    hide RunShape, TaskShape, Agree, AttemptsUnique, AttemptsFull, KeysUnique;
    var db' := Save(db, t, name, value);
    forall q | q in db'.runs ensures RunOk(db', q) {
      assert RunOk(db, q);
    }
    forall u | u in db'.tasks ensures TaskOk(db', u) {
      assert TaskOk(db, u);
    }
    SaveAttempts(db, t, name, value);
  }

  /** Cancelling an active task ends its authoritative run and no other. */
  lemma CancelIsPut(db: Db, t: TaskId, at: Time)
    requires Inv(db) && t in db.tasks && Active(db.tasks[t].state)
    ensures var last := db.tasks[t].lastAttemptRun;
      && last in db.runs
      && CancelRows(db, t, at) == Put(db, last, CancelledRun(db.runs[last]), CancelledTask(db.tasks[t], at))
  {
    hide AttemptsUnique, AttemptsFull, KeysUnique, RunShape, TaskShape;
    assert TaskOk(db, t);
    var last := db.tasks[t].lastAttemptRun;
    assert forall q :: q in db.runs ==> RunOk(db, q);
    assert CancelRuns(db.runs, t) == db.runs[last := CancelledRun(db.runs[last])];
  }

  /** When the authoritative run has just failed, cancelling its task leaves every run alone. */
  lemma FailCancelIsPut(db: Db, r: RunId, reason: Json, at: Time, cancelAt: Time)
    requires Inv(db) && Held(db, r)
    ensures var run, task := db.runs[r], TaskOfRun(db, r);
      CancelRows(Put(db, r, FailedRun(run, reason, at), task), run.taskId, cancelAt)
      == Put(db, r, FailedRun(run, reason, at), CancelledTask(task, cancelAt))
  {
    hide AttemptsUnique, AttemptsFull, KeysUnique, RunShape, TaskShape;
    var run, task := db.runs[r], TaskOfRun(db, r);
    var mid := Put(db, r, FailedRun(run, reason, at), task);
    assert forall q :: q in db.runs ==> RunOk(db, q);
    assert CancelRuns(mid.runs, run.taskId) == mid.runs;
  }

  /** The new attempt does not depend on what the task row held in between. */
  lemma FailRetryIsAppend(db: Db, r: RunId, failed: Run, next: Run, task: Task)
    requires Held(db, r) && failed.taskId == next.taskId == db.runs[r].taskId
    ensures Append(Put(db, r, failed, TaskOfRun(db, r)), next, task)
      == Append(Put(db, r, failed, TaskOfRun(db, r).(state := Failed)), next, task)
  {
  }

  // ---- Every primitive transition keeps the invariant and touches one task ----

  /** The facts about the authoritative run that an update of it relies on. */
  lemma LastRun(db: Db, t: TaskId)
    requires Inv(db) && t in db.tasks
    ensures var task := db.tasks[t]; var last := task.lastAttemptRun;
      && last in db.runs && db.runs[last].taskId == t && db.runs[last].attempt == task.attempts
      && TaskShape(task) && RunShape(db.runs[last]) && Agree(task.state, db.runs[last].state)
      && t < db.nextId && last < db.nextId
  {
    assert TaskOk(db, t);
    assert RunOk(db, db.tasks[t].lastAttemptRun);
  }

  lemma UpdateInv(db: Db, m: Move)
    requires Inv(db) && Can(db, m)
    requires m.ClaimRun? || m.RenewLease? || m.CompleteRun? || m.SuspendRun? || m.FailFinally?
    ensures Inv(Do(db, m))
  {
    hide Inv, Put, ValidName, ValidStrategy;
    LastRun(db, Target(db, m));
    match m
    case ClaimRun(r, worker, expires, at) =>
      PutInv(db, r, ClaimedRun(db.runs[r], worker, expires, at),
             ClaimedTask(db.tasks[db.runs[r].taskId], db.runs[r], r, at));
    case RenewLease(r, expires, _) =>
      PutInv(db, r, db.runs[r].(claimExpiresAt := Some(expires)), TaskOfRun(db, r));
    case CompleteRun(r, result, at) =>
      PutInv(db, r, CompletedRun(db.runs[r], result, at), TaskOfRun(db, r).(state := Completed, lastAttemptRun := r));
    case SuspendRun(r, wakeAt, _) =>
      PutInv(db, r, SuspendedRun(db.runs[r], wakeAt), TaskOfRun(db, r).(state := Sleeping));
    case FailFinally(r, reason, _, at) =>
      var run, task := db.runs[r], TaskOfRun(db, r);
      PutInv(db, r, FailedRun(run, reason, at),
             task.(state := Failed, attempts := Max(task.attempts, run.attempt), lastAttemptRun := r));
  }

  lemma CancelInv(db: Db, t: TaskId, at: Time)
    requires Inv(db) && t in db.tasks && Active(db.tasks[t].state)
    ensures Inv(CancelRows(db, t, at))
  {
    hide Inv, Put, CancelRows, ValidName, ValidStrategy;
    LastRun(db, t);
    CancelIsPut(db, t, at);
    var last := db.tasks[t].lastAttemptRun;
    PutInv(db, last, CancelledRun(db.runs[last]), CancelledTask(db.tasks[t], at));
  }

  lemma FailAndCancelInv(db: Db, m: Move)
    requires Inv(db) && Can(db, m) && m.FailAndCancel?
    ensures Inv(Do(db, m))
  {
    hide Inv, Put, CancelRows, ValidName, ValidStrategy;
    LastRun(db, Target(db, m));
    FailCancelIsPut(db, m.run, m.reason, m.at, m.cancelAt);
    PutInv(db, m.run, FailedRun(db.runs[m.run], m.reason, m.at), CancelledTask(TaskOfRun(db, m.run), m.cancelAt));
  }

  /** The tables in the middle of a failure with retry: the run has failed, its successor is not there yet. */
  function Failing(db: Db, m: Move): Db
    requires Can(db, m) && m.FailAndRetry?
  {
    Put(db, m.run, FailedRun(db.runs[m.run], m.reason, m.at), TaskOfRun(db, m.run).(state := Failed))
  }

  lemma FailAndRetryIsAppend(db: Db, m: Move) returns (run: Run, task: Task)
    requires Inv(db) && Can(db, m) && m.FailAndRetry?
    ensures Inv(Failing(db, m)) && Do(db, m) == Append(Failing(db, m), run, task)
    ensures var prior := TaskOfRun(db, m.run);
      var next := NextAvailable(prior, db.runs[m.run].attempt, m.at);
      && run == NewRun(db.runs[m.run].taskId, prior.attempts + 1, RetryState(next, m.at), next)
      && task == prior.(state := run.state, attempts := prior.attempts + 1, lastAttemptRun := db.nextId)
  {
    hide Inv, Append, Put, ValidName, ValidStrategy, RetryDelay, NextAvailable, CancellationDue, LeaseExpiredReason;
    var failed, prior := db.runs[m.run], TaskOfRun(db, m.run);
    LastRun(db, failed.taskId);
    var next := NextAvailable(prior, failed.attempt, m.at);
    PutInv(db, m.run, FailedRun(failed, m.reason, m.at), prior.(state := Failed));
    run := NewRun(failed.taskId, prior.attempts + 1, RetryState(next, m.at), next);
    task := prior.(state := run.state, attempts := prior.attempts + 1, lastAttemptRun := db.nextId);
    FailRetryIsAppend(db, m.run, FailedRun(failed, m.reason, m.at), run, task);
  }

  lemma FailAndRetryInv(db: Db, m: Move)
    requires Inv(db) && Can(db, m) && m.FailAndRetry?
    ensures Inv(Do(db, m))
  {
    hide Inv, Append, Do;
    LastRun(db, Target(db, m));
    var run, task := FailAndRetryIsAppend(db, m);
    AppendInv(Failing(db, m), run, task);
  }

  lemma ReopenedShape(db: Db, t: TaskId)
    requires Inv(db) && t in db.tasks && db.tasks[t].state == Failed && db.tasks[t].attempts < INT_MAX
    ensures TaskShape(ReopenedTask(db, t))
  {
    LastRun(db, t);
  }

  lemma ReopenInv(db: Db, t: TaskId, at: Time)
    requires Inv(db) && t in db.tasks && db.tasks[t].state == Failed && db.tasks[t].attempts < INT_MAX
    ensures Inv(Append(db, NewRun(t, db.tasks[t].attempts + 1, Pending, at), ReopenedTask(db, t)))
  {
    ReopenedShape(db, t);
    var run := NewRun(t, db.tasks[t].attempts + 1, Pending, at);
    assert RunShape(run);
    AppendInv(db, run, ReopenedTask(db, t));
  }

  lemma MoveInv(db: Db, m: Move)
    requires Inv(db) && Can(db, m)
    ensures Inv(Do(db, m))
  {
    hide Inv, Put, Append, Insert, CancelRows, Remove, Save, ReopenedTask;
    match m
    case SpawnTask(row, at) => InsertInv(db, row, at);
    case FailAndCancel(_, _, _, _, _) => FailAndCancelInv(db, m);
    case FailAndRetry(_, _, _, _) => FailAndRetryInv(db, m);
    case CancelTask(t, at) => CancelInv(db, t, at);
    case ReopenTask(t, at) => ReopenInv(db, t, at);
    case CommitCheckpoint(r, name, value, _) => SaveInv(db, db.runs[r].taskId, name, value);
    case RemoveTask(t, _) => RemoveInv(db, t);
    case _ => UpdateInv(db, m);
  }

  lemma {:induction false} MovesInv(db: Db, ms: seq<Move>)
    requires Inv(db) && Enabled(db, ms)
    ensures Inv(DoAll(db, ms))
    decreases |ms|
  {
    if ms != [] {
      MoveInv(db, ms[0]);
      MovesInv(Do(db, ms[0]), ms[1..]);
    }
  }

  lemma UpdateFrame(db: Db, m: Move, t: TaskId)
    requires Can(db, m) && t != Target(db, m)
    requires m.ClaimRun? || m.RenewLease? || m.CompleteRun? || m.SuspendRun? || m.FailFinally?
    ensures SameRows(db, Do(db, m), t)
  {
    var db' := Do(db, m);
    PutFrame(db, m.run, db'.runs[m.run], db'.tasks[db.runs[m.run].taskId], t);
  }

  lemma CancelFrame(db: Db, u: TaskId, at: Time, t: TaskId)
    requires u in db.tasks && t != u
    ensures SameRows(db, CancelRows(db, u, at), t)
  {
  }

  lemma SameRowsTrans(a: Db, b: Db, c: Db, t: TaskId)
    requires SameRows(a, b, t) && SameRows(b, c, t)
    ensures SameRows(a, c, t)
  {
  }

  lemma FailAndCancelFrame(db: Db, m: Move, t: TaskId)
    requires Inv(db) && Can(db, m) && m.FailAndCancel? && t != Target(db, m)
    ensures SameRows(db, Do(db, m), t)
  {
    var failed := FailedRun(db.runs[m.run], m.reason, m.at);
    FailCancelIsPut(db, m.run, m.reason, m.at, m.cancelAt);
    PutFrame(db, m.run, failed, CancelledTask(TaskOfRun(db, m.run), m.cancelAt), t);
  }

  lemma FailAndRetryFrame(db: Db, m: Move, t: TaskId)
    requires Inv(db) && Can(db, m) && m.FailAndRetry? && t != Target(db, m)
    ensures SameRows(db, Do(db, m), t)
  {
    hide Inv, SameRows, Append, Do;
    var run, task := FailAndRetryIsAppend(db, m);
    FreshIds(db);
    PutFrame(db, m.run, FailedRun(db.runs[m.run], m.reason, m.at), TaskOfRun(db, m.run).(state := Failed), t);
    AppendFrame(Failing(db, m), run, task, t);
    SameRowsTrans(db, Failing(db, m), Do(db, m), t);
  }

  lemma ReopenFrame(db: Db, u: TaskId, at: Time, t: TaskId)
    requires Inv(db) && u in db.tasks && t != u
    ensures SameRows(db, Append(db, NewRun(u, db.tasks[u].attempts + 1, Pending, at), ReopenedTask(db, u)), t)
  {
    FreshIds(db);
    AppendFrame(db, NewRun(u, db.tasks[u].attempts + 1, Pending, at), ReopenedTask(db, u), t);
  }

  lemma SpawnFrame(db: Db, row: Task, t: TaskId)
    requires Inv(db) && t != db.nextId
    ensures SameRows(db, Insert(db, row), t)
  {
    FreshIds(db);
    InsertFrame(db, row, t);
  }

  lemma InsertionFrame(db: Db, m: Move, t: TaskId)
    requires Inv(db) && Can(db, m) && t != Target(db, m) && (m.SpawnTask? || m.ReopenTask? || m.FailAndRetry?)
    ensures SameRows(db, Do(db, m), t)
  {
    hide Inv, SameRows, Append, Insert, ReopenedTask;
    match m
    case SpawnTask(row, _) => SpawnFrame(db, row, t);
    case ReopenTask(u, at) => ReopenFrame(db, u, at, t);
    case FailAndRetry(_, _, _, _) => FailAndRetryFrame(db, m, t);
  }

  lemma EndingFrame(db: Db, m: Move, t: TaskId)
    requires Inv(db) && Can(db, m) && t != Target(db, m)
    requires m.CancelTask? || m.FailAndCancel? || m.RemoveTask? || m.CommitCheckpoint?
    ensures SameRows(db, Do(db, m), t)
  {
    hide Inv, SameRows, CancelRows, Put, Remove, Save;
    match m
    case CancelTask(u, at) => CancelFrame(db, u, at, t);
    case FailAndCancel(_, _, _, _, _) => FailAndCancelFrame(db, m, t);
    case RemoveTask(u, _) => RemoveFrame(db, u, t);
    case CommitCheckpoint(r, name, value, _) => SaveFrame(db, db.runs[r].taskId, name, value, t);
  }

  /** A transition touches the rows of its target task only. */
  lemma Frame(db: Db, m: Move, t: TaskId)
    requires Inv(db) && Can(db, m) && t != Target(db, m)
    ensures SameRows(db, Do(db, m), t)
  {
    hide Inv, SameRows, Do;
    if m.SpawnTask? || m.ReopenTask? || m.FailAndRetry? {
      InsertionFrame(db, m, t);
    } else if m.CancelTask? || m.FailAndCancel? || m.RemoveTask? || m.CommitCheckpoint? {
      EndingFrame(db, m, t);
    } else {
      UpdateFrame(db, m, t);
    }
  }

  /** Under the invariant a cancellation is the update of one run and one task. */
  lemma Flat(db: Db, m: Move)
    requires Inv(db) && Can(db, m)
    ensures m.CancelTask? ==>
      var last := db.tasks[m.task].lastAttemptRun;
      last in db.runs && db.runs[last].taskId == m.task && Active(db.runs[last].state)
      && Do(db, m) == Put(db, last, CancelledRun(db.runs[last]), CancelledTask(db.tasks[m.task], m.at))
    ensures m.FailAndCancel? ==>
      Do(db, m) == Put(db, m.run, FailedRun(db.runs[m.run], m.reason, m.at),
                       CancelledTask(TaskOfRun(db, m.run), m.cancelAt))
  {
    hide Inv, Put, CancelRows, CancelledRun, CancelledTask, FailedRun, NextAvailable, RetryDelay, TaskDue;
    if m.CancelTask? {
      LastRun(db, m.task);
      CancelIsPut(db, m.task, m.at);
    }
    if m.FailAndCancel? {
      FailCancelIsPut(db, m.run, m.reason, m.at, m.cancelAt);
    }
  }

  lemma NextIdGrows(db: Db, m: Move)
    requires Can(db, m)
    ensures db.nextId <= Do(db, m).nextId
  {
    hide NextAvailable, RetryDelay, TaskDue;
  }

  /** Ids are never reused: a task that has been removed does not come back. */
  lemma GoneStep(db: Db, m: Move, t: TaskId)
    requires Inv(db) && Can(db, m) && t !in db.tasks && t < db.nextId
    ensures t !in Do(db, m).tasks && t < Do(db, m).nextId
  {
    hide Inv, NextAvailable, RetryDelay, TaskDue;
  }

  lemma {:induction false} GoneForever(db: Db, ms: seq<Move>, t: TaskId)
    requires Inv(db) && Enabled(db, ms) && t !in db.tasks && t < db.nextId
    ensures t !in DoAll(db, ms).tasks && t < DoAll(db, ms).nextId
    decreases |ms|
  {
    hide Inv, Do, Can;
    if ms != [] {
      GoneStep(db, ms[0], t);
      MoveInv(db, ms[0]);
      GoneForever(Do(db, ms[0]), ms[1..], t);
    }
  }
}
