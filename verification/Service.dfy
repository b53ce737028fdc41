/** One queue serving calls: the methods that update the tables in place realize the steps of a history. */
module Service {
  import opened Basics
  import opened Policies
  import opened Storage
  import opened Invariant
  import opened Plans
  import opened Soundness
  import opened History
  import Q = QueueStorage

  lemma FollowsSettles<T>(p: Outcome<T>, before: Db, after: Db, res: Result<T>)
    requires Q.Follows(p, before, after, res)
    ensures after == Settle(before, p).db
  {
  }

  /** The calls that a worker makes in the name of a run. */
  predicate ByWorker(op: Op) {
    op.Supervise? || op.Complete? || op.Schedule? || op.Fail? || op.Checkpoint? || op.LoadCheckpoints?
  }

  method ServeWorker(q: Q.QueueStorage, call: Call)
    requires ByWorker(call.op)
    modifies q
    ensures q.Snapshot() == Perform(old(q.Snapshot()), call).db
  {
    hide SupervisePlan, CompletePlan, SchedulePlan, FailPlan, Q.FailEffect, CheckpointPlan, LockError;
    ghost var db := q.Snapshot();
    var c := call.clock;
    match call.op
    case Supervise(r, renew) =>
      var res := q.SuperviseRun(r, renew, c, 0);
      FollowsSettles(SupervisePlan(db, r, renew, c, 0), db, q.Snapshot(), res);
    case Complete(r, result) =>
      var res := q.CompleteRun(r, result, c, 0);
      FollowsSettles(CompletePlan(db, r, result, c, 0), db, q.Snapshot(), res);
    case Schedule(r, wakeAt) =>
      var res := q.ScheduleRun(r, wakeAt, c, 0);
      FollowsSettles(SchedulePlan(db, r, wakeAt, c, 0), db, q.Snapshot(), res);
    case Fail(r, reason) =>
      var res := q.FailRun(r, reason, false, c, 0);
      Q.FailFollows(db, r, reason, false, c, 0, q.Snapshot(), res);
      FollowsSettles(FailPlan(db, r, reason, false, c, 0), db, q.Snapshot(), res);
    case Checkpoint(t, name, value, r) =>
      var res := q.SetTaskCheckpointState(t, name, value, r, c, 0);
      FollowsSettles(CheckpointPlan(db, t, name, value, r, c, 0), db, q.Snapshot(), res);
    case LoadCheckpoints(t, r) =>
      var _ := q.GetTaskCheckpointStates(t, r, c, 0);
  }

  /** Calls that concern whole tasks or the whole queue. */
  method ServeQueue(q: Q.QueueStorage, call: Call)
    requires !ByWorker(call.op)
    modifies q
    ensures q.Snapshot() == Perform(old(q.Snapshot()), call).db
  {
    hide SpawnPlan, ClaimPlan, ReapPlan, ReapSweepPlan, CancelSweepPlan, CancelPlan, RetryPlan, CleanupPlan;
    ghost var db := q.Snapshot();
    var c := call.clock;
    match call.op
    case Spawn(name, params, options) =>
      var res := q.SpawnTask(name, params, options, c, 0);
      FollowsSettles(SpawnPlan(db, name, params, options, c, 0), db, q.Snapshot(), res);
    case Claim(claim) =>
      var res := q.ClaimTasks(claim, c, 0);
      FollowsSettles(ClaimPlan(db, claim, c, 0), db, q.Snapshot(), res);
    case Reap(r) =>
      var res := q.ReapExpiredRun(r, c, 0);
      FollowsSettles(ReapPlan(db, r, c, 0), db, q.Snapshot(), res);
    case ReapSweep(limit, skip) =>
      var res := q.ReapExpiredRuns(limit, skip, c, 0);
      FollowsSettles(ReapSweepPlan(db, limit, skip, c, 0), db, q.Snapshot(), res);
    case CancelSweep(limit, skip) =>
      var res := q.CancelExpiredTasks(limit, skip, c, 0);
      FollowsSettles(CancelSweepPlan(db, limit, skip, c, 0), db, q.Snapshot(), res);
    case Cancel(t) =>
      var res := q.CancelTask(t, c, 0);
      FollowsSettles(CancelPlan(db, t, c, 0), db, q.Snapshot(), res);
    case Retry(t) =>
      var res := q.RetryTask(t, c, 0);
      FollowsSettles(RetryPlan(db, t, c, 0), db, q.Snapshot(), res);
    case ReadResult(t) =>
      var _ := q.GetTaskResult(t);
    case Cleanup(ttl, limit, skip) =>
      var res := q.CleanupTasks(ttl, limit, skip, c, 0);
      FollowsSettles(CleanupPlan(db, ttl, limit, skip, c, 0), db, q.Snapshot(), res);
  }

  /** Any call, served by its method, is the step of the history, and keeps the invariant. */
  method Serve(q: Q.QueueStorage, call: Call)
    modifies q
    ensures q.Snapshot() == Perform(old(q.Snapshot()), call).db
    ensures Inv(old(q.Snapshot())) ==> Inv(q.Snapshot())
  {
    hide Inv, Perform;
    ghost var db := q.Snapshot();
    if ByWorker(call.op) {
      ServeWorker(q, call);
    } else {
      ServeQueue(q, call);
    }
    if Inv(db) {
      CallInv(db, call);
    }
  }

  // ---- A failure keeps the invariant whatever its reason and flag ----

  /** The tables with another failure reason on one run. */
  function Relabel(db: Db, r: RunId, reason: Json): Db
    requires r in db.runs
  {
    db.(runs := db.runs[r := db.runs[r].(failureReason := Some(reason))])
  }

  lemma RelabelAttempts(db: Db, r: RunId, reason: Json)
    requires Inv(db) && r in db.runs
    ensures var db' := Relabel(db, r, reason); AttemptsUnique(db') && AttemptsFull(db') && KeysUnique(db')
  {
    hide RunOk, TaskOk;
    var db' := Relabel(db, r, reason);
    forall t, a | t in db'.tasks && 1 <= a <= db'.tasks[t].attempts ensures HasAttempt(db', t, a) {
      assert HasAttempt(db, t, a);
      KeptAttempt(db, db', t, a);
    }
  }

  lemma RelabelInv(db: Db, r: RunId, reason: Json)
    requires Inv(db) && r in db.runs
    ensures Inv(Relabel(db, r, reason))
  {
    hide AttemptsUnique, AttemptsFull, KeysUnique, TaskShape, Agree;
    var db' := Relabel(db, r, reason);
    forall q | q in db'.runs ensures RunOk(db', q) {
      assert RunOk(db, q);
    }
    forall t | t in db'.tasks ensures TaskOk(db', t) {
      assert TaskOk(db, t);
    }
    RelabelAttempts(db, r, reason);
  }

  lemma LockedHeld(db: Db, r: RunId, expectExpired: bool, at: Time)
    ensures LockError(db, r, expectExpired, at).None? ==> Held(db, r)
  {
  }

  lemma PutLabel(db: Db, r: RunId, run: Run, reason: Json, other: Json, at: Time, task: Task)
    ensures r in Put(db, r, FailedRun(run, other, at), task).runs
    ensures Put(db, r, FailedRun(run, reason, at), task)
      == Relabel(Put(db, r, FailedRun(run, other, at), task), r, reason)
  {
  }

  /** Cancelling the task does not look at the reason of a failed run. */
  lemma CancelLabel(db: Db, r: RunId, reason: Json, t: TaskId, at: Time)
    requires r in db.runs && db.runs[r].state == Failed && t in db.tasks
    ensures r in CancelRows(db, t, at).runs
    ensures CancelRows(Relabel(db, r, reason), t, at) == Relabel(CancelRows(db, t, at), r, reason)
  {
    assert CancelRows(Relabel(db, r, reason), t, at).runs == Relabel(CancelRows(db, t, at), r, reason).runs;
  }

  lemma AppendLabel(db: Db, r: RunId, reason: Json, run: Run, task: Task)
    requires r in db.runs && db.nextId != r
    ensures r in Append(db, run, task).runs
    ensures Append(Relabel(db, r, reason), run, task) == Relabel(Append(db, run, task), r, reason)
  {
    assert Append(Relabel(db, r, reason), run, task).runs == Relabel(Append(db, run, task), r, reason).runs;
  }

  lemma FailedPut(db: Db, r: RunId, run: Run, reason: Json, at: Time, task: Task)
    ensures var mid := Put(db, r, FailedRun(run, reason, at), task);
      r in mid.runs && mid.runs[r].state == Failed && run.taskId in mid.tasks && mid.nextId == db.nextId
  {
  }

  /** The reason of a failure decides nothing but the reason that is stored. */
  lemma ReasonIsLabel(db: Db, r: RunId, reason: Json, other: Json, expectExpired: bool, c: Clock, k: nat)
    requires Q.FailEffect(db, r, Some(reason), expectExpired, c, k).Ok? && db.nextId != r
    ensures Q.FailEffect(db, r, Some(other), expectExpired, c, k).Ok?
    ensures var a := Q.FailEffect(db, r, Some(reason), expectExpired, c, k).value;
      var b := Q.FailEffect(db, r, Some(other), expectExpired, c, k).value;
      r in b.runs && (a == b || a == Relabel(b, r, reason))
  {
    hide CancellationDue, RetryDelay, NextAvailable, LockError, NewRun, RetryState, Put, Append, CancelRows, FailedRun,
         Relabel;
    var at := Reading(c, k);
    LockedHeld(db, r, expectExpired, at);
    var run, task := db.runs[r], TaskOfRun(db, r);
    if TaskDue(task, at) {
      CancelledStays(db, r, run.taskId, Reading(c, k + 1));
    } else if task.retry.NoRetry? || run.attempt + 1 > task.maxAttempts {
      var last := task.(state := Failed, attempts := Max(task.attempts, run.attempt), lastAttemptRun := r);
      PutLabel(db, r, run, reason, other, at, last);
    } else {
      var next := NextAvailable(task, run.attempt, at);
      var mid := Put(db, r, FailedRun(run, other, at), task);
      PutLabel(db, r, run, reason, other, at, task);
      FailedPut(db, r, run, other, at, task);
      if TaskDue(task, next) {
        CancelLabel(mid, r, reason, run.taskId, Reading(c, k + 1));
      } else {
        var state, attempts := RetryState(next, at), Max(task.attempts, run.attempt + 1);
        AppendLabel(mid, r, reason, NewRun(run.taskId, run.attempt + 1, state, next),
                    task.(state := state, attempts := attempts, lastAttemptRun := db.nextId));
      }
    }
  }

  lemma CancelledStays(db: Db, r: RunId, t: TaskId, at: Time)
    requires r in db.runs && t in db.tasks
    ensures r in CancelRows(db, t, at).runs
  {
  }

  /** `fail_run` by a worker or by the reaper keeps the invariant. */
  lemma OwnFailureInv(db: Db, r: RunId, reason: Option<Json>, expectExpired: bool, c: Clock, k: nat)
    requires Inv(db) && Q.OwnReason(db, r, reason, expectExpired)
    ensures var f := Q.FailEffect(db, r, reason, expectExpired, c, k); f.Ok? ==> Inv(f.value)
  {
    hide Inv, FailPlan, Q.FailEffect;
    var f := Q.FailEffect(db, r, reason, expectExpired, c, k);
    if f.Ok? {
      Q.FailFollows(db, r, reason, expectExpired, c, k, f.value, Ok(()));
      FailShort(db, r, reason, expectExpired, c, k);
      MoveInv(db, FailPlan(db, r, reason, expectExpired, c, k).moves[0]);
    }
  }

  /** A failure without a reason can only cancel, and cancels as with one. */
  lemma ReasonlessFailure(db: Db, r: RunId, other: Json, expectExpired: bool, c: Clock, k: nat)
    requires Q.FailEffect(db, r, None, expectExpired, c, k).Ok?
    ensures Q.FailEffect(db, r, Some(other), expectExpired, c, k) == Q.FailEffect(db, r, None, expectExpired, c, k)
  {
    hide CancellationDue, RetryDelay, NextAvailable, LockError, NewRun, RetryState, Put, Append, CancelRows;
  }

  /** `fail_run` keeps the invariant for every reason and either flag, also when called from outside. */
  lemma FailureKeepsInv(db: Db, r: RunId, reason: Option<Json>, expectExpired: bool, c: Clock, k: nat)
    requires Inv(db)
    ensures var f := Q.FailEffect(db, r, reason, expectExpired, c, k); f.Ok? ==> Inv(f.value)
  {
    hide Inv, Q.FailEffect;
    var f := Q.FailEffect(db, r, reason, expectExpired, c, k);
    if !expectExpired || r !in db.runs {
      OwnFailureInv(db, r, reason, expectExpired, c, k);
    } else if f.Ok? {
      var own := LeaseExpiredReason(db.runs[r]);
      OwnFailureInv(db, r, Some(own), expectExpired, c, k);
      FreshIds(db);
      if reason.None? {
        ReasonlessFailure(db, r, own, expectExpired, c, k);
      } else {
        ReasonIsLabel(db, r, reason.value, own, expectExpired, c, k);
        RelabelInv(Q.FailEffect(db, r, Some(own), expectExpired, c, k).value, r, reason.value);
      }
    }
  }
}
