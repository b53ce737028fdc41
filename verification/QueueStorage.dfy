/**
 * The database functions as they run: each reads rows, checks, and updates the tables in place, one
 * statement after the other. Every method is proved to have the outcome its plan states.
 */
module QueueStorage {
  import opened Basics
  import opened Policies
  import opened Selection
  import opened Storage
  import opened Plans

  /** The call returned what the plan says and left its tables; an exception left nothing behind. */
  ghost predicate Follows<T>(p: Outcome<T>, before: Db, after: Db, res: Result<T>) {
    match p
    case Raise(e) => res == Err(e) && after == before
    case Commit(value, db, _) => res == Ok(value) && after == db
  }

  /** A row pair under lock, as both lock functions return it. */
  datatype Locked = Locked(run: Run, task: Task, observedAt: Time)

  /** The outcome of the remaining loop iterations, after `count` hits and the given transitions. */
  function Resume(count: nat, moves: seq<Move>, rest: Outcome<nat>): Outcome<nat> {
    match rest
    case Raise(e) => Raise(e)
    case Commit(more, db, ms) => Commit(count + more, db, moves + ms)
  }

  lemma ResumeStart(p: Outcome<nat>)
    ensures Resume(0, [], p) == p
  {
    if p.Commit? {
      assert [] + p.moves == p.moves;
    }
  }

  lemma ResumeNext(count: nat, moves: seq<Move>, hit: bool, ms: seq<Move>, rest: Outcome<nat>)
    ensures Resume(count, moves, AndThen(hit, ms, rest)) == Resume(count + (if hit then 1 else 0), moves + ms, rest)
  {
    if rest.Commit? {
      assert moves + (ms + rest.moves) == (moves + ms) + rest.moves;
    }
  }

  /**
   * `fail_run` for every flag and reason: the error it raises, or the tables it leaves. Only the reaper
   * expects an expired lease, so the plan of a failure covers less.
   */
  function FailEffect(db: Db, r: RunId, reason: Option<Json>, expectExpired: bool, c: Clock, k: nat): Result<Db> {
    hide CancellationDue, RetryDelay;
    var at := Reading(c, k);
    match LockError(db, r, expectExpired, at)
    case Some(e) => Err(e)
    case None =>
      var run, task := db.runs[r], TaskOfRun(db, r);
      if TaskDue(task, at) then Ok(CancelRows(db, run.taskId, Reading(c, k + 1)))
      else if reason.None? then Err(ConstraintViolation)
      else if run.attempt >= INT_MAX then Err(IntegerOutOfRange)
      else
        var failed := FailedRun(run, reason.value, at);
        var last := task.(state := Failed, attempts := Max(task.attempts, run.attempt), lastAttemptRun := r);
        if task.retry.NoRetry? || run.attempt + 1 > task.maxAttempts then Ok(Put(db, r, failed, last))
        else if RetryDelay(task.retry, run.attempt).Err? then Err(InvalidStrategy)
        else
          var next := NextAvailable(task, run.attempt, at);
          var mid, state := Put(db, r, failed, task), RetryState(next, at);
          if TaskDue(task, next) then Ok(CancelRows(mid, run.taskId, Reading(c, k + 1)))
          else
            var attempts := Max(task.attempts, run.attempt + 1);
            Ok(Append(mid, NewRun(run.taskId, run.attempt + 1, state, next),
                      task.(state := state, attempts := attempts, lastAttemptRun := db.nextId)))
  }

  /** The reaper's reason, where an expired lease is expected. */
  predicate OwnReason(db: Db, r: RunId, reason: Option<Json>, expectExpired: bool) {
    expectExpired && r in db.runs ==> reason == Some(LeaseExpiredReason(db.runs[r]))
  }

  ghost predicate Fails(effect: Result<Db>, before: Db, after: Db, res: Result<()>) {
    match effect
    case Err(e) => res == Err(e) && after == before
    case Ok(db) => res == Ok(()) && after == db
  }

  /** Where the plan of a failure applies, it says the same. */
  lemma FailFollows(db: Db, r: RunId, reason: Option<Json>, expectExpired: bool, c: Clock, k: nat, after: Db,
                    res: Result<()>)
    requires OwnReason(db, r, reason, expectExpired)
    requires Fails(FailEffect(db, r, reason, expectExpired, c, k), db, after, res)
    ensures Follows(FailPlan(db, r, reason, expectExpired, c, k), db, after, res)
  {
    hide CancellationDue, CancelRows, RetryDelay, NextAvailable, LeaseExpiredReason, Put, Append, FailedRun, NewRun,
         RetryState;
  }

  lemma CancelTables(db: Db, t: TaskId, c: Clock, k: nat)
    requires t in db.tasks && Active(db.tasks[t].state)
    ensures CancelPlan(db, t, c, k).Commit? && CancelPlan(db, t, c, k).db == CancelRows(db, t, Reading(c, k))
  {
  }

  /** The outcomes of a submission, row by row. */
  lemma SpawnTables(db: Db, name: Text, params: Option<Json>, options: SpawnOptions, c: Clock, k: nat)
    ensures var p, request := SpawnPlan(db, name, params, options, c, k), Resolve(name, params, options);
      var key := options.idempotencyKey;
      if !ValidSpawn(name, options) then p == Raise(InvalidArgument)
      else if key.Some? && KeyHolders(db, key.value) != map[] then
        var t := First(KeyHolders(db, key.value));
        p == if RequestOf(db.tasks[t]) == request then Unchanged(db, (t, false)) else Raise(IdempotencyConflict)
      else
        p.Commit? && p.value == (db.nextId, true)
        && p.db == Insert(db, NewTask(request, key, db.nextId + 1, Reading(c, k)))
  {
    hide ValidStrategy, ValidName, ValidPolicy, FreshTask, Insert, NewTask, RequestOf, Resolve;
  }

  class QueueStorage {
    var tasks: map<TaskId, Task>
    var runs: map<RunId, Run>
    var checkpoints: map<TaskId, map<Text, Json>>
    var nextId: nat

    constructor ()
      ensures Snapshot() == EMPTY
    {
      tasks, runs, checkpoints, nextId := map[], map[], map[], 0;
    }

    function Snapshot(): Db
      reads this
    {
      Db(tasks, runs, checkpoints, nextId)
    }

    method Rollback(saved: Db)
      modifies this
      ensures Snapshot() == saved
    {
      tasks, runs, checkpoints, nextId := saved.tasks, saved.runs, saved.checkpoints, saved.nextId;
    }

    method LockAttemptContext(r: RunId, c: Clock, k: nat) returns (res: Result<Locked>)
      ensures res.Ok? <==> r in runs && runs[r].taskId in tasks
      ensures res.Ok? ==> res.value == Locked(runs[r], tasks[runs[r].taskId], Reading(c, k))
      ensures res.Err? ==> res.error == NotFound
    {
      if r !in runs {
        return Err(NotFound);
      }
      var run := runs[r];
      if run.taskId !in tasks {
        return Err(NotFound);
      }
      return Ok(Locked(run, tasks[run.taskId], Reading(c, k)));
    }

    method LockRunningAttempt(r: RunId, expectExpired: bool, c: Clock, k: nat) returns (res: Result<Locked>)
      ensures res.Err? <==> LockError(Snapshot(), r, expectExpired, Reading(c, k)).Some?
      ensures res.Err? ==> LockError(Snapshot(), r, expectExpired, Reading(c, k)) == Some(res.error)
      ensures res.Ok? ==> Held(Snapshot(), r) && res.value == Locked(runs[r], tasks[runs[r].taskId], Reading(c, k))
    {
      var locked := LockAttemptContext(r, c, k);
      if locked.Err? {
        return locked;
      }
      var context := locked.value;
      if context.run.state == Cancelled {
        return Err(TaskCancelled);
      }
      if context.run.state == Failed {
        return Err(RunAlreadyFailed);
      }
      if context.run.state != Running {
        return Err(NotRunning);
      }
      if context.task.state == Cancelled {
        return Err(TaskCancelled);
      }
      if context.task.state != Running || context.task.lastAttemptRun != r {
        return Err(NotAuthoritative);
      }
      if context.run.claimExpiresAt.None? {
        return Err(NoFiniteLease);
      }
      if expectExpired {
        if context.run.claimExpiresAt.value > context.observedAt {
          return Err(LeaseNotExpired);
        }
      } else if context.run.claimExpiresAt.value <= context.observedAt {
        return Err(LeaseLost);
      }
      return Ok(context);
    }

    method CancelTask(t: TaskId, c: Clock, k: nat) returns (res: Result<bool>)
      modifies this
      ensures Follows(CancelPlan(old(Snapshot()), t, c, k), old(Snapshot()), Snapshot(), res)
    {
      var nowAt := Reading(c, k);
      if t !in tasks {
        return Err(NotFound);
      }
      if !Active(tasks[t].state) {
        return Ok(false);
      }
      var cancelledAt := if tasks[t].cancelledAt.Some? then tasks[t].cancelledAt else Some(nowAt);
      tasks := tasks[t := tasks[t].(state := Cancelled, cancelledAt := cancelledAt)];
      runs := map r | r in runs ::
        if runs[r].taskId == t && Active(runs[r].state)
        then runs[r].(state := Cancelled, claimedBy := None, claimExpiresAt := None)
        else runs[r];
      res := Ok(true);
      assert runs == CancelRuns(old(runs), t);
    }

    method CompleteRun(r: RunId, result: Option<Json>, c: Clock, k: nat) returns (res: Result<bool>)
      modifies this
      ensures Follows(CompletePlan(old(Snapshot()), r, result, c, k), old(Snapshot()), Snapshot(), res)
    {
      hide CancellationDue, CancelRuns;
      var locked := LockRunningAttempt(r, false, c, k);
      if locked.Err? {
        return Err(locked.error);
      }
      var context := locked.value;
      var task := context.task;
      if CancellationDue(task.cancellation, task.enqueueAt, task.firstStartedAt, context.observedAt) {
        var _ := CancelTask(context.run.taskId, c, k + 1);
        return Ok(false);
      }
      if result.None? {
        return Err(ConstraintViolation);
      }
      runs := runs[r := runs[r].(state := Completed, completedAt := Some(context.observedAt), result := result,
                                 claimedBy := None, claimExpiresAt := None)];
      tasks := tasks[context.run.taskId := tasks[context.run.taskId].(state := Completed, lastAttemptRun := r)];
      res := Ok(true);
    }

    method ScheduleRun(r: RunId, wakeAt: Time, c: Clock, k: nat) returns (res: Result<ScheduleOutcome>)
      modifies this
      ensures Follows(SchedulePlan(old(Snapshot()), r, wakeAt, c, k), old(Snapshot()), Snapshot(), res)
    {
      hide CancellationDue, CancelRuns;
      var locked := LockRunningAttempt(r, false, c, k);
      if locked.Err? {
        return Err(locked.error);
      }
      var context := locked.value;
      var task := context.task;
      if CancellationDue(task.cancellation, task.enqueueAt, task.firstStartedAt, context.observedAt)
        || CancellationDue(task.cancellation, task.enqueueAt, task.firstStartedAt, wakeAt)
      {
        var _ := CancelTask(context.run.taskId, c, k + 1);
        return Ok(CancelledInstead);
      }
      if wakeAt <= context.observedAt {
        return Ok(Ready);
      }
      runs := runs[r := runs[r].(state := Sleeping, claimedBy := None, claimExpiresAt := None, availableAt := wakeAt)];
      tasks := tasks[context.run.taskId := tasks[context.run.taskId].(state := Sleeping)];
      res := Ok(Suspended);
    }

    method RetryTask(t: TaskId, c: Clock, k: nat) returns (res: Result<RunId>)
      modifies this
      ensures Follows(RetryPlan(old(Snapshot()), t, c, k), old(Snapshot()), Snapshot(), res)
    {
      hide CancellationDue;
      var nowAt := Reading(c, k);
      if t !in tasks {
        return Err(NotFound);
      }
      var task := tasks[t];
      if task.state != Failed {
        return Err(NotFailed);
      }
      if CancellationDue(task.cancellation, task.enqueueAt, task.firstStartedAt, nowAt) {
        return Err(DeadlineElapsed);
      }
      if task.attempts >= INT_MAX {
        return Err(IntegerOutOfRange);
      }
      var nextAttempt := task.attempts + 1;
      var newRun := nextId;
      nextId := nextId + 1;
      runs := runs[newRun := NewRun(t, nextAttempt, Pending, nowAt)];
      tasks := tasks[t := task.(state := Pending, attempts := nextAttempt,
                                maxAttempts := Max(task.maxAttempts, nextAttempt),
                                lastAttemptRun := newRun, cancelledAt := None)];
      res := Ok(newRun);
    }

    method FailRun(r: RunId, reason: Option<Json>, expectExpired: bool, c: Clock, k: nat) returns (res: Result<()>)
      modifies this
      ensures Fails(FailEffect(old(Snapshot()), r, reason, expectExpired, c, k), old(Snapshot()), Snapshot(), res)
    {
      hide CancellationDue, CancelRuns, RetryDelay, LeaseExpiredReason, LockError, Do, Can, FailPlan;
      var saved := Snapshot();
      var locked := LockRunningAttempt(r, expectExpired, c, k);
      if locked.Err? {
        return Err(locked.error);
      }
      var context := locked.value;
      var t, task := context.run.taskId, context.task;
      if CancellationDue(task.cancellation, task.enqueueAt, task.firstStartedAt, context.observedAt) {
        CancelTables(Snapshot(), t, c, k + 1);
        var _ := CancelTask(t, c, k + 1);
        return Ok(());
      }
      if reason.None? {
        return Err(ConstraintViolation);
      }
      runs := runs[r := runs[r].(state := Failed, failedAt := Some(context.observedAt), failureReason := reason,
                                 claimedBy := None, claimExpiresAt := None)];
      if context.run.attempt >= INT_MAX {
        Rollback(saved);
        return Err(IntegerOutOfRange);
      }
      var nextAttempt := context.run.attempt + 1;
      var nextTaskState, recordedAttempt, lastAttemptRun := Failed, context.run.attempt, r;

      if !task.retry.NoRetry? && nextAttempt <= task.maxAttempts {
        var delay := RetryDelay(task.retry, context.run.attempt);
        if delay.Err? {
          Rollback(saved);
          return Err(InvalidStrategy);
        }
        var nextAvailableAt := context.observedAt + delay.value;
        if nextAvailableAt < context.observedAt {
          nextAvailableAt := context.observedAt;
        }
        if CancellationDue(task.cancellation, task.enqueueAt, task.firstStartedAt, nextAvailableAt) {
          CancelTables(Snapshot(), t, c, k + 1);
          var _ := CancelTask(t, c, k + 1);
          return Ok(());
        }
        nextTaskState := if nextAvailableAt > context.observedAt then Sleeping else Pending;
        lastAttemptRun, recordedAttempt := nextId, nextAttempt;
        nextId := nextId + 1;
        runs := runs[lastAttemptRun := NewRun(t, nextAttempt, nextTaskState, nextAvailableAt)];
      }

      tasks := tasks[t := tasks[t].(state := nextTaskState, attempts := Max(tasks[t].attempts, recordedAttempt),
                                    lastAttemptRun := lastAttemptRun)];
      res := Ok(());
    }

    method ReapExpiredRun(r: RunId, c: Clock, k: nat) returns (res: Result<bool>)
      modifies this
      ensures Follows(ReapPlan(old(Snapshot()), r, c, k), old(Snapshot()), Snapshot(), res)
    {
      hide LeaseExpiredReason, FailPlan, FailEffect, Fails;
      var locked := LockAttemptContext(r, c, k);
      if locked.Err? {
        return Err(locked.error);
      }
      var context := locked.value;
      if context.run.state != Running || context.run.claimExpiresAt.None?
        || context.run.claimExpiresAt.value > context.observedAt
      {
        return Ok(false);
      }
      if context.task.state != Running || context.task.lastAttemptRun != r {
        return Err(NotAuthoritative);
      }
      ghost var saved := Snapshot();
      var failed := FailRun(r, Some(LeaseExpiredReason(context.run)), true, c, k + 1);
      FailFollows(saved, r, Some(LeaseExpiredReason(context.run)), true, c, k + 1, Snapshot(), failed);
      if failed.Err? {
        return Err(failed.error);
      }
      return Ok(true);
    }

    method SuperviseRun(r: RunId, renewForSeconds: Option<int>, c: Clock, k: nat) returns (res: Result<Verdict>)
      modifies this
      ensures Follows(SupervisePlan(old(Snapshot()), r, renewForSeconds, c, k), old(Snapshot()), Snapshot(), res)
    {
      hide LeaseExpiredReason, ReapPlan, CancellationDue, CancelRuns, NamedLeaseExpired;
      if renewForSeconds.Some? && renewForSeconds.value <= 0 {
        return Err(InvalidArgument);
      }
      var locked := LockAttemptContext(r, c, k);
      if locked.Err? {
        return Err(locked.error);
      }
      var context := locked.value;
      var run, task := context.run, context.task;
      if task.state == Cancelled || run.state == Cancelled {
        return Ok(RunCancelled);
      }
      if run.state == Failed {
        var expired := run.failureReason.Some? && NamedLeaseExpired(run.failureReason.value);
        return Ok(if expired then LeaseExpired else RunFailed);
      }
      if run.state == Completed {
        return Ok(RunCompleted);
      }
      if run.state == Sleeping {
        return Ok(RunSuspended);
      }
      if run.state != Running {
        return Err(UnsupportedState);
      }
      if task.state != Running || task.lastAttemptRun != r {
        return Err(NotAuthoritative);
      }
      if CancellationDue(task.cancellation, task.enqueueAt, task.firstStartedAt, context.observedAt) {
        var _ := CancelTask(run.taskId, c, k + 1);
        return Ok(RunCancelled);
      }
      if run.claimExpiresAt.None? {
        return Err(NoFiniteLease);
      }
      if run.claimExpiresAt.value <= context.observedAt {
        var reaped := ReapExpiredRun(r, c, k + 1);
        if reaped.Err? {
          return Err(reaped.error);
        }
        return Ok(if run.taskId in tasks && tasks[run.taskId].state == Cancelled then RunCancelled else LeaseExpired);
      }
      if renewForSeconds.Some? && run.claimExpiresAt.value <= context.observedAt + renewForSeconds.value as real / 2.0 {
        var extended := LaterOf(run.claimExpiresAt.value, context.observedAt + renewForSeconds.value as real);
        runs := runs[r := runs[r].(claimExpiresAt := Some(extended))];
        assert tasks == tasks[run.taskId := task];
      }
      return Ok(StillRunning);
    }

    method ReapExpiredRuns(limit: int, skip: set<RunId>, c: Clock, k: nat) returns (res: Result<nat>)
      modifies this
      ensures Follows(ReapSweepPlan(old(Snapshot()), limit, skip, c, k), old(Snapshot()), Snapshot(), res)
    {
      hide ReapPlan, Page, ExpiredRuns;
      if limit <= 0 {
        return Err(InvalidArgument);
      }
      var saved, reaped := Snapshot(), 0;
      var ids := Page(ExpiredRuns(saved, Reading(c, k), skip), limit);
      var i := 0;
      ghost var moves: seq<Move> := [];
      ResumeStart(ReapEach(saved, ids, c, k + 1));
      assert ids[0..] == ids;
      while i < |ids|
        invariant 0 <= i <= |ids|
        invariant ReapEach(saved, ids, c, k + 1)
          == Resume(reaped, moves, ReapEach(Snapshot(), ids[i..], c, k + 1 + 3 * i))
      {
        assert ids[i..][0] == ids[i] && ids[i..][1..] == ids[i + 1..];
        ghost var plan := ReapPlan(Snapshot(), ids[i], c, k + 1 + 3 * i);
        ghost var rest := if plan.Commit? then ReapEach(plan.db, ids[i + 1..], c, k + 1 + 3 * i + 3)
          else Raise(NotFound);
        var hit := ReapExpiredRun(ids[i], c, k + 1 + 3 * i);
        if hit.Err? {
          Rollback(saved);
          return Err(hit.error);
        }
        ResumeNext(reaped, moves, hit.value, plan.moves, rest);
        moves := moves + plan.moves;
        if hit.value {
          reaped := reaped + 1;
        }
        i := i + 1;
      }
      return Ok(reaped);
    }

    method CancelExpiredTasks(limit: int, skip: set<RunId>, c: Clock, k: nat) returns (res: Result<nat>)
      modifies this
      ensures Follows(CancelSweepPlan(old(Snapshot()), limit, skip, c, k), old(Snapshot()), Snapshot(), res)
    {
      hide CancelPlan, Page, DueTasks;
      if limit <= 0 {
        return Err(InvalidArgument);
      }
      var saved, cancelled := Snapshot(), 0;
      var ids := Page(DueTasks(saved, Reading(c, k), skip), limit);
      var i := 0;
      ghost var moves: seq<Move> := [];
      ResumeStart(CancelEach(saved, ids, c, k + 1));
      assert ids[0..] == ids;
      while i < |ids|
        invariant 0 <= i <= |ids|
        invariant CancelEach(saved, ids, c, k + 1)
          == Resume(cancelled, moves, CancelEach(Snapshot(), ids[i..], c, k + 1 + i))
      {
        assert ids[i..][0] == ids[i] && ids[i..][1..] == ids[i + 1..];
        ghost var plan := CancelPlan(Snapshot(), ids[i], c, k + 1 + i);
        ghost var rest := if plan.Commit? then CancelEach(plan.db, ids[i + 1..], c, k + 1 + i + 1) else Raise(NotFound);
        var hit := CancelTask(ids[i], c, k + 1 + i);
        if hit.Err? {
          Rollback(saved);
          return Err(hit.error);
        }
        ResumeNext(cancelled, moves, hit.value, plan.moves, rest);
        moves := moves + plan.moves;
        if hit.value {
          cancelled := cancelled + 1;
        }
        i := i + 1;
      }
      return Ok(cancelled);
    }

    /** The two UPDATEs of a claim: the selected runs, then the tasks that these runs belong to. */
    method StartRuns(ids: seq<RunId>, worker: Text, expires: Time, nowAt: Time)
      modifies this
      ensures Snapshot() == ClaimAll(old(Snapshot()), ids, worker, expires, nowAt)
    {
      runs := map r | r in runs ::
        if r in ids then
          runs[r].(state := Running, claimedBy := Some(worker), claimExpiresAt := Some(expires),
                   startedAt := if runs[r].startedAt.Some? then runs[r].startedAt else Some(nowAt),
                   availableAt := nowAt)
        else runs[r];
      assert runs == ClaimAll(old(Snapshot()), ids, worker, expires, nowAt).runs;
      tasks := map t | t in tasks ::
        var task := tasks[t];
        if task.lastAttemptRun in ids && task.lastAttemptRun in runs && runs[task.lastAttemptRun].taskId == t then
          task.(state := Running, attempts := Max(task.attempts, runs[task.lastAttemptRun].attempt),
                firstStartedAt := if task.firstStartedAt.Some? then task.firstStartedAt else Some(nowAt),
                lastAttemptRun := task.lastAttemptRun)
        else task;
      assert tasks == ClaimAll(old(Snapshot()), ids, worker, expires, nowAt).tasks;
    }

    method ClaimTasks(call: ClaimCall, c: Clock, k: nat) returns (res: Result<seq<Assignment>>)
      modifies this
      ensures Follows(ClaimPlan(old(Snapshot()), call, c, k), old(Snapshot()), Snapshot(), res)
    {
      hide CancelSweepPlan, ReapSweepPlan, ClaimPage, ClaimAll, Assignments, Claimable, TaskDue, Blank;
      var saved := Snapshot();
      if Blank(call.worker) || call.lease <= 0 || call.quantity <= 0 || call.names == []
        || exists name :: name in call.names && Blank(name)
      {
        return Err(InvalidArgument);
      }
      var cancelled := CancelExpiredTasks(call.quantity, call.skipDue, c, k + 1);
      if cancelled.Err? {
        return Err(cancelled.error);
      }
      var reaped := ReapExpiredRuns(call.quantity, call.skipExpired, c, ReapStart(call, k));
      if reaped.Err? {
        Rollback(saved);
        return Err(reaped.error);
      }
      var nowAt := Reading(c, ClaimStart(call, k));
      var expires := nowAt + call.lease as real;
      var ids := ClaimPage(Snapshot(), call, nowAt);
      var rows := Assignments(Snapshot(), ids);
      StartRuns(ids, call.worker, expires, nowAt);
      res := Ok(rows);
    }

    method SpawnTask(name: Text, params: Option<Json>, options: SpawnOptions, c: Clock, k: nat)
      returns (res: Result<(TaskId, bool)>)
      modifies this
      ensures Follows(SpawnPlan(old(Snapshot()), name, params, options, c, k), old(Snapshot()), Snapshot(), res)
    {
      hide ValidStrategy, ValidName, ValidPolicy, SpawnPlan;
      SpawnTables(Snapshot(), name, params, options, c, k);
      var nowAt := Reading(c, k);
      if !ValidName(name) {
        return Err(InvalidArgument);
      }
      var headers := if options.headers == Some(map[]) then None else options.headers;
      if options.maxAttempts.Some? && !(1 <= options.maxAttempts.value <= INT_MAX) {
        return Err(InvalidArgument);
      }
      if options.cancellation.Some? && !ValidPolicy(options.cancellation.value) {
        return Err(InvalidArgument);
      }
      var maxAttempts := if options.maxAttempts.Some? then options.maxAttempts.value else 5;
      var retry := if options.retry.Some? then options.retry.value else DEFAULT_STRATEGY;
      var key := options.idempotencyKey;
      if key.Some? && !ValidName(key.value) {
        return Err(InvalidArgument);
      }
      if options.retry.Some? && !ValidStrategy(retry) {
        return Err(InvalidArgument);
      }
      var payload := if params.Some? then params.value else JNull;
      var holders := if key.Some? then KeyHolders(Snapshot(), key.value) else map[];
      if holders != map[] {
        var t := First(holders);
        var existing := tasks[t];
        if existing.name != name || existing.params != payload || existing.headers != headers || existing.retry != retry
          || existing.initialMaxAttempts != maxAttempts || existing.cancellation != options.cancellation
        {
          return Err(IdempotencyConflict);
        }
        return Ok((t, false));
      }
      var taskId, initialRun := nextId, nextId + 1;
      nextId := nextId + 2;
      tasks := tasks[taskId := Task(name, payload, headers, retry, maxAttempts, maxAttempts, options.cancellation,
                                    nowAt, None, Pending, 1, initialRun, None, key)];
      runs := runs[initialRun := NewRun(taskId, 1, Pending, nowAt)];
      return Ok((taskId, true));
    }

    method GetTaskResult(t: TaskId) returns (row: Option<ResultRow>)
      ensures row == TaskResult(Snapshot(), t)
    {
      if t !in tasks {
        return None;
      }
      var task := tasks[t];
      var result, failureReason: Option<Json> := None, None;
      if task.lastAttemptRun in runs {
        if task.state == Completed {
          result := runs[task.lastAttemptRun].result;
        } else if task.state == Failed {
          failureReason := runs[task.lastAttemptRun].failureReason;
        }
      }
      return Some(ResultRow(task.name, task.state, result, failureReason));
    }

    method SetTaskCheckpointState(t: TaskId, name: Text, value: Json, r: RunId, c: Clock, k: nat)
      returns (res: Result<(Json, bool)>)
      modifies this
      ensures Follows(CheckpointPlan(old(Snapshot()), t, name, value, r, c, k), old(Snapshot()), Snapshot(), res)
    {
      hide CancellationDue, Blank;
      if Blank(name) || |name| > MAX_NAME_BYTES {
        return Err(InvalidArgument);
      }
      var locked := LockRunningAttempt(r, false, c, k);
      if locked.Err? {
        return Err(locked.error);
      }
      var context := locked.value;
      if context.run.taskId != t {
        return Err(WrongTask);
      }
      var task := context.task;
      if CancellationDue(task.cancellation, task.enqueueAt, task.firstStartedAt, context.observedAt) {
        return Err(TaskCancelled);
      }
      var rows := if t in checkpoints then checkpoints[t] else map[];
      var written := name !in rows;
      if written {
        checkpoints := checkpoints[t := rows[name := value]];
      }
      return Ok((if written then value else rows[name], written));
    }

    method GetTaskCheckpointStates(t: TaskId, r: RunId, c: Clock, k: nat) returns (res: Result<map<Text, Json>>)
      ensures Follows(LoadCheckpointsPlan(Snapshot(), t, r, c, k), Snapshot(), Snapshot(), res)
    {
      var locked := LockRunningAttempt(r, false, c, k);
      if locked.Err? {
        return Err(locked.error);
      }
      if locked.value.run.taskId != t {
        return Err(WrongTask);
      }
      return Ok(if t in checkpoints then checkpoints[t] else map[]);
    }

    /** The foreign keys of the task row delete its runs and checkpoints with it. */
    method CleanupTasks(ttl: Time, limit: int, skip: set<TaskId>, c: Clock, k: nat) returns (res: Result<nat>)
      modifies this
      ensures Follows(CleanupPlan(old(Snapshot()), ttl, limit, skip, c, k), old(Snapshot()), Snapshot(), res)
    {
      hide Page, TerminalAt;
      if ttl < 0.0 || limit < 1 {
        return Err(InvalidArgument);
      }
      var cutoff := Reading(c, k) - ttl;
      var ids := Page(Expendable(Snapshot(), cutoff, skip), limit);
      tasks := map t | t in tasks && t !in ids :: tasks[t];
      runs := map r | r in runs && runs[r].taskId !in ids :: runs[r];
      checkpoints := map t | t in checkpoints && t !in ids :: checkpoints[t];
      return Ok(|ids|);
    }
  }
}
