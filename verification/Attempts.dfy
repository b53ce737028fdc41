/** The attempt budget over whole histories, and the audit that the invariant passes. */
module Attempts {
  import opened Basics
  import opened Policies
  import opened Selection
  import opened Storage
  import opened Invariant
  import opened Plans
  import opened History
  import opened Supervision

  // ---- A task has exactly as many runs as attempts ----

  function RunsUpTo(db: Db, t: TaskId, n: int): set<RunId> {
    set r | r in db.runs && db.runs[r].taskId == t && db.runs[r].attempt <= n
  }

  function RunsOf(db: Db, t: TaskId): set<RunId> {
    set r | r in db.runs && db.runs[r].taskId == t
  }

  lemma AttemptsPositive(db: Db)
    requires Inv(db)
    ensures forall r :: r in db.runs ==> db.runs[r].attempt >= 1
  {
    hide TaskOk, RunShape, AttemptsUnique, AttemptsFull, KeysUnique;
    assert forall r :: r in db.runs ==> RunOk(db, r);
  }

  lemma {:induction false} CountUpTo(db: Db, t: TaskId, n: nat)
    requires Inv(db) && t in db.tasks && n <= db.tasks[t].attempts
    ensures |RunsUpTo(db, t, n)| == n
    decreases n
  {
    hide TaskOk, RunOk;
    AttemptsPositive(db);
    if n == 0 {
      assert RunsUpTo(db, t, 0) == {};
    } else {
      CountUpTo(db, t, n - 1);
      assert HasAttempt(db, t, n);
      var r :| r in db.runs && db.runs[r].taskId == t && db.runs[r].attempt == n;
      assert RunsUpTo(db, t, n) == RunsUpTo(db, t, n - 1) + {r};
    }
  }

  lemma RunsAreAttempts(db: Db, t: TaskId)
    requires Inv(db) && t in db.tasks
    ensures |RunsOf(db, t)| == db.tasks[t].attempts
  {
    LastRun(db, t);
    assert forall r :: r in db.runs ==> RunOk(db, r);
    assert RunsOf(db, t) == RunsUpTo(db, t, db.tasks[t].attempts);
    CountUpTo(db, t, db.tasks[t].attempts);
  }

  // ---- The budget grows by manual retries only ----

  predicate Reopens(m: Move, t: TaskId) {
    m.ReopenTask? && m.task == t
  }

  function ReopenCount(ms: seq<Move>, t: TaskId): nat {
    if ms == [] then 0 else (if Reopens(ms[0], t) then 1 else 0) + ReopenCount(ms[1..], t)
  }

  /** The effective budget exceeds the submitted one by at most `extra` attempts. */
  predicate WithinBudget(db: Db, t: TaskId, extra: nat) {
    t in db.tasks ==> db.tasks[t].maxAttempts <= db.tasks[t].initialMaxAttempts + extra
  }

  lemma BudgetStep(db: Db, m: Move, t: TaskId, extra: nat)
    requires Inv(db) && Can(db, m) && WithinBudget(db, t, extra)
    ensures WithinBudget(Do(db, m), t, extra + ReopenCount([m], t))
    ensures t in db.tasks && t in Do(db, m).tasks ==>
      Do(db, m).tasks[t].initialMaxAttempts == db.tasks[t].initialMaxAttempts
  {
    hide Inv, CancellationDue, RetryDelay, NextAvailable, LeaseExpiredReason;
    FreshIds(db);
    Flat(db, m);
    assert ReopenCount([m], t) == if Reopens(m, t) then 1 else 0 by { assert [m][1..] == []; }
    if m.ReopenTask? {
      LastRun(db, m.task);
    }
  }

  lemma {:induction false} BudgetMoves(db: Db, ms: seq<Move>, t: TaskId, extra: nat)
    requires Inv(db) && Enabled(db, ms) && WithinBudget(db, t, extra)
    ensures WithinBudget(DoAll(db, ms), t, extra + ReopenCount(ms, t))
    ensures t in db.tasks && t in DoAll(db, ms).tasks ==>
      DoAll(db, ms).tasks[t].initialMaxAttempts == db.tasks[t].initialMaxAttempts
    decreases |ms|
  {
    hide Inv, Do, Can, WithinBudget;
    if ms != [] {
      var db' := Do(db, ms[0]);
      BudgetStep(db, ms[0], t, extra);
      MoveInv(db, ms[0]);
      assert [ms[0]][1..] == [];
      BudgetMoves(db', ms[1..], t, extra + ReopenCount([ms[0]], t));
      if t in db.tasks && t !in db'.tasks {
        LastRun(db, t);
        NextIdGrows(db, ms[0]);
        GoneForever(db', ms[1..], t);
      }
    }
  }

  // ---- Every failure spends budget ----

  /** How many more failures the task can undergo before it needs a manual retry. */
  function Remaining(task: Task): int {
    task.maxAttempts - task.attempts + (if Active(task.state) then 1 else 0)
  }

  function RemainingIn(db: Db, t: TaskId): int {
    if t in db.tasks then Remaining(db.tasks[t]) else 0
  }

  predicate FailureOf(db: Db, m: Move, t: TaskId)
    requires Can(db, m)
  {
    IsFailure(m) && db.runs[m.run].taskId == t
  }

  /** Failures of the task's runs, by its workers or by the reaper. */
  function FailureCount(db: Db, ms: seq<Move>, t: TaskId): nat
    requires Enabled(db, ms)
    decreases |ms|
  {
    if ms == [] then 0 else (if FailureOf(db, ms[0], t) then 1 else 0) + FailureCount(Do(db, ms[0]), ms[1..], t)
  }

  /** A failure uses up one unit, a manual retry adds at most one, and nothing else adds any. */
  lemma SpendStep(db: Db, m: Move, t: TaskId)
    requires Inv(db) && Can(db, m) && t in db.tasks
    ensures RemainingIn(Do(db, m), t) + (if FailureOf(db, m, t) then 1 else 0)
      <= RemainingIn(db, t) + (if Reopens(m, t) then 1 else 0)
    ensures RemainingIn(db, t) >= 0
  {
    hide Inv, CancellationDue, RetryDelay, NextAvailable, LeaseExpiredReason;
    LastRun(db, t);
    if IsFailure(m) && db.runs[m.run].taskId == t {
      LastRun(db, t);
    }
    FreshIds(db);
    Flat(db, m);
  }

  lemma {:induction false} GoneFailures(db: Db, ms: seq<Move>, t: TaskId)
    requires Inv(db) && Enabled(db, ms) && t !in db.tasks && t < db.nextId
    ensures FailureCount(db, ms, t) == 0 && t !in DoAll(db, ms).tasks
    decreases |ms|
  {
    hide Inv, Do;
    if ms != [] {
      hide Can;
      MoveInv(db, ms[0]);
      GoneStep(db, ms[0], t);
      GoneFailures(Do(db, ms[0]), ms[1..], t);
      if IsFailure(ms[0]) {
        FailureHasTask(db, ms[0]);
      }
    }
  }

  lemma FailureHasTask(db: Db, m: Move)
    requires Can(db, m) && IsFailure(m)
    ensures db.runs[m.run].taskId in db.tasks
  {
  }

  lemma {:induction false} SpendMoves(db: Db, ms: seq<Move>, t: TaskId)
    requires Inv(db) && Enabled(db, ms) && t in db.tasks
    ensures RemainingIn(DoAll(db, ms), t) + FailureCount(db, ms, t) <= RemainingIn(db, t) + ReopenCount(ms, t)
    ensures RemainingIn(DoAll(db, ms), t) >= 0
    decreases |ms|
  {
    hide Inv, Do, Can, RemainingIn;
    if ms != [] {
      var db' := Do(db, ms[0]);
      SpendStep(db, ms[0], t);
      MoveInv(db, ms[0]);
      if t in db'.tasks {
        SpendMoves(db', ms[1..], t);
      } else {
        LastRun(db, t);
        NextIdGrows(db, ms[0]);
        GoneFailures(db', ms[1..], t);
        NothingRemains(db', t);
        NothingRemains(DoAll(db, ms), t);
      }
    } else {
      RemainingNonNegative(db, t);
    }
  }

  lemma NothingRemains(db: Db, t: TaskId)
    requires t !in db.tasks
    ensures RemainingIn(db, t) == 0
  {
  }

  lemma RemainingNonNegative(db: Db, t: TaskId)
    requires Inv(db) && t in db.tasks
    ensures RemainingIn(db, t) >= 0
  {
    LastRun(db, t);
  }

  // ---- Manual retries, counted as calls ----

  /** A successful manual retry of the task. */
  predicate Retries(db: Db, call: Call, t: TaskId) {
    call.op == Retry(t) && RetryPlan(db, t, call.clock, 0).Commit?
  }

  function RetryCount(db: Db, calls: seq<Call>, t: TaskId): nat
    decreases |calls|
  {
    if calls == [] then 0
    else (if Retries(db, calls[0], t) then 1 else 0) + RetryCount(Perform(db, calls[0]).db, calls[1..], t)
  }

  lemma {:induction false} NoReopens(ms: seq<Move>, t: TaskId)
    requires forall i :: 0 <= i < |ms| ==> !Reopens(ms[i], t)
    ensures ReopenCount(ms, t) == 0
    decreases |ms|
  {
    if ms != [] {
      NoReopens(ms[1..], t);
    }
  }

  lemma {:induction false} ReopenConcat(a: seq<Move>, b: seq<Move>, t: TaskId)
    ensures ReopenCount(a + b, t) == ReopenCount(a, t) + ReopenCount(b, t)
    decreases |a|
  {
    if a == [] {
      assert a + b == b;
    } else {
      ReopenConcat(a[1..], b, t);
      assert (a + b)[1..] == a[1..] + b;
    }
  }

  lemma FailNeverReopens(db: Db, r: RunId, reason: Option<Json>, c: Clock, t: TaskId)
    ensures var p := FailPlan(db, r, reason, false, c, 0); p.Commit? ==>
      forall i :: 0 <= i < |p.moves| ==> !Reopens(p.moves[i], t)
  {
    hide Do, LeaseExpiredReason, CancellationDue, RetryDelay, NextAvailable;
  }

  lemma NeverReopens(db: Db, call: Call, t: TaskId)
    requires !call.op.Retry?
    ensures forall i :: 0 <= i < |Perform(db, call).moves| ==> !Reopens(Perform(db, call).moves[i], t)
  {
    hide Do, FailPlan, SupervisePlan, ReapPlan, ReapSweepPlan, CancelSweepPlan, ClaimPlan, Page, TaskDue, ValidName,
         ValidSpawn, Resolve;
    if call.op.Claim? || call.op.Reap? || call.op.ReapSweep? || call.op.CancelSweep? || call.op.Cancel? {
      RoutineCall(db, call);
    } else if call.op.Supervise? {
      SuperviseRoutine(db, call.op.run, call.op.renew, call.clock, 0);
    } else if call.op.Fail? {
      FailNeverReopens(db, call.op.run, call.op.reason, call.clock, t);
    }
  }

  /** Exactly the successful manual retries reopen a task. */
  lemma ReopenIsRetry(db: Db, call: Call, t: TaskId)
    ensures ReopenCount(Perform(db, call).moves, t) == if Retries(db, call, t) then 1 else 0
  {
    hide Do, TaskDue;
    if call.op.Retry? {
      var p := RetryPlan(db, call.op.task, call.clock, 0);
      if p.Commit? {
        assert p.moves[1..] == [];
      }
    } else {
      hide Perform;
      NeverReopens(db, call, t);
      NoReopens(Perform(db, call).moves, t);
    }
  }

  lemma {:induction false} ReopensAreRetries(db: Db, calls: seq<Call>, t: TaskId)
    ensures ReopenCount(Trace(db, calls), t) == RetryCount(db, calls, t)
    decreases |calls|
  {
    hide Perform, Retries;
    if calls != [] {
      var first := Perform(db, calls[0]);
      ReopenIsRetry(db, calls[0], t);
      ReopensAreRetries(first.db, calls[1..], t);
      ReopenConcat(first.moves, Trace(first.db, calls[1..]), t);
    }
  }

  /**
   * From an empty queue, after any history: a task has as many runs as attempts, and no more of them
   * than its submitted budget plus its successful manual retries.
   */
  lemma AttemptBudget(now: Time, calls: seq<Call>, t: TaskId)
    requires Timed(now, calls)
    ensures var db := Replay(EMPTY, calls);
      t in db.tasks ==>
        |RunsOf(db, t)| == db.tasks[t].attempts <= db.tasks[t].maxAttempts
          <= db.tasks[t].initialMaxAttempts + RetryCount(EMPTY, calls, t)
  {
    hide Inv, Do, Can, Perform, RunsOf;
    EmptyInv();
    HistoryReached(EMPTY, now, calls);
    HistoryInv(EMPTY, calls);
    BudgetMoves(EMPTY, Trace(EMPTY, calls), t, 0);
    ReopensAreRetries(EMPTY, calls, t);
    if t in Replay(EMPTY, calls).tasks {
      RunsAreAttempts(Replay(EMPTY, calls), t);
      LastRun(Replay(EMPTY, calls), t);
    }
  }

  /**
   * From any point on: the submitted budget never changes, and the failures and reapings of a task are
   * at most what remained of its budget plus its successful manual retries.
   */
  lemma FailuresBounded(db: Db, now: Time, calls: seq<Call>, t: TaskId)
    requires Inv(db) && Timed(now, calls) && t in db.tasks
    ensures Enabled(db, Trace(db, calls))
    ensures FailureCount(db, Trace(db, calls), t) + RemainingIn(Replay(db, calls), t)
      <= Remaining(db.tasks[t]) + RetryCount(db, calls, t)
    ensures RemainingIn(Replay(db, calls), t) >= 0
    ensures t in Replay(db, calls).tasks ==>
      Replay(db, calls).tasks[t].initialMaxAttempts == db.tasks[t].initialMaxAttempts
  {
    hide Inv, Do, Can, Perform;
    HistoryReached(db, now, calls);
    SpendMoves(db, Trace(db, calls), t);
    ReopensAreRetries(db, calls, t);
    LastRun(db, t);
    BudgetMoves(db, Trace(db, calls), t, Max(0, db.tasks[t].maxAttempts - db.tasks[t].initialMaxAttempts));
  }

  // ---- The audit of the stateful tests ----

  /** The declared constraints of one task row. */
  predicate TaskConstraints(db: Db, t: TaskId)
    requires t in db.tasks
  {
    var task := db.tasks[t];
    && ValidName(task.name) && RetryDelay(task.retry, 1).Ok?
    && task.initialMaxAttempts >= 1 && task.maxAttempts >= task.initialMaxAttempts && task.attempts >= 0
    && (task.state == Cancelled ==> task.cancelledAt.Some?)
    && (task.idempotencyKey.Some? ==> ValidName(task.idempotencyKey.value))
    && task.lastAttemptRun in db.runs && db.runs[task.lastAttemptRun].taskId == t
  }

  /** The declared constraints of one run row. */
  predicate RunConstraints(db: Db, r: RunId)
    requires r in db.runs
  {
    var run := db.runs[r];
    && run.taskId in db.tasks && run.attempt >= 1
    && (run.state == Completed ==> run.completedAt.Some? && run.result.Some?)
    && (run.state == Failed ==> run.failedAt.Some? && run.failureReason.Some?)
    && if run.state == Running
       then run.claimedBy.Some? && !Blank(run.claimedBy.value) && run.claimExpiresAt.Some?
       else run.claimedBy.None? && run.claimExpiresAt.None?
  }

  /** Stored values respect the declared CHECK, UNIQUE and foreign key constraints. */
  ghost predicate Constraints(db: Db) {
    && (forall t :: t in db.tasks ==> TaskConstraints(db, t))
    && (forall r :: r in db.runs ==> RunConstraints(db, r))
    && (forall t :: t in db.checkpoints ==> t in db.tasks)
    && CheckpointNames(db.checkpoints)
    && AttemptsUnique(db) && KeysUnique(db)
  }

  /** What the randomized histories check of one task and its runs. */
  ghost predicate AuditedTask(db: Db, t: TaskId)
    requires t in db.tasks
  {
    var task := db.tasks[t];
    && 1 <= task.attempts <= task.maxAttempts
    && task.lastAttemptRun in db.runs
    && db.runs[task.lastAttemptRun].attempt == task.attempts
    && (task.state == db.runs[task.lastAttemptRun].state
        || (task.state == Cancelled && db.runs[task.lastAttemptRun].state == Failed))
    && (forall r :: r in db.runs && db.runs[r].taskId == t ==> db.runs[r].attempt <= task.attempts)
    && (forall r :: r in db.runs && db.runs[r].taskId == t && Active(db.runs[r].state) ==> r == task.lastAttemptRun)
  }

  /** At most one active run for each task: the partial unique index. */
  ghost predicate OneActive(db: Db) {
    forall r, q | r in db.runs && q in db.runs && db.runs[r].taskId == db.runs[q].taskId ::
      Active(db.runs[r].state) && Active(db.runs[q].state) ==> r == q
  }

  ghost predicate Audited(db: Db) {
    (forall t :: t in db.tasks ==> AuditedTask(db, t)) && OneActive(db)
  }

  lemma InvConstraints(db: Db)
    requires Inv(db)
    ensures Constraints(db)
  {
    hide ValidName, AttemptsUnique, AttemptsFull, KeysUnique;
    forall t | t in db.tasks ensures TaskConstraints(db, t) {
      assert TaskOk(db, t);
    }
    forall r | r in db.runs ensures RunConstraints(db, r) {
      assert RunOk(db, r);
    }
  }

  lemma AuditTask(db: Db, t: TaskId)
    requires Inv(db) && t in db.tasks
    ensures AuditedTask(db, t)
  {
    hide ValidName, ValidStrategy, RunShape, AttemptsUnique, AttemptsFull, KeysUnique;
    assert TaskOk(db, t);
    assert forall r :: r in db.runs ==> RunOk(db, r);
  }

  lemma ActiveIsLast(db: Db, r: RunId)
    requires Inv(db) && r in db.runs && Active(db.runs[r].state)
    ensures db.runs[r].taskId in db.tasks && r == db.tasks[db.runs[r].taskId].lastAttemptRun
  {
    assert RunOk(db, r);
  }

  lemma InvAudited(db: Db)
    requires Inv(db)
    ensures Audited(db)
  {
    hide Inv, AuditedTask;
    forall t | t in db.tasks ensures AuditedTask(db, t) {
      AuditTask(db, t);
    }
    forall r, q | r in db.runs && q in db.runs && db.runs[r].taskId == db.runs[q].taskId
      ensures Active(db.runs[r].state) && Active(db.runs[q].state) ==> r == q
    {
      if Active(db.runs[r].state) && Active(db.runs[q].state) {
        ActiveIsLast(db, r);
        ActiveIsLast(db, q);
      }
    }
  }

  /** Every history from an empty queue passes the audit and violates no declared constraint. */
  lemma HistoriesAudited(calls: seq<Call>)
    ensures Constraints(Replay(EMPTY, calls)) && Audited(Replay(EMPTY, calls))
  {
    hide Inv, Perform, Constraints, Audited;
    EmptyInv();
    HistoryInv(EMPTY, calls);
    InvConstraints(Replay(EMPTY, calls));
    InvAudited(Replay(EMPTY, calls));
  }
}
