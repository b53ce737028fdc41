/** When a task ended and what it shows from then on: results, failures, and the start of its retention. */
module Endings {
  import opened Basics
  import opened Policies
  import opened Selection
  import opened Storage
  import opened Invariant
  import opened Plans
  import opened History
  import opened Fencing
  import opened Limits
  import opened Retention
  import Executor
  import Metrics

  /** The task is finished, and the column for its kind of end holds this time. */
  predicate EndedAt(db: Db, t: TaskId, at: Time) {
    && t in db.tasks
    && var task := db.tasks[t];
       || (task.state == Cancelled && task.cancelledAt == Some(at))
       || (task.state == Completed && task.lastAttemptRun in db.runs
           && db.runs[task.lastAttemptRun].completedAt == Some(at))
       || (task.state == Failed && task.lastAttemptRun in db.runs && db.runs[task.lastAttemptRun].failedAt == Some(at))
  }

  predicate IsActive(db: Db, t: TaskId) {
    t in db.tasks && Active(db.tasks[t].state)
  }

  /** Every finished task has a time of its end, and only one. */
  lemma EndsOnce(db: Db, t: TaskId)
    requires Inv(db) && t in db.tasks && !IsActive(db, t)
    ensures TerminalAt(db, t).Some? && EndedAt(db, t, TerminalAt(db, t).value)
    ensures forall at :: EndedAt(db, t, at) ==> at == TerminalAt(db, t).value
  {
    hide Inv;
    LastRun(db, t);
    LastRunShape(db, t);
  }

  lemma LastRunShape(db: Db, t: TaskId)
    requires Inv(db) && t in db.tasks
    ensures db.tasks[t].lastAttemptRun in db.runs && RunShape(db.runs[db.tasks[t].lastAttemptRun])
    ensures Agree(db.tasks[t].state, db.runs[db.tasks[t].lastAttemptRun].state)
    ensures TaskShape(db.tasks[t])
  {
    assert TaskOk(db, t);
    assert RunOk(db, db.tasks[t].lastAttemptRun);
  }

  /** A transition after which a task ended at some time found it so, or ended it then. */
  lemma EndStep(db: Db, m: Move, t: TaskId, at: Time)
    requires Inv(db) && Can(db, m) && EndedAt(Do(db, m), t, at)
    ensures EndedAt(db, t, at) || (IsActive(db, t) && m.at <= at <= Latest(m))
  {
    hide Inv, CancellationDue, RetryDelay, NextAvailable, LeaseExpiredReason, CancelRows, KeyUnused, ValidName,
         ValidStrategy, ValidPolicy, Blank, Eligible, TerminalAt;
    FreshIds(db);
    Flat(db, m);
    if t in db.tasks {
      LastRun(db, t);
      LastRunShape(db, t);
    }
  }

  lemma {:induction false} EndMoves(db: Db, ms: seq<Move>, t: TaskId, at: Time, lo: Time, hi: Time)
    requires Inv(db) && Enabled(db, ms) && Timely(lo, ms, hi) && EndedAt(DoAll(db, ms), t, at)
    ensures EndedAt(db, t, at) || lo <= at <= hi
    decreases |ms|
  {
    hide Inv, Do, Can, EndedAt;
    if ms != [] {
      MoveInv(db, ms[0]);
      EndMoves(Do(db, ms[0]), ms[1..], t, at, ms[0].at, hi);
      if EndedAt(Do(db, ms[0]), t, at) {
        EndStep(db, ms[0], t, at);
      }
    }
  }

  lemma EndCall(db: Db, call: Call, t: TaskId, at: Time)
    requires Inv(db) && EndedAt(Perform(db, call).db, t, at)
    ensures EndedAt(db, t, at) || Start(call) <= at <= End(call)
  {
    hide Inv, Do, Can, Perform, EndedAt;
    CallReached(db, call);
    EndMoves(db, Perform(db, call).moves, t, at, Start(call), End(call));
  }

  /** The i-th call ended the task, within its own readings, and it has been so ever since. */
  ghost predicate EndingCall(db: Db, calls: seq<Call>, i: nat, t: TaskId, at: Time)
    requires i < |calls|
  {
    && !EndedAt(Replay(db, calls[..i]), t, at) && Start(calls[i]) <= at <= End(calls[i])
    && forall j :: i < j <= |calls| ==> EndedAt(Replay(db, calls[..j]), t, at)
  }

  lemma ReplayLast(db: Db, calls: seq<Call>)
    requires calls != []
    ensures Replay(db, calls) == Perform(Replay(db, calls[..|calls| - 1]), calls[|calls| - 1]).db
  {
    hide Perform;
    var init, last := calls[..|calls| - 1], calls[|calls| - 1];
    assert calls == init + [last];
    ReplayConcat(db, init, [last]);
    var mid := Replay(db, init);
    assert [last][1..] == [];
    assert Replay(Perform(mid, last).db, []) == Perform(mid, last).db;
  }

  lemma {:induction false} EndedByCall(db: Db, calls: seq<Call>, t: TaskId, at: Time)
    requires Inv(db) && EndedAt(Replay(db, calls), t, at) && !EndedAt(db, t, at)
    ensures exists i :: 0 <= i < |calls| && EndingCall(db, calls, i, t, at)
    decreases |calls|
  {
    hide Inv, Perform, EndedAt;
    assert calls != [];
    var init, last := calls[..|calls| - 1], calls[|calls| - 1];
    ReplayLast(db, calls);
    HistoryInv(db, init);
    assert calls[..|calls|] == calls;
    if EndedAt(Replay(db, init), t, at) {
      EndedByCall(db, init, t, at);
      var i :| 0 <= i < |init| && EndingCall(db, init, i, t, at);
      forall j | i < j <= |calls| ensures EndedAt(Replay(db, calls[..j]), t, at) {
        if j < |calls| {
          assert calls[..j] == init[..j];
        }
      }
      assert init[..i] == calls[..i];
      assert EndingCall(db, calls, i, t, at);
    } else {
      EndCall(Replay(db, init), last, t, at);
      assert EndingCall(db, calls, |init|, t, at);
    }
  }

  /**
   * Retention counts from the end: after any history from an empty queue, the time of a finished task
   * lies within the call that finished it for the last time.
   */
  lemma EndIsFromEndingCall(calls: seq<Call>, t: TaskId)
    requires t in Replay(EMPTY, calls).tasks && !IsActive(Replay(EMPTY, calls), t)
    ensures exists i, at ::
      0 <= i < |calls| && EndedAt(Replay(EMPTY, calls), t, at) && EndingCall(EMPTY, calls, i, t, at)
  {
    hide Inv, Perform, TerminalAt;
    EmptyInv();
    HistoryInv(EMPTY, calls);
    EndsOnce(Replay(EMPTY, calls), t);
    EndedByCall(EMPTY, calls, t, TerminalAt(Replay(EMPTY, calls), t).value);
  }

  // ---- Cleanup, by the time of the end ----

  lemma ExpendableIff(db: Db, cutoff: Time, skip: set<TaskId>, t: TaskId)
    requires Inv(db)
    ensures t in Expendable(db, cutoff, skip) <==> t !in skip && exists at :: EndedAt(db, t, at) && at <= cutoff
    ensures t in Expendable(db, cutoff, skip) ==> EndedAt(db, t, Expendable(db, cutoff, skip)[t])
  {
    hide Inv;
    if t in db.tasks && !IsActive(db, t) {
      EndsOnce(db, t);
    }
  }

  /** What a cleanup removes had ended a retention period before, and everything of it goes. */
  lemma RemovesOnlyOld(db: Db, ttl: Time, limit: nat, skip: set<TaskId>, c: Clock, k: nat, t: TaskId)
    requires Inv(db) && ttl >= 0.0 && limit >= 1 && t in db.tasks
    ensures var p := CleanupPlan(db, ttl, limit, skip, c, k);
      && p.Commit?
      && (Gone(p.db, t) || SameRows(db, p.db, t))
      && (t !in p.db.tasks ==>
            Gone(p.db, t) && t !in skip && exists at :: EndedAt(db, t, at) && at + ttl <= Reading(c, k))
  {
    hide Inv, Expendable, Page, Gone, SameRows, CleanupPlan, EndedAt;
    var keys := Expendable(db, Reading(c, k) - ttl, skip);
    CleanupExact(db, ttl, limit, skip, c, k);
    if t in Page(keys, limit) {
      assert t in keys;
      ExpendableIff(db, Reading(c, k) - ttl, skip, t);
      var at :| EndedAt(db, t, at) && at <= Reading(c, k) - ttl;
      assert EndedAt(db, t, at) && at + ttl <= Reading(c, k);
    }
    if t !in Page(keys, limit) {
      KeptTask(db, CleanupPlan(db, ttl, limit, skip, c, k).db, t);
    }
  }

  lemma KeptTask(db: Db, db': Db, t: TaskId)
    requires SameRows(db, db', t) && t in db.tasks
    ensures t in db'.tasks
  {
  }

  lemma GoneTask(db: Db, t: TaskId)
    requires Gone(db, t)
    ensures t !in db.tasks
  {
  }

  /** An unlocked task, ended a retention period ago, that stays: the batch was full, and what went ended before it. */
  lemma RemovesOldestFirst(db: Db, ttl: Time, limit: nat, skip: set<TaskId>, c: Clock, k: nat, t: TaskId, at: Time,
                           u: TaskId, end: Time)
    requires Inv(db) && ttl >= 0.0 && limit >= 1 && t !in skip && EndedAt(db, t, at) && at + ttl <= Reading(c, k)
    ensures var p := CleanupPlan(db, ttl, limit, skip, c, k);
      p.Commit? && (t in p.db.tasks ==>
        p.value == limit && (EndedAt(db, u, end) && u !in p.db.tasks ==> end < at || (end == at && u < t)))
  {
    hide Inv, Expendable, Page, Gone, SameRows, CleanupPlan, EndedAt, IsActive;
    var keys := Expendable(db, Reading(c, k) - ttl, skip);
    var ids := Page(keys, limit);
    CleanupExact(db, ttl, limit, skip, c, k);
    var db' := CleanupPlan(db, ttl, limit, skip, c, k).db;
    ExpendableIff(db, Reading(c, k) - ttl, skip, t);
    SameEnd(db, t, at, keys[t]);
    if t in ids {
      GoneTask(db', t);
    } else {
      FullPages(keys, limit, t);
      if EndedAt(db, u, end) && u !in db'.tasks {
        HasTask(db, u, end);
        if u !in ids {
          KeptTask(db, db', u);
        }
        ExpendableIff(db, Reading(c, k) - ttl, skip, u);
        SameEnd(db, u, end, keys[u]);
        assert Precedes(keys, u, t);
      }
    }
  }

  lemma HasTask(db: Db, t: TaskId, at: Time)
    requires EndedAt(db, t, at)
    ensures t in db.tasks && !IsActive(db, t)
  {
  }

  lemma SameEnd(db: Db, t: TaskId, a: Time, b: Time)
    requires EndedAt(db, t, a) && EndedAt(db, t, b)
    ensures a == b
  {
  }

  lemma FullPages(keys: map<nat, Time>, limit: nat, t: nat)
    requires t in keys && t !in Page(keys, limit)
    ensures |Page(keys, limit)| == limit
  {
    PageIsPage(keys, limit);
  }

  // ---- Results and failures as clients see them ----

  /** What a client reads of the task under its own name. */
  function Seen(db: Db, t: TaskId): Decoded
    requires t in db.tasks
  {
    DecodeSnapshot(TaskResult(db, t), db.tasks[t].name)
  }

  /**
   * A completion that takes effect shows its own value at once and for as long as the task is retained,
   * whatever happens; the task ended at the completion's reading.
   */
  lemma ResultPublished(db: Db, r: RunId, value: Json, c: Clock, calls: seq<Call>)
    requires Inv(db) && CompletePlan(db, r, Some(value), c, 0).Commit? && CompletePlan(db, r, Some(value), c, 0).value
    requires Timed(c[|c| - 1], calls)
    ensures r in db.runs && db.runs[r].taskId in db.tasks
    ensures var t, done := db.runs[r].taskId, CompletePlan(db, r, Some(value), c, 0).db;
      && t in done.tasks && EndedAt(done, t, c[0]) && Seen(done, t) == Snap(CompletedSnapshot(value))
      && (t in Replay(done, calls).tasks ==>
            EndedAt(Replay(done, calls), t, c[0]) && Seen(Replay(done, calls), t) == Snap(CompletedSnapshot(value)))
  {
    hide Inv, Perform, LockError, CancellationDue, CancelRows;
    LockHeld(db, r, c[0]);
    var t, done := db.runs[r].taskId, CompletePlan(db, r, Some(value), c, 0).db;
    assert Inv(done) by { CompletedInv(db, r, value, c); }
    ClosedTasksAbsorbing(done, c[|c| - 1], calls, t);
  }

  /**
   * The value that a task's code returns is the one clients read, from the counted completion on: whatever
   * happens later, for as long as the task is retained.
   */
  lemma BodyValuePublished(db: Db, r: RunId, s: Executor.Surroundings, value: Json, calls: seq<Call>)
    requires Inv(db) && s.body == Executor.Output(value) && Timed(s.deciding.clock[|s.deciding.clock| - 1], calls)
    requires Executor.BodyEnd(db, r, s).outcome == Some(Metrics.CompletedExecution)
    ensures var before, k := Replay(db, s.deciding.others), Executor.BodyEnd(db, r, s);
      && r in before.runs && before.runs[r].taskId in k.db.tasks
      && EndedAt(k.db, before.runs[r].taskId, s.deciding.clock[0])
      && var t := before.runs[r].taskId;
         t in Replay(k.db, calls).tasks ==> Seen(Replay(k.db, calls), t) == Snap(CompletedSnapshot(value))
  {
    hide Inv, Perform, CompletePlan, EndedAt, Seen;
    HistoryInv(db, s.deciding.others);
    ResultPublished(Replay(db, s.deciding.others), r, value, s.deciding.clock, calls);
  }

  lemma CompletedInv(db: Db, r: RunId, value: Json, c: Clock)
    requires Inv(db) && CompletePlan(db, r, Some(value), c, 0).Commit?
    ensures Inv(CompletePlan(db, r, Some(value), c, 0).db)
  {
    hide Inv, CompletePlan;
    CallInv(db, Call(Complete(r, Some(value)), c));
  }

  /** A failure that is not retried, and not cancelled, shows its own reason; the task ended at its reading. */
  lemma FailureShown(db: Db, r: RunId, reason: Json, c: Clock)
    requires Inv(db) && FailPlan(db, r, Some(reason), false, c, 0).Commit?
    ensures r in db.runs && db.runs[r].taskId in db.tasks
    ensures var t, db' := db.runs[r].taskId, FailPlan(db, r, Some(reason), false, c, 0).db;
      && t in db'.tasks
      && (db'.tasks[t].state == Failed ==> EndedAt(db', t, c[0]) && Seen(db', t) == Snap(FailedSnapshot(reason)))
  {
    hide Inv, LockError, CancellationDue, CancelRuns, RetryDelay, NextAvailable, LeaseExpiredReason;
    LockHeld(db, r, c[0]);
  }

  /**
   * Cancellation takes effect exactly on active tasks. It then ends the task at its reading, ends and
   * releases the active runs of it, and changes nothing else.
   */
  lemma CancelShown(db: Db, t: TaskId, c: Clock)
    requires Inv(db) && t in db.tasks
    ensures var p, task := CancelPlan(db, t, c, 0), db.tasks[t];
      && p.Commit? && (p.value <==> IsActive(db, t)) && (!p.value ==> p.db == db)
      && (p.value ==>
            && t in p.db.tasks && EndedAt(p.db, t, c[0]) && Seen(p.db, t) == Snap(CancelledSnapshot)
            && p.db == db.(tasks := db.tasks[t := task.(state := Cancelled, cancelledAt := Some(c[0]))],
                           runs := map r | r in db.runs ::
                             if db.runs[r].taskId == t && Active(db.runs[r].state)
                             then db.runs[r].(state := Cancelled, claimedBy := None, claimExpiresAt := None)
                             else db.runs[r]))
  {
    hide Inv;
    LastRunShape(db, t);
  }

  /** What a client sees of a retained task is the state of its row. */
  lemma SeenIsState(db: Db, t: TaskId)
    requires Inv(db) && t in db.tasks
    ensures Seen(db, t).Snap?
    ensures var state, seen := db.tasks[t].state, Seen(db, t).snapshot;
      && (seen == PendingSnapshot <==> state == Pending) && (seen == RunningSnapshot <==> state == Running)
      && (seen == SleepingSnapshot <==> state == Sleeping) && (seen == CancelledSnapshot <==> state == Cancelled)
      && (seen.CompletedSnapshot? <==> state == Completed) && (seen.FailedSnapshot? <==> state == Failed)
  {
    hide Inv;
    LastRunShape(db, t);
  }
}
