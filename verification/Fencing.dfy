/** Finished runs and tasks are final, and an expired lease is never revived. */
module Fencing {
  import opened Basics
  import opened Policies
  import opened Storage
  import opened Invariant
  import opened Plans
  import opened History

  /** The calls a worker makes in the name of one run. */
  predicate AddressedTo(op: Op, r: RunId) {
    match op
    case Supervise(run, _) => run == r
    case Complete(run, _) => run == r
    case Schedule(run, _) => run == r
    case Fail(run, _) => run == r
    case Reap(run) => run == r
    case Checkpoint(_, _, _, run) => run == r
    case LoadCheckpoints(_, run) => run == r
    case _ => false
  }

  predicate Finished(db: Db, r: RunId) {
    r in db.runs ==> !Active(db.runs[r].state)
  }

  /** Nothing done in the name of a finished (or removed) run changes any row. */
  lemma FinishedRunFenced(db: Db, call: Call, r: RunId)
    requires Finished(db, r) && AddressedTo(call.op, r)
    ensures Perform(db, call) == Change(db, [])
  {
    hide TaskDue, ValidName, LeaseExpiredReason;
  }

  /** A finished run's row is final, until the row is removed for good. */
  lemma FinishedRunStep(db: Db, m: Move, r: RunId)
    requires Inv(db) && Can(db, m) && r in db.runs && !Active(db.runs[r].state)
    ensures r in Do(db, m).runs ==> Do(db, m).runs[r] == db.runs[r]
  {
    hide Inv, SameRows, NextAvailable, RetryDelay, CancellationDue;
    FreshIds(db);
    Flat(db, m);
  }

  /** A run id below the counter that no row carries stays unused. */
  lemma RunGoneStep(db: Db, m: Move, r: RunId)
    requires Inv(db) && Can(db, m) && r !in db.runs && r < db.nextId
    ensures r !in Do(db, m).runs && r < Do(db, m).nextId
  {
    hide Inv, NextAvailable, RetryDelay, CancellationDue;
    Flat(db, m);
  }

  lemma {:induction false} RunGoneForever(db: Db, ms: seq<Move>, r: RunId)
    requires Inv(db) && Enabled(db, ms) && r !in db.runs && r < db.nextId
    ensures r !in DoAll(db, ms).runs
    decreases |ms|
  {
    hide Inv, Do, Can;
    if ms != [] {
      RunGoneStep(db, ms[0], r);
      MoveInv(db, ms[0]);
      RunGoneForever(Do(db, ms[0]), ms[1..], r);
    }
  }

  lemma {:induction false} FinishedRunMoves(db: Db, ms: seq<Move>, r: RunId)
    requires Inv(db) && Enabled(db, ms) && r in db.runs && !Active(db.runs[r].state)
    ensures r in DoAll(db, ms).runs ==> DoAll(db, ms).runs[r] == db.runs[r]
    decreases |ms|
  {
    hide Inv, Do, Can;
    if ms != [] {
      var db' := Do(db, ms[0]);
      MoveInv(db, ms[0]);
      FinishedRunStep(db, ms[0], r);
      if r in db'.runs {
        FinishedRunMoves(db', ms[1..], r);
      } else {
        FreshIds(db);
        NextIdGrows(db, ms[0]);
        RunGoneForever(db', ms[1..], r);
      }
    }
  }

  /**
   * Permanent fencing: once a run is completed, failed or cancelled, its row never changes again, and
   * after any further history no call addressed to it changes any row of the queue.
   */
  lemma PermanentFencing(db: Db, now: Time, calls: seq<Call>, r: RunId, call: Call)
    requires Inv(db) && Timed(now, calls) && r in db.runs && !Active(db.runs[r].state)
    requires AddressedTo(call.op, r)
    ensures r in Replay(db, calls).runs ==> Replay(db, calls).runs[r] == db.runs[r]
    ensures Perform(Replay(db, calls), call) == Change(Replay(db, calls), [])
  {
    hide Inv, Do, Can, Perform, AddressedTo;
    HistoryReached(db, now, calls);
    FinishedRunMoves(db, Trace(db, calls), r);
    FinishedRunFenced(Replay(db, calls), call, r);
  }

  /** The ways out of an expired lease: reaping, with the reserved reason, or cancellation. */
  predicate LeaseDead(before: Run, after: Run) {
    || after == before
    || after == CancelledRun(before)
    || (after.failedAt.Some? && after == FailedRun(before, LeaseExpiredReason(before), after.failedAt.value))
  }

  lemma ExpiredStep(db: Db, m: Move, r: RunId, now: Time)
    requires Inv(db) && Can(db, m) && now <= m.at && r in db.runs && Expired(db.runs[r], now)
    ensures r in Do(db, m).runs && LeaseDead(db.runs[r], Do(db, m).runs[r])
  {
    hide Inv, NextAvailable, RetryDelay, CancellationDue, LeaseExpiredReason;
    FreshIds(db);
    Flat(db, m);
    assert m.RemoveTask? ==> db.runs[r].taskId != m.task by { RunningTaskActive(db, r); }
  }

  lemma RunningTaskActive(db: Db, r: RunId)
    requires Inv(db) && r in db.runs && db.runs[r].state == Running
    ensures db.runs[r].taskId in db.tasks && db.tasks[db.runs[r].taskId].state == Running
    ensures db.tasks[db.runs[r].taskId].lastAttemptRun == r
  {
    assert RunOk(db, r);
    LastRun(db, db.runs[r].taskId);
  }

  lemma {:induction false} ExpiredMoves(db: Db, ms: seq<Move>, r: RunId, now: Time, hi: Time)
    requires Inv(db) && Enabled(db, ms) && Timely(now, ms, hi) && r in db.runs && Expired(db.runs[r], now)
    ensures r in DoAll(db, ms).runs ==> LeaseDead(db.runs[r], DoAll(db, ms).runs[r])
    decreases |ms|
  {
    hide Inv, Do, Can, LeaseExpiredReason;
    if ms != [] {
      var db' := Do(db, ms[0]);
      MoveInv(db, ms[0]);
      ExpiredStep(db, ms[0], r, now);
      if db'.runs[r] == db.runs[r] {
        ExpiredMoves(db', ms[1..], r, ms[0].at, hi);
      } else {
        FinishedRunMoves(db', ms[1..], r);
      }
    }
  }

  /**
   * An expired lease is never revived: in every history a run whose lease has run out stays as it is,
   * or is failed by the reaper with the reserved reason, or is cancelled (and may then be removed).
   */
  lemma ExpiredLeaseNeverRevived(db: Db, now: Time, calls: seq<Call>, r: RunId)
    requires Inv(db) && Timed(now, calls) && r in db.runs && Expired(db.runs[r], now)
    ensures r in Replay(db, calls).runs ==> LeaseDead(db.runs[r], Replay(db, calls).runs[r])
  {
    hide Inv, Do, Can, Perform, LeaseDead;
    HistoryReached(db, now, calls);
    ExpiredMoves(db, Trace(db, calls), r, now, Now(now, calls));
  }

  /** Completed and cancelled tasks are final; a failed task can be opened again by a manual retry. */
  lemma ClosedTaskStep(db: Db, m: Move, t: TaskId)
    requires Inv(db) && Can(db, m) && t in db.tasks
    requires (db.tasks[t].state == Completed || db.tasks[t].state == Cancelled)
    ensures t in Do(db, m).tasks ==> SameRows(db, Do(db, m), t)
  {
    hide Inv, Do, SameRows, NextAvailable, RetryDelay, CancellationDue;
    if t != Target(db, m) {
      Frame(db, m, t);
    } else {
      assert m.RemoveTask? by { FreshIds(db); }
      RemovedGone(db, t, m.at);
    }
  }

  lemma RemovedGone(db: Db, t: TaskId, at: Time)
    requires Can(db, RemoveTask(t, at))
    ensures t !in Do(db, RemoveTask(t, at)).tasks
  {
  }

  lemma {:induction false} ClosedTaskMoves(db: Db, ms: seq<Move>, t: TaskId)
    requires Inv(db) && Enabled(db, ms) && t in db.tasks
    requires (db.tasks[t].state == Completed || db.tasks[t].state == Cancelled)
    ensures t in DoAll(db, ms).tasks ==> SameRows(db, DoAll(db, ms), t)
    decreases |ms|
  {
    hide Inv, Do, Can;
    if ms != [] {
      var db' := Do(db, ms[0]);
      MoveInv(db, ms[0]);
      ClosedTaskStep(db, ms[0], t);
      if t in db'.tasks {
        ClosedTaskMoves(db', ms[1..], t);
        if t in DoAll(db, ms).tasks {
          SameRowsTrans(db, db', DoAll(db, ms), t);
        }
      } else {
        LastRun(db, t);
        NextIdGrows(db, ms[0]);
        GoneForever(db', ms[1..], t);
      }
    }
  }

  lemma ClosedTasksAbsorbing(db: Db, now: Time, calls: seq<Call>, t: TaskId)
    requires Inv(db) && Timed(now, calls) && t in db.tasks
    requires (db.tasks[t].state == Completed || db.tasks[t].state == Cancelled)
    ensures t in Replay(db, calls).tasks ==> SameRows(db, Replay(db, calls), t)
  {
    hide Inv, Do, Can, Perform, SameRows;
    HistoryReached(db, now, calls);
    ClosedTaskMoves(db, Trace(db, calls), t);
  }

  // ---- Result snapshots ----

  datatype Snapshot =
    | PendingSnapshot | RunningSnapshot | SleepingSnapshot | CancelledSnapshot
    | CompletedSnapshot(result: Json) | FailedSnapshot(failure: Json)

  datatype SnapshotError = NameMismatch(actual: Text) | MissingResult | MissingFailure

  datatype Decoded = NoTask | Snap(snapshot: Snapshot) | Broken(error: SnapshotError)

  /** The client's decoding of a result row read for a task of the given name. */
  function DecodeSnapshot(row: Option<ResultRow>, name: Text): Decoded {
    if row.None? then NoTask
    else if row.value.name != name then Broken(NameMismatch(row.value.name))
    else
      match row.value.state
      case Pending => Snap(PendingSnapshot)
      case Running => Snap(RunningSnapshot)
      case Sleeping => Snap(SleepingSnapshot)
      case Completed =>
        if row.value.result.Some? then Snap(CompletedSnapshot(row.value.result.value)) else Broken(MissingResult)
      case Failed =>
        if row.value.failureReason.Some? then Snap(FailedSnapshot(row.value.failureReason.value))
        else Broken(MissingFailure)
      case Cancelled => Snap(CancelledSnapshot)
  }

  /** After every history the missing-payload arms of the decoder are unreachable. */
  lemma PayloadsPresent(db: Db, calls: seq<Call>, t: TaskId, name: Text)
    requires Inv(db)
    ensures var decoded := DecodeSnapshot(TaskResult(Replay(db, calls), t), name);
      && (decoded.NoTask? <==> t !in Replay(db, calls).tasks)
      && (decoded.Broken? <==> t in Replay(db, calls).tasks && Replay(db, calls).tasks[t].name != name)
      && (decoded.Broken? ==> decoded.error.NameMismatch?)
  {
    hide Inv, Perform;
    HistoryInv(db, calls);
    if t in Replay(db, calls).tasks {
      LastRun(Replay(db, calls), t);
    }
  }

  /** A published result never changes: every later snapshot of a completed task shows the same one. */
  lemma ResultStable(db: Db, now: Time, calls: seq<Call>, t: TaskId, name: Text)
    requires Inv(db) && Timed(now, calls) && t in db.tasks && db.tasks[t].state == Completed && db.tasks[t].name == name
    ensures t in Replay(db, calls).tasks ==>
      DecodeSnapshot(TaskResult(Replay(db, calls), t), name) == DecodeSnapshot(TaskResult(db, t), name)
    ensures DecodeSnapshot(TaskResult(db, t), name).Snap?
  {
    hide Inv, Perform;
    ClosedTasksAbsorbing(db, now, calls, t);
    LastRun(db, t);
  }
}
