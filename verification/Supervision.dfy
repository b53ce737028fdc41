/** What supervision reports is what the tables say, and a lost lease is told apart from a failure. */
module Supervision {
  import opened Basics
  import opened Policies
  import opened Selection
  import opened Storage
  import opened Invariant
  import opened Plans
  import opened Sweeps
  import opened History

  /** The report that durable state alone stands for; a pending run has none. */
  function VerdictOf(db: Db, r: RunId): Option<Verdict> {
    if r !in db.runs || db.runs[r].taskId !in db.tasks then None
    else if db.tasks[db.runs[r].taskId].state == Cancelled then Some(RunCancelled)
    else
      match db.runs[r].state
      case Cancelled => Some(RunCancelled)
      case Failed =>
        if db.runs[r].failureReason.Some? && NamedLeaseExpired(db.runs[r].failureReason.value) then Some(LeaseExpired)
        else Some(RunFailed)
      case Completed => Some(RunCompleted)
      case Sleeping => Some(RunSuspended)
      case Running => Some(StillRunning)
      case Pending => None
  }

  lemma ReservedName(run: Run)
    ensures NamedLeaseExpired(LeaseExpiredReason(run))
  {
  }

  /** The reason names the attempt, its holder and the end of its lease. */
  lemma ReasonFields(run: Run)
    ensures LeaseExpiredReason(run).JObject?
    ensures var fields := LeaseExpiredReason(run).fields;
      && "name" in fields && fields["name"] == JString("$LeaseExpired")
      && "attempt" in fields && fields["attempt"] == JNumber(run.attempt as real)
      && ("workerId" in fields <==> run.claimedBy.Some?)
      && (run.claimedBy.Some? ==> fields["workerId"] == JString(run.claimedBy.value))
      && ("claimExpiredAt" in fields <==> run.claimExpiresAt.Some?)
      && (run.claimExpiresAt.Some? ==> fields["claimExpiredAt"] == JNumber(run.claimExpiresAt.value))
  {
    assert "name" != "message" && "name" != "attempt" && "message" != "attempt";
  }

  /** After the end of a held run by the reaper, the verdict is a lost lease, or a cancellation that won. */
  lemma ReapedVerdict(db: Db, m: Move, r: RunId)
    requires Inv(db) && Can(db, m) && Held(db, r) && Ends(db, m, r) && (!m.CancelTask? ==> m.reaped)
    ensures var db' := Do(db, m);
      && db.runs[r].taskId in db'.tasks
      && VerdictOf(db',
                   r) == Some(if db'.tasks[db.runs[r].taskId].state == Cancelled then RunCancelled else LeaseExpired)
  {
    hide Inv, CancellationDue, RetryDelay, NextAvailable, LeaseExpiredReason, NamedLeaseExpired;
    FreshIds(db);
    Flat(db, m);
    ReservedName(db.runs[r]);
  }

  lemma ReapMoveReaped(db: Db, r: RunId, c: Clock, k: nat)
    ensures var p := ReapPlan(db, r, c, k);
      p.Commit? && p.moves != [] && IsFailure(p.moves[0]) ==> p.moves[0].reaped
  {
    hide Do, LeaseExpiredReason, CancellationDue, RetryDelay, NextAvailable;
  }

  /**
   * Supervision and the tables agree: under any non-decreasing readings the reported verdict is the one
   * the tables hold afterwards, so it is "cancelled" exactly when the task or the run ends cancelled.
   */
  lemma VerdictAgrees(db: Db, r: RunId, renew: Option<int>, c: Clock, k: nat)
    requires Inv(db)
    ensures var p := SupervisePlan(db, r, renew, c, k); p.Commit? ==> VerdictOf(p.db, r) == Some(p.value)
  {
    hide Inv, Do, CancellationDue, RetryDelay, NextAvailable, NamedLeaseExpired, LeaseExpiredReason, ReapPlan,
         VerdictOf;
    var p, at := SupervisePlan(db, r, renew, c, k), Reading(c, k);
    if p.Commit? {
      if db.runs[r].state == Running {
        RunningHeld(db, r);
        if TaskDue(TaskOfRun(db, r), at) {
          CancelVerdict(db, r, Reading(c, k + 1));
        } else if Expired(db.runs[r], at) {
          ReapOne(db, r, c, k + 1);
          ReapMoveReaped(db, r, c, k + 1);
          ReapedVerdict(db, p.moves[0], r);
        } else if p.moves != [] {
          RenewVerdict(db, p.moves[0], r);
        } else {
          StableVerdict(db, r, p.value);
        }
      } else {
        StableVerdict(db, r, p.value);
      }
    }
  }

  lemma CancelVerdict(db: Db, r: RunId, at: Time)
    requires Inv(db) && Held(db, r)
    ensures VerdictOf(Do(db, CancelTask(db.runs[r].taskId, at)), r) == Some(RunCancelled)
  {
    hide Inv, CancellationDue;
  }

  lemma RenewVerdict(db: Db, m: Move, r: RunId)
    requires Can(db, m) && m.RenewLease? && m.run == r
    ensures VerdictOf(Do(db, m), r) == Some(StillRunning)
  {
  }

  /** Without a transition the verdict is read off the rows. */
  lemma StableVerdict(db: Db, r: RunId, v: Verdict)
    requires r in db.runs && db.runs[r].taskId in db.tasks
    requires var run, task := db.runs[r], db.tasks[db.runs[r].taskId];
      v == if task.state == Cancelled || run.state == Cancelled then RunCancelled
           else if run.state == Failed then
             (if run.failureReason.Some? && NamedLeaseExpired(run.failureReason.value) then LeaseExpired else RunFailed)
           else if run.state == Completed then RunCompleted
           else if run.state == Sleeping then RunSuspended
           else StillRunning
    requires db.runs[r].state == Pending ==> db.tasks[db.runs[r].taskId].state == Cancelled
    ensures VerdictOf(db, r) == Some(v)
  {
    hide NamedLeaseExpired;
  }

  /** The only ways in which supervision raises; in particular the nested reap never fails its own checks. */
  lemma SuperviseRaises(db: Db, r: RunId, renew: Option<int>, c: Clock, k: nat)
    requires Inv(db)
    ensures SupervisePlan(db, r, renew, c, k).Raise? <==>
      || (renew.Some? && renew.value <= 0)
      || r !in db.runs
      || db.runs[r].state == Pending
      || (&& Expired(db.runs[r], Reading(c, k))
          && !TaskDue(db.tasks[db.runs[r].taskId], Reading(c, k))
          && Stuck(db, r, Reading(c, k + 2)))
  {
    hide Inv, Do, CancellationDue, RetryDelay, NextAvailable, NamedLeaseExpired, LeaseExpiredReason, ReapPlan, Stuck;
    if r in db.runs {
      RunTask(db, r);
      if Expired(db.runs[r], Reading(c, k)) {
        ReapOne(db, r, c, k + 1);
      }
    }
  }

  lemma RunTask(db: Db, r: RunId)
    requires Inv(db) && r in db.runs
    ensures db.runs[r].taskId in db.tasks && RunShape(db.runs[r])
    ensures db.runs[r].state == Running ==> Held(db, r)
    ensures db.runs[r].state == Pending ==> db.tasks[db.runs[r].taskId].state == Pending
  {
    assert RunOk(db, r);
    LastRun(db, db.runs[r].taskId);
  }

  // ---- A lost lease is reported exactly for the runs that were reaped ----

  predicate IsFailure(m: Move) {
    m.FailFinally? || m.FailAndCancel? || m.FailAndRetry?
  }

  /** The runs failed by the reaper along a list of transitions. */
  function Reaped(ms: seq<Move>): set<RunId> {
    set i | 0 <= i < |ms| && IsFailure(ms[i]) && ms[i].reaped :: ms[i].run
  }

  /** A worker's failure reason does not carry the reserved name. */
  predicate Honest(m: Move) {
    IsFailure(m) && !m.reaped ==> !NamedLeaseExpired(m.reason)
  }

  ghost predicate AllHonest(ms: seq<Move>) {
    forall i :: 0 <= i < |ms| ==> Honest(ms[i])
  }

  /** Among the failed runs, the reserved name marks exactly the given ones. */
  ghost predicate Marked(db: Db, reaped: set<RunId>) {
    && (forall r :: r in db.runs && db.runs[r].state == Failed && db.runs[r].failureReason.Some? ==>
          (NamedLeaseExpired(db.runs[r].failureReason.value) <==> r in reaped))
    && (forall r :: r in reaped ==> r < db.nextId)
    && (forall r :: r in reaped && r in db.runs ==> db.runs[r].state == Failed)
  }

  /** A failure marks its own run, by its reason, and no other. */
  lemma MarkedFailure(db: Db, m: Move, reaped: set<RunId>)
    requires Inv(db) && Can(db, m) && Honest(m) && Marked(db, reaped) && IsFailure(m)
    ensures Marked(Do(db, m), if m.reaped then reaped + {m.run} else reaped)
  {
    hide Inv, CancellationDue, RetryDelay, NextAvailable, LeaseExpiredReason, NamedLeaseExpired, CancelRows, Insert,
         Remove, FreshTask, Eligible, ReopenedTask, TerminalAt;
    FreshIds(db);
    Flat(db, m);
    ReservedName(db.runs[m.run]);
  }

  lemma MarkedOther(db: Db, m: Move, reaped: set<RunId>)
    requires Inv(db) && Can(db, m) && Marked(db, reaped) && !IsFailure(m)
    ensures Marked(Do(db, m), reaped)
  {
    hide Inv, CancellationDue, RetryDelay, NextAvailable, LeaseExpiredReason, NamedLeaseExpired;
    FreshIds(db);
    Flat(db, m);
  }

  lemma MarkedStep(db: Db, m: Move, reaped: set<RunId>)
    requires Inv(db) && Can(db, m) && Honest(m) && Marked(db, reaped)
    ensures Marked(Do(db, m), reaped + Reaped([m]))
  {
    hide Inv, Do, Can, Honest, Marked;
    assert Reaped([m]) == if IsFailure(m) && m.reaped then {m.run} else {} by {
      assert forall i :: 0 <= i < |[m]| ==> [m][i] == m;
      assert [m][0] == m;
    }
    if IsFailure(m) {
      MarkedFailure(db, m, reaped);
    } else {
      MarkedOther(db, m, reaped);
    }
    assert reaped + {} == reaped;
  }

  lemma {:induction false} MarkedMoves(db: Db, ms: seq<Move>, reaped: set<RunId>)
    requires Inv(db) && Enabled(db, ms) && AllHonest(ms) && Marked(db, reaped)
    ensures Marked(DoAll(db, ms), reaped + Reaped(ms))
    decreases |ms|
  {
    hide Inv, Do, Can, Marked, Honest;
    if ms == [] {
      assert reaped + Reaped(ms) == reaped;
    } else {
      MarkedStep(db, ms[0], reaped);
      MoveInv(db, ms[0]);
      MarkedMoves(Do(db, ms[0]), ms[1..], reaped + Reaped([ms[0]]));
      ReapedConcat([ms[0]], ms[1..]);
      assert [ms[0]] + ms[1..] == ms;
      assert reaped + Reaped([ms[0]]) + Reaped(ms[1..]) == reaped + Reaped(ms);
    }
  }

  lemma ReapedConcat(a: seq<Move>, b: seq<Move>)
    ensures Reaped(a + b) == Reaped(a) + Reaped(b)
  {
    var ms := a + b;
    forall r | r in Reaped(a) + Reaped(b) ensures r in Reaped(ms) {
      if r in Reaped(a) {
        var i :| 0 <= i < |a| && IsFailure(a[i]) && a[i].reaped && a[i].run == r;
        assert ms[i] == a[i];
      } else {
        var i :| 0 <= i < |b| && IsFailure(b[i]) && b[i].reaped && b[i].run == r;
        assert ms[|a| + i] == b[i];
      }
    }
    forall r | r in Reaped(ms) ensures r in Reaped(a) + Reaped(b) {
      var i :| 0 <= i < |ms| && IsFailure(ms[i]) && ms[i].reaped && ms[i].run == r;
      assert ms[i] == if i < |a| then a[i] else b[i - |a|];
    }
  }

  // What the queue does on its own account: cancelling, reaping and claiming. Only `fail_run` on behalf
  // of a worker commits a failure that is not a reaping, and only `retry_task` reopens a task.

  /** What maintenance does. */
  predicate Clearing(m: Move) {
    m.CancelTask? || (IsFailure(m) && m.reaped)
  }

  predicate Routine(m: Move) {
    Clearing(m) || m.ClaimRun?
  }

  ghost predicate AllClearing(ms: seq<Move>) {
    forall i :: 0 <= i < |ms| ==> Clearing(ms[i])
  }

  ghost predicate AllRoutine(ms: seq<Move>) {
    forall i :: 0 <= i < |ms| ==> Routine(ms[i])
  }

  lemma ClearingRoutine(ms: seq<Move>)
    requires AllClearing(ms)
    ensures AllRoutine(ms)
  {
  }

  lemma RoutineHonest(ms: seq<Move>)
    requires AllRoutine(ms)
    ensures AllHonest(ms)
  {
    hide NamedLeaseExpired;
  }

  lemma ReapClearing(db: Db, r: RunId, c: Clock, k: nat)
    ensures ReapPlan(db, r, c, k).Commit? ==> AllClearing(ReapPlan(db, r, c, k).moves)
  {
    hide Do, LeaseExpiredReason, CancellationDue, RetryDelay, NextAvailable;
  }

  lemma {:induction false} ReapEachClearing(db: Db, ids: seq<RunId>, c: Clock, k: nat)
    ensures ReapEach(db, ids, c, k).Commit? ==> AllClearing(ReapEach(db, ids, c, k).moves)
    decreases |ids|
  {
    hide ReapPlan, Clearing;
    if ids != [] {
      var first := ReapPlan(db, ids[0], c, k);
      ReapClearing(db, ids[0], c, k);
      if first.Commit? {
        ReapEachClearing(first.db, ids[1..], c, k + 3);
      }
    }
  }

  lemma {:induction false} CancelEachClearing(db: Db, ids: seq<TaskId>, c: Clock, k: nat)
    ensures CancelEach(db, ids, c, k).Commit? ==> AllClearing(CancelEach(db, ids, c, k).moves)
    decreases |ids|
  {
    hide Do;
    if ids != [] {
      var first := CancelPlan(db, ids[0], c, k);
      if first.Commit? {
        CancelEachClearing(first.db, ids[1..], c, k + 1);
      }
    }
  }

  lemma ReapSweepClearing(db: Db, limit: int, skip: set<RunId>, c: Clock, k: nat)
    ensures ReapSweepPlan(db, limit, skip, c, k).Commit? ==> AllClearing(ReapSweepPlan(db, limit, skip, c, k).moves)
  {
    hide ReapEach, Page, ExpiredRuns, AllClearing;
    if limit > 0 {
      ReapEachClearing(db, Page(ExpiredRuns(db, Reading(c, k), skip), limit), c, k + 1);
    }
  }

  lemma CancelSweepClearing(db: Db, limit: int, skip: set<RunId>, c: Clock, k: nat)
    ensures CancelSweepPlan(db, limit, skip, c, k).Commit? ==> AllClearing(CancelSweepPlan(db, limit, skip, c, k).moves)
  {
    hide CancelEach, Page, DueTasks, AllClearing;
    if limit > 0 {
      CancelEachClearing(db, Page(DueTasks(db, Reading(c, k), skip), limit), c, k + 1);
    }
  }

  lemma MaintenanceClearing(db: Db, call: ClaimCall, c: Clock, k: nat)
    requires ValidClaim(call)
    ensures MaintenancePlan(db, call, c, k).Commit? ==> AllClearing(MaintenancePlan(db, call, c, k).moves)
  {
    hide ReapSweepPlan, CancelSweepPlan, Blank, Clearing;
    CancelSweepClearing(db, call.quantity, call.skipDue, c, k + 1);
    var cancels := CancelSweepPlan(db, call.quantity, call.skipDue, c, k + 1);
    if cancels.Commit? {
      ReapSweepClearing(cancels.db, call.quantity, call.skipExpired, c, ReapStart(call, k));
    }
  }

  lemma ClaimRoutine(db: Db, call: ClaimCall, c: Clock, k: nat)
    ensures ClaimPlan(db, call, c, k).Commit? ==> AllRoutine(ClaimPlan(db, call, c, k).moves)
  {
    hide MaintenancePlan, ClaimPage, ClaimAll, Blank, Clearing;
    if ClaimPlan(db, call, c, k).Commit? {
      MaintenanceClearing(db, call, c, k);
      ClearingRoutine(MaintenancePlan(db, call, c, k).moves);
    }
  }

  /** Supervision adds renewals to that. */
  lemma SuperviseRoutine(db: Db, r: RunId, renew: Option<int>, c: Clock, k: nat)
    ensures var p := SupervisePlan(db, r, renew, c, k);
      p.Commit? ==> AllRoutine(p.moves) || (|p.moves| == 1 && p.moves[0].RenewLease?)
  {
    hide Do, ReapPlan, CancellationDue, NamedLeaseExpired;
    ReapClearing(db, r, c, k + 1);
  }

  lemma CancelRoutine(t: TaskId, at: Time)
    ensures Routine(CancelTask(t, at))
  {
  }

  /** The calls that consist of routine transitions. */
  lemma RoutineCall(db: Db, call: Call)
    requires call.op.Claim? || call.op.Reap? || call.op.ReapSweep? || call.op.CancelSweep? || call.op.Cancel?
    ensures AllRoutine(Perform(db, call).moves)
  {
    hide Do, ReapPlan, ReapSweepPlan, CancelSweepPlan, ClaimPlan, Clearing;
    var c := call.clock;
    match call.op
    case Claim(claim) => ClaimRoutine(db, claim, c, 0);
    case Reap(r) => ReapClearing(db, r, c, 0);
    case ReapSweep(limit, skip) => ReapSweepClearing(db, limit, skip, c, 0);
    case CancelSweep(limit, skip) => CancelSweepClearing(db, limit, skip, c, 0);
    case Cancel(t) => CancelRoutine(t, Reading(c, 0));
  }

  /** A call that fails a run on behalf of a worker gives a reason without the reserved name. */
  predicate HonestCall(call: Call) {
    call.op.Fail? && call.op.reason.Some? ==> !NamedLeaseExpired(call.op.reason.value)
  }

  lemma FailHonest(db: Db, r: RunId, reason: Option<Json>, c: Clock, k: nat)
    requires reason.Some? ==> !NamedLeaseExpired(reason.value)
    ensures FailPlan(db, r, reason, false, c, k).Commit? ==> AllHonest(FailPlan(db, r, reason, false, c, k).moves)
  {
    hide Do, LeaseExpiredReason, CancellationDue, RetryDelay, NextAvailable, NamedLeaseExpired;
  }

  lemma CallHonest(db: Db, call: Call)
    requires HonestCall(call)
    ensures AllHonest(Perform(db, call).moves)
  {
    hide Do, FailPlan, SupervisePlan, ReapPlan, ReapSweepPlan, CancelSweepPlan, ClaimPlan, Page, TaskDue,
         NamedLeaseExpired, ValidName, ValidSpawn, Resolve, AllRoutine;
    var c := call.clock;
    if call.op.Claim? || call.op.Reap? || call.op.ReapSweep? || call.op.CancelSweep? || call.op.Cancel? {
      RoutineCall(db, call);
      RoutineHonest(Perform(db, call).moves);
    } else if call.op.Supervise? {
      SuperviseRoutine(db, call.op.run, call.op.renew, c, 0);
      var p := SupervisePlan(db, call.op.run, call.op.renew, c, 0);
      if p.Commit? && AllRoutine(p.moves) {
        RoutineHonest(p.moves);
      }
    } else if call.op.Fail? {
      FailHonest(db, call.op.run, call.op.reason, c, 0);
    }
  }

  lemma {:induction false} HistoryHonest(db: Db, calls: seq<Call>)
    requires forall i :: 0 <= i < |calls| ==> HonestCall(calls[i])
    ensures AllHonest(Trace(db, calls))
    decreases |calls|
  {
    hide Perform, Honest, HonestCall;
    if calls != [] {
      CallHonest(db, calls[0]);
      HistoryHonest(Perform(db, calls[0]).db, calls[1..]);
    }
  }

  lemma EmptyMarked()
    ensures Marked(EMPTY, {})
  {
  }

  /**
   * From an empty queue, whatever happens, supervision of a failed run of an uncancelled task reports a
   * lost lease exactly when the reaper failed it, as long as workers never use the reserved name.
   */
  lemma LeaseLostIffReaped(calls: seq<Call>, now: Time, r: RunId)
    requires Timed(now, calls) && forall i :: 0 <= i < |calls| ==> HonestCall(calls[i])
    ensures var db := Replay(EMPTY, calls);
      r in db.runs && db.runs[r].state == Failed && db.runs[r].taskId in db.tasks
      && db.tasks[db.runs[r].taskId].state != Cancelled ==>
        VerdictOf(db, r) == Some(if r in Reaped(Trace(EMPTY, calls)) then LeaseExpired else RunFailed)
  {
    hide Inv, Do, Can, Perform, NamedLeaseExpired, AllHonest, HonestCall;
    EmptyInv();
    EmptyMarked();
    HistoryReached(EMPTY, now, calls);
    HistoryHonest(EMPTY, calls);
    MarkedMoves(EMPTY, Trace(EMPTY, calls), {});
    HistoryInv(EMPTY, calls);
    var db := Replay(EMPTY, calls);
    assert {} + Reaped(Trace(EMPTY, calls)) == Reaped(Trace(EMPTY, calls));
    if r in db.runs {
      RunTask(db, r);
    }
  }
}
