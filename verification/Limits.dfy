/** Cancellation limits in rows and numbers: when a task is late, and that nothing moves its limit. */
module Limits {
  import opened Basics
  import opened Policies
  import opened Selection
  import opened Storage
  import opened Invariant
  import opened Plans
  import opened Soundness
  import opened Sweeps
  import opened History
  import opened Supervision
  import opened Claiming

  /** Never started, and `maxDelay` after its submission has come. */
  predicate PastDelay(task: Task, at: Time) {
    && task.firstStartedAt == None
    && task.cancellation.Some? && task.cancellation.value.maxDelay.Some?
    && task.enqueueAt + task.cancellation.value.maxDelay.value as real <= at
  }

  /** Started, and `maxDuration` after its first claim has come. */
  predicate PastDuration(task: Task, at: Time) {
    && task.firstStartedAt.Some?
    && task.cancellation.Some? && task.cancellation.value.maxDuration.Some?
    && task.firstStartedAt.value + task.cancellation.value.maxDuration.value as real <= at
  }

  predicate PastLimit(task: Task, at: Time) {
    PastDelay(task, at) || PastDuration(task, at)
  }

  lemma DueIff(task: Task, at: Time)
    ensures TaskDue(task, at) <==> PastLimit(task, at)
  {
  }

  // ---- The limit of a task is fixed ----

  /** Nothing that a limit depends on differs. */
  predicate SameLimits(a: Task, b: Task) {
    a.enqueueAt == b.enqueueAt && a.firstStartedAt == b.firstStartedAt && a.cancellation == b.cancellation
  }

  /** Only a claim starts a task, at its own time, and only one that has not started. */
  lemma StartStep(db: Db, m: Move, t: TaskId)
    requires Inv(db) && Can(db, m) && t in db.tasks && t in Do(db, m).tasks
    ensures var task, task' := db.tasks[t], Do(db, m).tasks[t];
      || SameLimits(task, task')
      || (&& task.firstStartedAt == None && m.ClaimRun? && db.runs[m.run].taskId == t
          && SameLimits(task.(firstStartedAt := Some(m.at)), task'))
    ensures m.ClaimRun? && db.runs[m.run].taskId == t ==> Do(db, m).tasks[t].firstStartedAt.Some?
  {
    hide Inv, CancellationDue, RetryDelay, NextAvailable, LeaseExpiredReason;
    FreshIds(db);
    Flat(db, m);
  }

  lemma {:induction false} StartMoves(db: Db, ms: seq<Move>, t: TaskId)
    requires Inv(db) && Enabled(db, ms) && t in db.tasks && t in DoAll(db, ms).tasks && db.tasks[t].firstStartedAt.Some?
    ensures SameLimits(db.tasks[t], DoAll(db, ms).tasks[t])
    decreases |ms|
  {
    hide Inv, Do, Can;
    if ms != [] {
      MoveInv(db, ms[0]);
      if t in Do(db, ms[0]).tasks {
        StartStep(db, ms[0], t);
        StartMoves(Do(db, ms[0]), ms[1..], t);
      } else {
        LastRun(db, t);
        NextIdGrows(db, ms[0]);
        GoneForever(Do(db, ms[0]), ms[1..], t);
      }
    }
  }

  /**
   * The deadline of a started task is its first claim plus `maxDuration`, in every history: retries,
   * sleeps and later claims do not move it.
   */
  lemma DeadlineFixed(db: Db, now: Time, calls: seq<Call>, t: TaskId, at: Time)
    requires Inv(db) && Timed(now, calls) && t in db.tasks && t in Replay(db, calls).tasks
    requires db.tasks[t].firstStartedAt.Some?
    ensures Replay(db, calls).tasks[t].firstStartedAt == db.tasks[t].firstStartedAt
    ensures TaskDue(Replay(db, calls).tasks[t], at) <==>
      && db.tasks[t].cancellation.Some? && db.tasks[t].cancellation.value.maxDuration.Some?
      && db.tasks[t].firstStartedAt.value + db.tasks[t].cancellation.value.maxDuration.value as real <= at
  {
    hide Inv, Do, Can, Perform, TaskDue;
    HistoryReached(db, now, calls);
    StartMoves(db, Trace(db, calls), t);
    DueIff(Replay(db, calls).tasks[t], at);
  }

  /** Maintenance starts nothing. */
  lemma {:induction false} ClearingLimits(db: Db, ms: seq<Move>, t: TaskId)
    requires Inv(db) && Enabled(db, ms) && AllClearing(ms) && t in db.tasks
    ensures t in DoAll(db, ms).tasks && SameLimits(db.tasks[t], DoAll(db, ms).tasks[t])
    decreases |ms|
  {
    hide Inv, Do, Can;
    if ms != [] {
      assert Clearing(ms[0]);
      ClearingStep(db, ms[0], t);
      MoveInv(db, ms[0]);
      ClearingLimits(Do(db, ms[0]), ms[1..], t);
    }
  }

  lemma ClearingStep(db: Db, m: Move, t: TaskId)
    requires Inv(db) && Can(db, m) && Clearing(m) && t in db.tasks
    ensures t in Do(db, m).tasks && SameLimits(db.tasks[t], Do(db, m).tasks[t])
  {
    hide Inv, CancellationDue, RetryDelay, NextAvailable, LeaseExpiredReason;
    FreshIds(db);
    Flat(db, m);
  }

  lemma MaintainedLimits(db: Db, call: ClaimCall, c: Clock, t: TaskId)
    requires Inv(db) && ValidClaim(call) && MaintenancePlan(db, call, c, 0).Commit? && t in db.tasks
    ensures var mid := MaintenancePlan(db, call, c, 0).db; t in mid.tasks && SameLimits(db.tasks[t], mid.tasks[t])
  {
    hide Inv, MaintenancePlan, Blank;
    MaintenanceSound(db, call, c, 0);
    MaintenanceClearing(db, call, c, 0);
    ClearingLimits(db, MaintenancePlan(db, call, c, 0).moves, t);
  }

  /** Maintenance adds no task. */
  lemma {:induction false} ClearingTasks(db: Db, ms: seq<Move>, t: TaskId)
    requires Inv(db) && Enabled(db, ms) && AllClearing(ms) && t in DoAll(db, ms).tasks
    ensures t in db.tasks
    decreases |ms|
  {
    hide Inv, Do, Can;
    if ms != [] {
      assert Clearing(ms[0]);
      MoveInv(db, ms[0]);
      ClearingTasks(Do(db, ms[0]), ms[1..], t);
      ClearingAddsNone(db, ms[0], t);
    }
  }

  lemma ClearingAddsNone(db: Db, m: Move, t: TaskId)
    requires Inv(db) && Can(db, m) && Clearing(m) && t in Do(db, m).tasks
    ensures t in db.tasks
  {
    hide Inv, CancellationDue, RetryDelay, NextAvailable, LeaseExpiredReason;
    Flat(db, m);
  }

  // ---- Claims ----

  /** A row that a claim may hand out, column by column. */
  predicate CanStart(db: Db, names: seq<Text>, at: Time, r: RunId) {
    && r in db.runs && db.runs[r].taskId in db.tasks
    && var run, task := db.runs[r], db.tasks[db.runs[r].taskId];
       && (run.state == Pending || run.state == Sleeping) && (task.state == Pending || task.state == Sleeping)
       && task.lastAttemptRun == r && run.availableAt <= at && task.name in names && !PastLimit(task, at)
  }

  lemma ClaimableIff(db: Db, names: seq<Text>, at: Time, skip: set<RunId>)
    ensures forall r :: r in Claimable(db, names, at, skip) <==> r !in skip && CanStart(db, names, at, r)
    ensures forall r :: r in Claimable(db, names, at, skip) ==>
      Claimable(db, names, at, skip)[r] == db.runs[r].availableAt
  {
  }

  /**
   * No claim hands out a run of a late task, and the claim that hands out a task for the first time is
   * what its duration counts from.
   */
  lemma ClaimedInTime(db: Db, call: ClaimCall, c: Clock, i: nat)
    requires Inv(db) && ClaimPlan(db, call, c, 0).Commit? && i < |ClaimPlan(db, call, c, 0).value|
    ensures ValidClaim(call)
    ensures var p, at := ClaimPlan(db, call, c, 0), Reading(c, ClaimStart(call, 0));
      var t := p.value[i].task;
      && t in db.tasks && !PastDelay(db.tasks[t], at) && !PastDuration(db.tasks[t], at)
      && t in p.db.tasks
      && p.db.tasks[t].firstStartedAt
         == (if db.tasks[t].firstStartedAt.Some? then db.tasks[t].firstStartedAt else Some(at))
  {
    hide Inv, ClaimPlan, MaintenancePlan, Claimable, IsPage, ValidClaim, Touched, CancellationDue, TaskDue;
    ClaimRefines(db, call, c, 0);
    var p, at, mid := ClaimPlan(db, call, c, 0), Reading(c, ClaimStart(call, 0)), MaintenancePlan(db, call, c, 0).db;
    var r := Runs(p.value)[i];
    assert r in Runs(p.value);
    EligibleInTime(mid, r, at);
    assert Describes(mid, p.value[i]);
    MaintenanceSound(db, call, c, 0);
    MaintenanceClearing(db, call, c, 0);
    ClearingTasks(db, MaintenancePlan(db, call, c, 0).moves, p.value[i].task);
    MaintainedLimits(db, call, c, p.value[i].task);
  }

  lemma EligibleInTime(db: Db, r: RunId, at: Time)
    requires Eligible(db, r, at)
    ensures !PastLimit(db.tasks[db.runs[r].taskId], at)
  {
    DueIff(db.tasks[db.runs[r].taskId], at);
  }

  // ---- Deadline sweeps ----

  lemma {:induction false} CancelEachOthers(db: Db, ids: seq<TaskId>, c: Clock, k: nat, t: TaskId)
    requires Inv(db) && t in db.tasks && t !in ids && CancelEach(db, ids, c, k).Commit?
    ensures t in CancelEach(db, ids, c, k).db.tasks && CancelEach(db, ids, c, k).db.tasks[t] == db.tasks[t]
    decreases |ids|
  {
    hide Inv, Do, TaskDue;
    if ids != [] {
      var first := CancelPlan(db, ids[0], c, k);
      if first.moves != [] {
        CancelShrinks(db, ids[0], Reading(c, k), 0.0);
      }
      CancelEachOthers(first.db, ids[1..], c, k + 1, t);
    }
  }

  /** A task that a deadline sweep touches had passed its own limit when the sweep began. */
  lemma SweepCancelsOnlyLate(db: Db, limit: int, skip: set<RunId>, c: Clock, k: nat, t: TaskId)
    requires Inv(db) && CancelSweepPlan(db, limit, skip, c, k).Commit? && t in db.tasks
    ensures var db' := CancelSweepPlan(db, limit, skip, c, k).db;
      || (t in db'.tasks && db'.tasks[t] == db.tasks[t])
      || PastDelay(db.tasks[t], Reading(c, k))
      || PastDuration(db.tasks[t], Reading(c, k))
  {
    hide Inv, Page, CancelEach, TaskDue;
    var keys := DueTasks(db, Reading(c, k), skip);
    var ids := Page(keys, limit);
    if t in ids {
      assert t in keys;
      DueIff(db.tasks[t], Reading(c, k));
    } else {
      CancelEachOthers(db, ids, c, k + 1, t);
    }
  }

  /** A late task that an unlocked sweep leaves comes after every late one it cancels, by task id. */
  lemma CancelsInOrder(db: Db, limit: nat, c: Clock, k: nat, t: TaskId, u: TaskId)
    requires Inv(db) && limit > 0 && t in AllDue(db, Reading(c, k)) && u in AllDue(db, Reading(c, k))
    ensures var p := CancelSweepPlan(db, limit, {}, c, k);
      p.Commit? && (t !in AllDue(p.db, Reading(c, k)) && u in AllDue(p.db, Reading(c, k)) ==> t < u)
  {
    hide Inv, Page, CancelEach, TaskDue, IsPage, AllDue;
    var keys, at := DueTasks(db, Reading(c, k), {}), Reading(c, k);
    CancelSweepExact(db, limit, {}, c, k);
    JoinLosesNothing(db, at);
    PageIsPage(keys, limit);
    if t in Page(keys, limit) && u !in Page(keys, limit) {
      PageOrder(keys, limit, t, u);
    }
  }

  /** With nothing locked and a sufficient limit, no active task is left past its limit. */
  lemma SweepLeavesNoneLate(db: Db, limit: nat, c: Clock, k: nat, t: TaskId)
    requires Inv(db) && limit > 0 && limit >= |AllDue(db, Reading(c, k))|
    ensures var p := CancelSweepPlan(db, limit, {}, c, k);
      p.Commit? && (t in p.db.tasks && Active(p.db.tasks[t].state) ==>
        !PastDelay(p.db.tasks[t], Reading(c, k)) && !PastDuration(p.db.tasks[t], Reading(c, k)))
  {
    hide Inv, Page, CancelEach, TaskDue;
    var keys, at := DueTasks(db, Reading(c, k), {}), Reading(c, k);
    var ids := Page(keys, limit);
    CancelSweepExact(db, limit, {}, c, k);
    JoinLosesNothing(db, at);
    assert |keys| == |keys.Keys|;
    WholePage(keys, limit);
    var db' := CancelSweepPlan(db, limit, {}, c, k).db;
    assert AllDue(db', at) == {};
    if t in db'.tasks {
      DueIff(db'.tasks[t], at);
      assert Active(db'.tasks[t].state) && TaskDue(db'.tasks[t], at) ==> t in AllDue(db', at);
    }
  }

  /** A page that is not full holds every candidate. */
  lemma WholePage(keys: map<nat, Time>, limit: nat)
    requires limit >= |keys|
    ensures Elements(Page(keys, limit)) == keys.Keys
  {
  }

  // ---- Completion and suspension against the limits ----

  /** A held run with a valid lease is completed exactly when its task is in time, and cancelled otherwise. */
  lemma CompletesInTime(db: Db, r: RunId, result: Json, c: Clock)
    requires Inv(db) && LockError(db, r, false, c[0]).None?
    ensures var p := CompletePlan(db, r, Some(result), c, 0);
      p.Commit? && (p.value <==> !PastLimit(db.tasks[db.runs[r].taskId], c[0]))
  {
    hide Inv, LockError, CancelRows, TaskDue;
    LockHeld(db, r, c[0]);
    DueIff(db.tasks[db.runs[r].taskId], c[0]);
  }

  lemma LockHeld(db: Db, r: RunId, at: Time)
    requires LockError(db, r, false, at).None?
    ensures Held(db, r)
  {
  }

  /** It is suspended exactly when the wake time lies ahead and before the limit; ready when it has passed. */
  lemma SuspendsInTime(db: Db, r: RunId, wake: Time, c: Clock)
    requires Inv(db) && LockError(db, r, false, c[0]).None?
    ensures var p, task := SchedulePlan(db, r, wake, c, 0), db.tasks[db.runs[r].taskId];
      && p.Commit?
      && (p.value == CancelledInstead <==> PastLimit(task, c[0]) || PastLimit(task, wake))
      && (p.value == Ready <==> !PastLimit(task, c[0]) && !PastLimit(task, wake) && wake <= c[0])
  {
    hide Inv, LockError, CancelRows, TaskDue;
    LockHeld(db, r, c[0]);
    DueIff(db.tasks[db.runs[r].taskId], c[0]);
    DueIff(db.tasks[db.runs[r].taskId], wake);
  }
}
