/** The rows that submissions, suspensions, completions and manual retries leave, and what a worker is handed. */
module Records {
  import opened Basics
  import opened Policies
  import opened Selection
  import opened Storage
  import opened Invariant
  import opened Plans
  import opened Soundness
  import opened History
  import opened Supervision
  import opened Claiming
  import opened Idempotency
  import opened Limits
  import opened Retries

  // ---- Submission ----

  /** A first submission adds one pending task and its first attempt, available from its own reading on. */
  lemma SpawnRows(db: Db, name: Text, params: Option<Json>, options: SpawnOptions, c: Clock)
    requires SpawnPlan(db, name, params, options, c, 0).Commit? && SpawnPlan(db, name, params, options, c, 0).value.1
    ensures var budget := if options.maxAttempts.Some? then options.maxAttempts.value else 5;
      var task := Task(name, if params.Some? then params.value else JNull,
                       if options.headers == Some(map[]) then None else options.headers,
                       if options.retry.Some? then options.retry.value else Exponential(30.0, 2.0, Some(3600.0)),
                       budget, budget, options.cancellation, c[0], None, Pending, 1, db.nextId + 1, None,
                       options.idempotencyKey);
      var run := Run(db.nextId, 1, Pending, None, None, c[0], None, None, None, None, None);
      SpawnPlan(db, name, params, options, c, 0).db
      == Db(db.tasks[db.nextId := task], db.runs[db.nextId + 1 := run], db.checkpoints, db.nextId + 2)
  {
    hide ValidSpawn, KeyHolders, FreshTask;
  }

  lemma KeptRequest(db: Db, ms: seq<Move>, t: TaskId)
    requires Inv(db) && Enabled(db, ms) && t in db.tasks && t in DoAll(db, ms).tasks
    ensures RequestOf(DoAll(db, ms).tasks[t]) == RequestOf(db.tasks[t])
  {
    hide Inv, Do, Can, RequestOf;
    IdentityMoves(db, ms, t);
  }

  /** A claim hands out the request that its tables store. */
  lemma ClaimedRequest(db: Db, claim: ClaimCall, c: Clock, i: nat)
    requires Inv(db) && ClaimPlan(db, claim, c, 0).Commit? && i < |ClaimPlan(db, claim, c, 0).value|
    ensures var a := ClaimPlan(db, claim, c, 0).value[i];
      a.task in db.tasks && a.name == db.tasks[a.task].name && a.params == db.tasks[a.task].params
      && a.headers == db.tasks[a.task].headers
  {
    hide Inv, ClaimPlan, MaintenancePlan, Claimable, IsPage, ValidClaim, Touched, ClaimedRow, Eligible;
    ClaimRefines(db, claim, c, 0);
    var upkeep, a := MaintenancePlan(db, claim, c, 0), ClaimPlan(db, claim, c, 0).value[i];
    assert Runs(ClaimPlan(db, claim, c, 0).value)[i] == a.run;
    assert Describes(upkeep.db, a);
    MaintenanceSound(db, claim, c, 0);
    MaintenanceClearing(db, claim, c, 0);
    ClearingTasks(db, upkeep.moves, a.task);
    KeptRequest(db, upkeep.moves, a.task);
  }

  /**
   * Whatever happens in between, whoever is handed an attempt of a task gets the name, parameters and
   * headers it was submitted with.
   */
  lemma HandedOutAsSubmitted(db: Db, name: Text, params: Option<Json>, options: SpawnOptions, c: Clock,
                             calls: seq<Call>, claim: ClaimCall, c': Clock, i: nat)
    requires Inv(db) && SpawnPlan(db, name, params, options, c, 0).Commit?
    requires SpawnPlan(db, name, params, options, c, 0).value.1 && Timed(c[|c| - 1], calls)
    requires var db' := Replay(SpawnPlan(db, name, params, options, c, 0).db, calls);
      && ClaimPlan(db', claim, c', 0).Commit? && i < |ClaimPlan(db', claim, c', 0).value|
      && ClaimPlan(db', claim, c', 0).value[i].task == SpawnPlan(db, name, params, options, c, 0).value.0
    ensures var db' := Replay(SpawnPlan(db, name, params, options, c, 0).db, calls);
      var a := ClaimPlan(db', claim, c', 0).value[i];
      && a.name == name && a.params == (if params.Some? then params.value else JNull)
      && a.headers == (if options.headers == Some(map[]) then None else options.headers)
  {
    hide Inv, Do, Can, Perform, SpawnPlan, ClaimPlan;
    var p := SpawnPlan(db, name, params, options, c, 0);
    SpawnSettles(db, name, params, options, c);
    CallInv(db, Call(Spawn(name, params, options), c));
    SpawnStores(db, name, params, options, c);
    var db' := Replay(p.db, calls);
    HistoryReached(p.db, c[|c| - 1], calls);
    HistoryInv(p.db, calls);
    ClaimedRequest(db', claim, c', i);
    IdentityMoves(p.db, Trace(p.db, calls), p.value.0);
  }

  // ---- Suspension and completion ----

  /** A suspension releases the run until exactly the wake time, and changes nothing else. */
  lemma SuspendRows(db: Db, r: RunId, wake: Time, c: Clock)
    requires SchedulePlan(db, r, wake, c, 0).Commit? && SchedulePlan(db, r, wake, c, 0).value == Suspended
    ensures Held(db, r)
    ensures var t := db.runs[r].taskId;
      SchedulePlan(db, r, wake, c, 0).db
      == db.(runs := db.runs[r := db.runs[r].(state := Sleeping, claimedBy := None, claimExpiresAt := None,
                                              availableAt := wake)],
             tasks := db.tasks[t := db.tasks[t].(state := Sleeping)])
  {
    hide LockError, CancellationDue, CancelRows;
    LockHeld(db, r, c[0]);
  }

  /** A completion stores the result and its reading with the run, and changes nothing else. */
  lemma CompleteRows(db: Db, r: RunId, result: Json, c: Clock)
    requires CompletePlan(db, r, Some(result), c, 0).Commit? && CompletePlan(db, r, Some(result), c, 0).value
    ensures Held(db, r)
    ensures var t := db.runs[r].taskId;
      CompletePlan(db, r, Some(result), c, 0).db
      == db.(runs := db.runs[r := db.runs[r].(state := Completed, completedAt := Some(c[0]), result := Some(result),
                                              claimedBy := None, claimExpiresAt := None)],
             tasks := db.tasks[t := db.tasks[t].(state := Completed)])
  {
    hide LockError, CancellationDue, CancelRows;
    LockHeld(db, r, c[0]);
  }

  // ---- Manual retry ----

  /**
   * A manual retry adds one attempt, pending and available from its reading on; the budget grows only when
   * it is used up, and neither the submission time nor the first start moves.
   */
  lemma ReopenRows(db: Db, t: TaskId, c: Clock)
    requires RetryPlan(db, t, c, 0).Commit?
    ensures t in db.tasks && db.tasks[t].state == Failed && !PastLimit(db.tasks[t], c[0])
    ensures t in db.tasks && RetryPlan(db, t, c, 0).value == db.nextId
    ensures var db', task, attempt := RetryPlan(db, t, c, 0).db, db.tasks[t], db.tasks[t].attempts + 1;
      && db.nextId in db'.runs && Fresh(db'.runs[db.nextId], t, attempt, c[0]) && db'.runs[db.nextId].state == Pending
      && db' == db.(runs := db.runs[db.nextId := db'.runs[db.nextId]], nextId := db.nextId + 1,
                    tasks := db.tasks[t := task.(state := Pending, attempts := attempt, cancelledAt := None,
                      lastAttemptRun := db.nextId,
                      maxAttempts := if task.maxAttempts < attempt then attempt else task.maxAttempts)])
  {
    hide CancellationDue;
    DueIff(db.tasks[t], c[0]);
  }

  /** Exactly failed tasks in time, with an attempt number left, can be retried. */
  lemma ReopensIff(db: Db, t: TaskId, c: Clock)
    ensures RetryPlan(db, t, c, 0).Commit? <==>
      t in db.tasks && db.tasks[t].state == Failed && !PastLimit(db.tasks[t], c[0]) && db.tasks[t].attempts < INT_MAX
  {
    hide CancellationDue;
    if t in db.tasks {
      DueIff(db.tasks[t], c[0]);
    }
  }

  /** A pending attempt of an undue task can be claimed from the very reading at which it was added. */
  lemma ReopenedEligible(db: Db, t: TaskId, c: Clock)
    requires Inv(db) && RetryPlan(db, t, c, 0).Commit?
    ensures CanStart(RetryPlan(db, t, c, 0).db, [db.tasks[t].name], c[0], db.nextId)
  {
    hide Inv, CancellationDue, Do;
    ReopenRows(db, t, c);
    DueIff(db.tasks[t], c[0]);
  }
}
