/** What a claim hands out, and that a waiting run is reached after finitely many claims. */
module Claiming {
  import opened Basics
  import opened Policies
  import opened Selection
  import opened Storage
  import opened Invariant
  import opened Plans
  import opened Soundness
  import opened Sweeps
  import opened History

  // ---- Maintenance does not disturb claimable work ----

  /** Every run eligible at `hi` stays eligible, with all rows of its task; only new runs become eligible. */
  ghost predicate KeepsEligible(db: Db, db': Db, hi: Time) {
    && db.nextId <= db'.nextId
    && (forall r: RunId :: Eligible(db, r, hi) ==> Eligible(db', r, hi) && SameRows(db, db', db.runs[r].taskId))
    && (forall r: RunId :: Eligible(db', r, hi) && r < db.nextId ==> Eligible(db, r, hi))
  }

  lemma KeepsRefl(db: Db, hi: Time)
    ensures KeepsEligible(db, db, hi)
  {
  }

  lemma KeepsTrans(a: Db, b: Db, c: Db, hi: Time)
    requires KeepsEligible(a, b, hi) && KeepsEligible(b, c, hi)
    ensures KeepsEligible(a, c, hi)
  {
    hide SameRows, CancellationDue;
    forall r: RunId | Eligible(a, r, hi) ensures Eligible(c, r, hi) && SameRows(a, c, a.runs[r].taskId) {
      SameRun(a, b, r, hi);
      SameRowsTrans(a, b, c, a.runs[r].taskId);
    }
  }

  lemma SameRun(a: Db, b: Db, r: RunId, hi: Time)
    requires Eligible(a, r, hi) && SameRows(a, b, a.runs[r].taskId)
    ensures r in a.runs && r in b.runs && b.runs[r] == a.runs[r]
  {
  }

  /** A maintenance move: a due task is cancelled, or a held run is failed. */
  predicate Upkeep(db: Db, m: Move, hi: Time)
    requires Can(db, m)
  {
    (m.CancelTask? && TaskDue(db.tasks[m.task], hi)) || m.FailFinally? || m.FailAndCancel? || m.FailAndRetry?
  }

  lemma UpkeepElsewhere(db: Db, m: Move, r: RunId, hi: Time)
    requires Inv(db) && Can(db, m) && Upkeep(db, m, hi) && Eligible(db, r, hi)
    ensures db.runs[r].taskId != Target(db, m)
  {
    hide Inv, CancellationDue, RetryDelay, NextAvailable, LeaseExpiredReason;
  }

  /** After a maintenance move its task has no eligible run, except a new one. */
  lemma UpkeepTarget(db: Db, m: Move, r: RunId, hi: Time)
    requires Inv(db) && Can(db, m) && Upkeep(db, m, hi) && r < db.nextId
    requires Eligible(Do(db, m), r, hi)
    ensures Do(db, m).runs[r].taskId != Target(db, m)
  {
    hide Inv, CancellationDue, RetryDelay, NextAvailable, LeaseExpiredReason;
    Flat(db, m);
  }

  lemma SameRowsEligible(db: Db, db': Db, r: RunId, t: TaskId, hi: Time)
    requires SameRows(db, db', t)
    ensures Eligible(db, r, hi) && db.runs[r].taskId == t ==> Eligible(db', r, hi)
    ensures Eligible(db', r, hi) && db'.runs[r].taskId == t ==> Eligible(db, r, hi)
  {
    hide CancellationDue;
  }

  lemma UpkeepKeeps(db: Db, m: Move, hi: Time)
    requires Inv(db) && Can(db, m) && Upkeep(db, m, hi)
    ensures KeepsEligible(db, Do(db, m), hi)
  {
    hide Inv, Do, Can, Upkeep, SameRows, TaskDue;
    var db' := Do(db, m);
    NextIdGrows(db, m);
    forall r: RunId | Eligible(db, r, hi) ensures Eligible(db', r, hi) && SameRows(db, db', db.runs[r].taskId) {
      UpkeepElsewhere(db, m, r, hi);
      Frame(db, m, db.runs[r].taskId);
      SameRowsEligible(db, db', r, db.runs[r].taskId, hi);
    }
    forall r: RunId | Eligible(db', r, hi) && r < db.nextId ensures Eligible(db, r, hi) {
      UpkeepTarget(db, m, r, hi);
      Frame(db, m, db'.runs[r].taskId);
      SameRowsEligible(db, db', r, db'.runs[r].taskId, hi);
    }
  }

  lemma {:induction false} CancelEachKeeps(db: Db, ids: seq<TaskId>, c: Clock, k: nat, hi: Time)
    requires Inv(db) && Distinct(ids)
    requires forall i :: 0 <= i < |ids| ==>
      ids[i] in db.tasks && Active(db.tasks[ids[i]].state) && TaskDue(db.tasks[ids[i]], hi)
    ensures var p := CancelEach(db, ids, c, k); p.Commit? && Inv(p.db) && KeepsEligible(db, p.db, hi)
    decreases |ids|
  {
    hide Inv, Do, TaskDue, KeepsEligible;
    if ids == [] {
      KeepsRefl(db, hi);
    } else {
      var m, rest := CancelTask(ids[0], Reading(c, k)), ids[1..];
      assert Can(db, m);
      var db' := Do(db, m);
      CancelShrinks(db, ids[0], Reading(c, k), 0.0);
      UpkeepKeeps(db, m, hi);
      forall i | 0 <= i < |rest|
        ensures rest[i] in db'.tasks && Active(db'.tasks[rest[i]].state) && TaskDue(db'.tasks[rest[i]], hi)
      {
        assert rest[i] == ids[i + 1] && rest[i] != ids[0];
      }
      CancelEachKeeps(db', rest, c, k + 1, hi);
      KeepsTrans(db, db', CancelEach(db', rest, c, k + 1).db, hi);
    }
  }

  lemma {:induction false} ReapEachKeeps(db: Db, ids: seq<RunId>, c: Clock, k: nat, at: Time, hi: Time)
    requires Inv(db) && at <= Reading(c, k) && Reading(c, k + 3 * |ids|) <= hi && Candidates(db, ids, at)
    ensures var p := ReapEach(db, ids, c, k); p.Commit? ==> Inv(p.db) && KeepsEligible(db, p.db, hi)
    decreases |ids|
  {
    hide Inv, Do, Can, Stuck, ReapPlan, Ends, KeepsEligible, Upkeep;
    if ids == [] {
      KeepsRefl(db, hi);
    } else {
      var r, rest := ids[0], ids[1..];
      ReapOne(db, r, c, k);
      var first := ReapPlan(db, r, c, k);
      if first.Commit? {
        var m, db' := first.moves[0], first.db;
        forall i | 0 <= i < |rest| ensures rest[i] in db'.runs && Expired(db'.runs[rest[i]], at) {
          assert rest[i] == ids[i + 1];
          ReapUndisturbed(db, m, r, rest[i], at);
        }
        MoveInv(db, m);
        ReapUpkeep(db, m, r, Reading(c, k + 1), hi);
        UpkeepKeeps(db, m, hi);
        ReapEachKeeps(db', rest, c, k + 3, at, hi);
        var p := ReapEach(db', rest, c, k + 3);
        if p.Commit? {
          KeepsTrans(db, db', p.db, hi);
        }
      }
    }
  }

  lemma ReapUpkeep(db: Db, m: Move, r: RunId, at: Time, hi: Time)
    requires Can(db, m) && Held(db, r) && Ends(db, m, r) && at <= hi
    requires m.CancelTask? ==> TaskDue(TaskOfRun(db, r), at)
    ensures Upkeep(db, m, hi)
  {
  }

  lemma CancelSweepKeeps(db: Db, limit: int, skip: set<RunId>, c: Clock, k: nat, hi: Time)
    requires Inv(db) && limit > 0 && Reading(c, k) <= hi
    ensures var p := CancelSweepPlan(db, limit, skip, c, k); p.Commit? && Inv(p.db) && KeepsEligible(db, p.db, hi)
  {
    hide Inv, Page, CancelEach, KeepsEligible;
    var keys := DueTasks(db, Reading(c, k), skip);
    var ids := Page(keys, limit);
    PageDistinct(keys, limit);
    assert forall i :: 0 <= i < |ids| ==> ids[i] in ids && ids[i] in keys;
    CancelEachKeeps(db, ids, c, k + 1, hi);
  }

  lemma ReapSweepKeeps(db: Db, limit: int, skip: set<RunId>, c: Clock, k: nat, hi: Time)
    requires Inv(db) && limit > 0 && Reading(c, k + 1 + 3 * limit) <= hi
    ensures var p := ReapSweepPlan(db, limit, skip, c, k); p.Commit? ==> Inv(p.db) && KeepsEligible(db, p.db, hi)
  {
    hide Inv, Page, ReapEach, ExpiredRuns, Candidates, KeepsEligible;
    var ids := Page(ExpiredRuns(db, Reading(c, k), skip), limit);
    ExpiredCandidates(db, limit, skip, Reading(c, k));
    assert k + 1 + 3 * |ids| <= k + 1 + 3 * limit;
    ReapEachKeeps(db, ids, c, k + 1, Reading(c, k), hi);
  }

  /**
   * The maintenance at the start of a claim never takes away a run that is eligible at the claim's own
   * fresh reading, and makes nothing eligible but retries it has just created.
   */
  lemma MaintenanceKeepsEligible(db: Db, call: ClaimCall, c: Clock, k: nat)
    requires Inv(db) && ValidClaim(call)
    ensures var p := MaintenancePlan(db, call, c, k);
      p.Commit? ==> Inv(p.db) && KeepsEligible(db, p.db, Reading(c, ClaimStart(call, k)))
  {
    hide Inv, CancelSweepPlan, ReapSweepPlan, KeepsEligible, Blank;
    var hi := Reading(c, ClaimStart(call, k));
    CancelSweepKeeps(db, call.quantity, call.skipDue, c, k + 1, hi);
    var cancels := CancelSweepPlan(db, call.quantity, call.skipDue, c, k + 1);
    ReapSweepKeeps(cancels.db, call.quantity, call.skipExpired, c, ReapStart(call, k), hi);
    var reaps := ReapSweepPlan(cancels.db, call.quantity, call.skipExpired, c, ReapStart(call, k));
    if reaps.Commit? {
      KeepsTrans(db, cancels.db, reaps.db, hi);
    }
  }

  // ---- The claim is an ordered, bounded selection ----

  /**
   * What one claimed run and its task look like afterwards, field by field. The run is leased to the
   * worker from the claim's reading on; the first claim of a run, and of a task, leaves its time for good.
   */
  predicate ClaimedRow(db: Db, db': Db, r: RunId, worker: Text, expires: Time, at: Time) {
    && r in db.runs && db.runs[r].taskId in db.tasks && r in db'.runs && db.runs[r].taskId in db'.tasks
    && var run, run' := db.runs[r], db'.runs[r];
       var task, task' := db.tasks[run.taskId], db'.tasks[run.taskId];
       && run' == run.(state := Running, claimedBy := Some(worker), claimExpiresAt := Some(expires),
                       startedAt := run'.startedAt, availableAt := at)
       && (run.startedAt.Some? ==> run'.startedAt == run.startedAt)
       && (run.startedAt.None? ==> run'.startedAt == Some(at))
       && task' == task.(state := Running, attempts := task'.attempts, firstStartedAt := task'.firstStartedAt,
                         lastAttemptRun := r)
       && task.attempts <= task'.attempts && run.attempt <= task'.attempts
       && (task'.attempts == task.attempts || task'.attempts == run.attempt)
       && (task.firstStartedAt.Some? ==> task'.firstStartedAt == task.firstStartedAt)
       && (task.firstStartedAt.None? ==> task'.firstStartedAt == Some(at))
  }

  lemma ClaimedRowLiteral(db: Db, db': Db, r: RunId, worker: Text, expires: Time, at: Time)
    requires r in db.runs && db.runs[r].taskId in db.tasks && r in db'.runs && db.runs[r].taskId in db'.tasks
    requires db'.runs[r] == ClaimedRun(db.runs[r], worker, expires, at)
    requires db'.tasks[db.runs[r].taskId] == ClaimedTask(db.tasks[db.runs[r].taskId], db.runs[r], r, at)
    ensures ClaimedRow(db, db', r, worker, expires, at)
  {
  }

  lemma ClaimAllRows(db: Db, ids: seq<RunId>, worker: Text, expires: Time, at: Time)
    requires forall r :: r in ids ==> Eligible(db, r, at)
    ensures var db' := ClaimAll(db, ids, worker, expires, at);
      && (forall r :: r in ids ==> ClaimedRow(db, db', r, worker, expires, at))
      && (forall r :: r in db.runs && r !in ids ==> r in db'.runs && db'.runs[r] == db.runs[r])
      && (forall t :: t in db.tasks && !Touched(db, ids, t) ==> t in db'.tasks && db'.tasks[t] == db.tasks[t])
      && db'.runs.Keys == db.runs.Keys && db'.tasks.Keys == db.tasks.Keys && db'.checkpoints == db.checkpoints
      && db'.nextId == db.nextId
  {
    hide CancellationDue, ClaimedRun, ClaimedTask, ClaimedRow;
    var db' := ClaimAll(db, ids, worker, expires, at);
    forall r | r in ids ensures ClaimedRow(db, db', r, worker, expires, at) {
      assert Eligible(db, r, at);
      ClaimedRowLiteral(db, db', r, worker, expires, at);
    }
  }

  /** One of the listed runs belongs to the task. */
  predicate Touched(db: Db, ids: seq<RunId>, t: TaskId) {
    exists i :: 0 <= i < |ids| && ids[i] in db.runs && db.runs[ids[i]].taskId == t
  }

  function Runs(rows: seq<Assignment>): (ids: seq<RunId>)
    ensures |ids| == |rows| && forall i :: 0 <= i < |ids| ==> ids[i] == rows[i].run
  {
    seq(|rows|, i requires 0 <= i < |rows| => rows[i].run)
  }

  /** What the worker is told of a run: its own row and the submitted request, column by column. */
  predicate Describes(db: Db, a: Assignment) {
    && a.run in db.runs && db.runs[a.run].taskId == a.task && db.runs[a.run].attempt == a.attempt && a.task in db.tasks
    && db.tasks[a.task].name == a.name && db.tasks[a.task].params == a.params && db.tasks[a.task].headers == a.headers
  }

  /** The simple specification of a claim on the maintained tables. */
  ghost predicate ClaimSpec(mid: Db, call: ClaimCall, at: Time, rows: seq<Assignment>, db': Db) {
    var ids := Runs(rows);
    && IsPage(Claimable(mid, call.names, at, call.skipWaiting), Max(0, call.quantity), ids)
    && (forall i :: 0 <= i < |ids| ==> Eligible(mid, ids[i], at) && Describes(mid, rows[i]))
    && (forall r :: r in ids ==> ClaimedRow(mid, db', r, call.worker, at + call.lease as real, at))
    && (forall r :: r in mid.runs && r !in ids ==> r in db'.runs && db'.runs[r] == mid.runs[r])
    && (forall t :: t in mid.tasks && !Touched(mid, ids, t) ==> t in db'.tasks && db'.tasks[t] == mid.tasks[t])
    && db'.runs.Keys == mid.runs.Keys && db'.tasks.Keys == mid.tasks.Keys && db'.checkpoints == mid.checkpoints
    && db'.nextId == mid.nextId
  }

  lemma PageMeetsSpec(mid: Db, call: ClaimCall, at: Time)
    requires ValidClaim(call)
    ensures var ids := ClaimPage(mid, call, at);
      ClaimSpec(mid, call, at, Assignments(mid, ids), ClaimAll(mid, ids, call.worker, at + call.lease as real, at))
  {
    hide Claimable, Page, IsPage, CancellationDue, ClaimAll, ClaimedRow, Touched, Blank;
    var ids := ClaimPage(mid, call, at);
    PageIsPage(Claimable(mid, call.names, at, call.skipWaiting), call.quantity);
    ClaimAllRows(mid, ids, call.worker, at + call.lease as real, at);
    assert Runs(Assignments(mid, ids)) == ids;
    forall i | 0 <= i < |ids| ensures Eligible(mid, ids[i], at) && Describes(mid, Assignments(mid, ids)[i]) {
      assert ids[i] in ids;
    }
  }

  /**
   * A claim refines its specification: the assignments are exactly the first min(quantity, n) of the n
   * claimable runs by (available_at, id), in that order; each of those runs, and only those, becomes
   * running for this worker with a full lease from the fresh reading.
   */
  lemma ClaimRefines(db: Db, call: ClaimCall, c: Clock, k: nat)
    requires ClaimPlan(db, call, c, k).Commit?
    ensures ValidClaim(call) && MaintenancePlan(db, call, c, k).Commit?
    ensures ClaimSpec(MaintenancePlan(db, call, c, k).db, call, Reading(c, ClaimStart(call, k)),
                      ClaimPlan(db, call, c, k).value, ClaimPlan(db, call, c, k).db)
  {
    hide MaintenancePlan, ClaimAll, Assignments, ClaimPage, ClaimSpec, ClaimMoves, Blank;
    PageMeetsSpec(MaintenancePlan(db, call, c, k).db, call, Reading(c, ClaimStart(call, k)));
  }

  lemma SpecTask(mid: Db, call: ClaimCall, at: Time, rows: seq<Assignment>, db': Db, t: TaskId)
    requires ClaimSpec(mid, call, at, rows, db') && t in mid.tasks
    ensures t in db'.tasks
    ensures !Touched(mid, Runs(rows), t) ==> db'.tasks[t] == mid.tasks[t]
    ensures forall r :: r in Runs(rows) ==> ClaimedRow(mid, db', r, call.worker, at + call.lease as real, at)
  {
    hide Claimable, IsPage, Eligible, Describes, Touched, ClaimedRow;
  }

  lemma SameClaimed(mid: Db, db1: Db, db2: Db, r: RunId, worker: Text, expires: Time, at: Time)
    requires ClaimedRow(mid, db1, r, worker, expires, at) && ClaimedRow(mid, db2, r, worker, expires, at)
    ensures var t := mid.runs[r].taskId; t in db1.tasks && t in db2.tasks && db1.tasks[t] == db2.tasks[t]
  {
  }

  lemma SameAfterClaim(mid: Db, call: ClaimCall, at: Time, rows: seq<Assignment>, db1: Db, db2: Db, t: TaskId)
    requires ClaimSpec(mid, call, at, rows, db1) && ClaimSpec(mid, call, at, rows, db2) && t in mid.tasks
    ensures t in db1.tasks && t in db2.tasks && db1.tasks[t] == db2.tasks[t]
  {
    hide ClaimSpec, ClaimedRow;
    var ids := Runs(rows);
    SpecTask(mid, call, at, rows, db1, t);
    SpecTask(mid, call, at, rows, db2, t);
    if Touched(mid, ids, t) {
      var i :| 0 <= i < |ids| && ids[i] in mid.runs && mid.runs[ids[i]].taskId == t;
      assert ids[i] in ids;
      SameClaimed(mid, db1, db2, ids[i], call.worker, at + call.lease as real, at);
    }
  }

  /** The specification leaves no choice: not of runs, nor of their order, nor of any row. */
  lemma ClaimSpecUnique(mid: Db, call: ClaimCall, at: Time, a: seq<Assignment>, db1: Db, b: seq<Assignment>, db2: Db)
    requires ClaimSpec(mid, call, at, a, db1) && ClaimSpec(mid, call, at, b, db2)
    ensures a == b && db1 == db2
  {
    hide Claimable, IsPage, Eligible, Touched;
    PageUnique(Claimable(mid, call.names, at, call.skipWaiting), Max(0, call.quantity), Runs(a), Runs(b));
    assert forall i :: 0 <= i < |a| ==> a[i] == b[i];
    assert db1.runs == db2.runs;
    forall t | t in mid.tasks ensures db1.tasks[t] == db2.tasks[t] {
      SameAfterClaim(mid, call, at, a, db1, db2, t);
    }
    assert db1.tasks == db2.tasks;
  }

  /** A claim never hands out more runs than it was asked for, and each is leased to the claiming worker. */
  lemma ClaimBounded(db: Db, call: ClaimCall, c: Clock, k: nat)
    requires ClaimPlan(db, call, c, k).Commit?
    ensures var p := ClaimPlan(db, call, c, k);
      && |p.value| <= call.quantity
      && forall i :: 0 <= i < |p.value| ==>
           p.value[i].run in p.db.runs && p.db.runs[p.value[i].run].claimedBy == Some(call.worker)
  {
    hide ClaimPlan, MaintenancePlan, Claimable, Eligible, Touched, AssignmentOf, ClaimedTask;
    ClaimRefines(db, call, c, k);
    QuantityPositive(call);
    var rows := ClaimPlan(db, call, c, k).value;
    assert forall i :: 0 <= i < |rows| ==> rows[i].run in Runs(rows);
  }

  lemma QuantityPositive(call: ClaimCall)
    requires ValidClaim(call)
    ensures call.quantity > 0
  {
  }

  /**
   * A well-formed claim raises exactly when its reaping sweep selects a run whose attempt counter is
   * exhausted; nothing else in the queue can make it fail.
   */
  lemma ClaimRaisesIffStuck(db: Db, call: ClaimCall, c: Clock, k: nat)
    requires Inv(db) && ValidClaim(call)
    ensures var cancels := CancelSweepPlan(db, call.quantity, call.skipDue, c, k + 1);
      var start := ReapStart(call, k);
      && cancels.Commit?
      && (ClaimPlan(db, call, c, k).Commit? <==>
            NoneStuck(cancels.db, Page(ExpiredRuns(cancels.db, Reading(c, start), call.skipExpired), call.quantity), c,
                      start + 1))
  {
    hide Inv, CancelSweepPlan, ReapSweepPlan, KeepsEligible, NoneStuck, Page, ExpiredRuns, ClaimPage, ClaimAll, Blank;
    CancelSweepKeeps(db, call.quantity, call.skipDue, c, k + 1, Reading(c, k + 1));
    var cancels := CancelSweepPlan(db, call.quantity, call.skipDue, c, k + 1);
    ReapSweepExact(cancels.db, call.quantity, call.skipExpired, c, ReapStart(call, k));
  }

  // ---- Bounded waiting ----

  /** The waiting runs that come before position (available_at, id) = (a, r). */
  function Ahead(db: Db, a: Time, r: RunId): set<RunId> {
    set q | q in db.runs && Waiting(db.runs[q].state)
      && (db.runs[q].availableAt < a || (db.runs[q].availableAt == a && q < r))
  }

  lemma AheadStep(db: Db, m: Move, a: Time, r: RunId)
    requires Inv(db) && Can(db, m) && a <= m.at && r < db.nextId
    ensures Ahead(Do(db, m), a, r) <= Ahead(db, a, r)
    ensures r < Do(db, m).nextId
  {
    hide Inv, CancellationDue, RetryDelay, LeaseExpiredReason;
    FreshIds(db);
    Flat(db, m);
  }

  lemma {:induction false} AheadMoves(db: Db, ms: seq<Move>, a: Time, r: RunId, now: Time, hi: Time)
    requires Inv(db) && Enabled(db, ms) && Timely(now, ms, hi) && a <= now && r < db.nextId
    ensures Ahead(DoAll(db, ms), a, r) <= Ahead(db, a, r)
    decreases |ms|
  {
    hide Inv, Do, Can, Ahead;
    if ms != [] {
      AheadStep(db, ms[0], a, r);
      MoveInv(db, ms[0]);
      AheadMoves(Do(db, ms[0]), ms[1..], a, r, ms[0].at, hi);
    }
  }

  /** Once its time has come, nobody gets in front of a position in the queue, in any history. */
  lemma NobodyOvertakes(db: Db, now: Time, calls: seq<Call>, a: Time, r: RunId)
    requires Inv(db) && Timed(now, calls) && a <= now && r < db.nextId
    ensures Ahead(Replay(db, calls), a, r) <= Ahead(db, a, r)
  {
    hide Inv, Perform, Ahead;
    HistoryReached(db, now, calls);
    AheadMoves(db, Trace(db, calls), a, r, now, Now(now, calls));
  }

  /** Run r has been waiting since it became available at a. */
  predicate WaitsSince(db: Db, r: RunId, a: Time) {
    r in db.runs && Waiting(db.runs[r].state) && db.runs[r].availableAt == a
  }

  /** A successful claim that could hand out run r: nothing locked, its name served, its task not due. */
  predicate Serves(db: Db, claim: ClaimCall, c: Clock, r: RunId) {
    && ClaimPlan(db, claim, c, 0).Commit? && ValidClaim(claim) && claim.skipWaiting == {}
    && r in db.runs && db.runs[r].taskId in db.tasks
    && db.tasks[db.runs[r].taskId].name in claim.names
    && !TaskDue(db.tasks[db.runs[r].taskId], Reading(c, ClaimStart(claim, 0)))
  }

  lemma WaitingEligible(db: Db, r: RunId, a: Time, at: Time)
    requires Inv(db) && WaitsSince(db, r, a) && a <= at && !TaskDue(db.tasks[db.runs[r].taskId], at)
    ensures Eligible(db, r, at)
  {
    hide CancellationDue, RunShape;
    assert RunOk(db, r);
    LastRun(db, db.runs[r].taskId);
  }

  lemma FullPage(keys: map<nat, Time>, limit: nat, r: nat)
    requires r in keys && r !in Page(keys, limit)
    ensures |Page(keys, limit)| == limit && Distinct(Page(keys, limit))
    ensures forall q :: q in Page(keys, limit) ==> q in keys && Precedes(keys, q, r)
  {
    PageIsPage(keys, limit);
    PageDistinct(keys, limit);
  }

  /** The selected runs are all ahead of a claimable run that was left out, and leave the queue. */
  lemma PageAhead(mid: Db, call: ClaimCall, at: Time, r: RunId)
    requires ValidClaim(call) && r in Claimable(mid, call.names, at, call.skipWaiting) && r !in ClaimPage(mid, call, at)
    ensures var a, ids := mid.runs[r].availableAt, ClaimPage(mid, call, at);
      var db' := ClaimAll(mid, ids, call.worker, at + call.lease as real, at);
      && |Ahead(db', a, r)| + call.quantity <= |Ahead(mid, a, r)|
      && r in db'.runs && db'.runs[r] == mid.runs[r]
  {
    hide CancellationDue, Blank, Page;
    var keys := Claimable(mid, call.names, at, call.skipWaiting);
    var a, ids := mid.runs[r].availableAt, ClaimPage(mid, call, at);
    var db' := ClaimAll(mid, ids, call.worker, at + call.lease as real, at);
    FullPage(keys, call.quantity, r);
    DistinctSize(ids);
    var taken := Elements(ids);
    assert taken <= Ahead(mid, a, r);
    assert Ahead(db', a, r) <= Ahead(mid, a, r) - taken;
    assert Ahead(mid, a, r) == (Ahead(mid, a, r) - taken) + taken;
    SubsetSize(Ahead(db', a, r), Ahead(mid, a, r) - taken);
  }

  /** On the maintained tables, a claimable run is handed out or the page is taken from ahead of it. */
  lemma StartProgress(mid: Db, call: ClaimCall, at: Time, r: RunId)
    requires ValidClaim(call) && r in Claimable(mid, call.names, at, call.skipWaiting)
    ensures var a, ids := mid.runs[r].availableAt, ClaimPage(mid, call, at);
      var db' := ClaimAll(mid, ids, call.worker, at + call.lease as real, at);
      || (r in db'.runs && db'.runs[r].state == Running && db'.runs[r].claimedBy == Some(call.worker))
      || (WaitsSince(db', r, a) && |Ahead(db', a, r)| + call.quantity <= |Ahead(mid, a, r)|)
  {
    hide Page, CancellationDue, Ahead, ClaimAll, Blank, Touched;
    var ids := ClaimPage(mid, call, at);
    ClaimAllRows(mid, ids, call.worker, at + call.lease as real, at);
    if r !in ids {
      PageAhead(mid, call, at, r);
    }
  }

  /** A serving claim either hands out r or removes `quantity` runs from those ahead of it. */
  lemma ClaimProgress(db: Db, claim: ClaimCall, c: Clock, r: RunId, a: Time)
    requires Inv(db) && WaitsSince(db, r, a) && a <= c[0] && Serves(db, claim, c, r)
    ensures var db' := ClaimPlan(db, claim, c, 0).db;
      || (r in db'.runs && db'.runs[r].state == Running && db'.runs[r].claimedBy == Some(claim.worker))
      || (WaitsSince(db', r, a) && |Ahead(db', a, r)| + claim.quantity <= |Ahead(db, a, r)|)
  {
    hide Inv, MaintenancePlan, ClaimAll, ClaimPage, Claimable, KeepsEligible, CancellationDue, Ahead, ValidClaim;
    var at := Reading(c, ClaimStart(claim, 0));
    var mid := MaintenancePlan(db, claim, c, 0).db;
    WaitingEligible(db, r, a, at);
    MaintenanceKeepsEligible(db, claim, c, 0);
    KeptClaimable(db, mid, claim, r, at);
    MaintenanceAhead(db, claim, c, a, r);
    StartProgress(mid, claim, at, r);
  }

  lemma KeptClaimable(db: Db, mid: Db, claim: ClaimCall, r: RunId, at: Time)
    requires KeepsEligible(db, mid, at) && Eligible(db, r, at) && claim.skipWaiting == {}
    requires db.tasks[db.runs[r].taskId].name in claim.names
    ensures r in Claimable(mid, claim.names, at, claim.skipWaiting) && mid.runs[r] == db.runs[r]
  {
    hide CancellationDue;
    assert SameRows(db, mid, db.runs[r].taskId);
  }

  lemma MaintenanceAhead(db: Db, claim: ClaimCall, c: Clock, a: Time, r: RunId)
    requires Inv(db) && ValidClaim(claim) && MaintenancePlan(db, claim, c, 0).Commit? && a <= c[0] && r in db.runs
    ensures |Ahead(MaintenancePlan(db, claim, c, 0).db, a, r)| <= |Ahead(db, a, r)|
  {
    hide Inv, MaintenancePlan, Ahead, ValidClaim;
    var upkeep := MaintenancePlan(db, claim, c, 0);
    MaintenanceSound(db, claim, c, 0);
    FreshIds(db);
    AheadMoves(db, upkeep.moves, a, r, Reading(c, 0), Reading(c, ClaimStart(claim, 0)));
    SubsetSize(Ahead(upkeep.db, a, r), Ahead(db, a, r));
  }

  /** Run r waits, unclaimed, before and after every call of the history. */
  predicate KeepsWaiting(db: Db, calls: seq<Call>, r: RunId, a: Time)
    decreases |calls|
  {
    WaitsSince(db, r, a) && (calls == [] || KeepsWaiting(Perform(db, calls[0]).db, calls[1..], r, a))
  }

  /** How many runs this call asks for, if it is a claim that serves r. */
  function Asked(db: Db, call: Call, r: RunId): nat {
    if call.op.Claim? && Serves(db, call.op.call, call.clock, r) then call.op.call.quantity else 0
  }

  /** How many runs the claims that serve r ask for, over the history. */
  function Demand(db: Db, calls: seq<Call>, r: RunId): nat
    decreases |calls|
  {
    if calls == [] then 0 else Asked(db, calls[0], r) + Demand(Perform(db, calls[0]).db, calls[1..], r)
  }

  lemma ServesCommits(db: Db, claim: ClaimCall, c: Clock, r: RunId)
    requires Serves(db, claim, c, r)
    ensures ClaimPlan(db, claim, c, 0).Commit?
  {
  }

  lemma ServedOnce(db: Db, call: Call, r: RunId, a: Time)
    requires Inv(db) && a <= Start(call) && WaitsSince(db, r, a) && WaitsSince(Perform(db, call).db, r, a)
    ensures |Ahead(Perform(db, call).db, a, r)| + Asked(db, call, r) <= |Ahead(db, a, r)|
  {
    hide Inv, Ahead, Serves, ClaimPlan;
    var db' := Perform(db, call).db;
    assert Ahead(db', a, r) <= Ahead(db, a, r) by {
      hide Perform;
      CallReached(db, call);
      FreshIds(db);
      AheadMoves(db, Perform(db, call).moves, a, r, Start(call), End(call));
    }
    SubsetSize(Ahead(db', a, r), Ahead(db, a, r));
    if call.op.Claim? && Serves(db, call.op.call, call.clock, r) {
      ServesCommits(db, call.op.call, call.clock, r);
      ClaimProgress(db, call.op.call, call.clock, r, a);
    }
  }

  /**
   * Bounded waiting: while run r waits, the claims that serve it cannot ask for more runs in all than
   * were ahead of it at the start. So r is claimed, or its task cancelled, after finitely many of them.
   */
  lemma {:induction false} BoundedWaiting(db: Db, now: Time, calls: seq<Call>, r: RunId, a: Time)
    requires Inv(db) && Timed(now, calls) && a <= now && KeepsWaiting(db, calls, r, a)
    ensures |Ahead(Replay(db, calls), a, r)| + Demand(db, calls, r) <= |Ahead(db, a, r)|
    decreases |calls|
  {
    hide Inv, Ahead, Asked, Perform, WaitsSince;
    if calls != [] {
      var db' := Perform(db, calls[0]).db;
      ServedOnce(db, calls[0], r, a);
      CallInv(db, calls[0]);
      BoundedWaiting(db', End(calls[0]), calls[1..], r, a);
    }
  }
}
