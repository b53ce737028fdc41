/** A run is handed out again only after it has suspended itself: no two claims own it at once. */
module Ownership {
  import opened Basics
  import opened Policies
  import opened Selection
  import opened Storage
  import opened Invariant
  import opened Plans
  import opened History
  import opened Supervision
  import opened Claiming

  predicate IsWaiting(db: Db, r: RunId) {
    r in db.runs && Waiting(db.runs[r].state)
  }

  predicate Suspension(m: Move, r: RunId) {
    m.SuspendRun? && m.run == r
  }

  /** Only its suspension makes a run wait that did not. */
  lemma NotWaitingStep(db: Db, m: Move, r: RunId)
    requires Inv(db) && Can(db, m) && r < db.nextId && !IsWaiting(db, r) && !Suspension(m, r)
    ensures r < Do(db, m).nextId && !IsWaiting(Do(db, m), r)
  {
    hide Inv, CancellationDue, RetryDelay, NextAvailable, LeaseExpiredReason;
    FreshIds(db);
    Flat(db, m);
  }

  lemma {:induction false} SuspendedBetween(db: Db, ms: seq<Move>, r: RunId)
    requires Inv(db) && Enabled(db, ms) && r < db.nextId && !IsWaiting(db, r) && IsWaiting(DoAll(db, ms), r)
    ensures exists k :: 0 <= k < |ms| && Suspension(ms[k], r)
    decreases |ms|
  {
    hide Inv, Do, Can;
    if ms != [] && !Suspension(ms[0], r) {
      NotWaitingStep(db, ms[0], r);
      MoveInv(db, ms[0]);
      SuspendedBetween(Do(db, ms[0]), ms[1..], r);
      var k :| 0 <= k < |ms[1..]| && Suspension(ms[1..][k], r);
      assert ms[k + 1] == ms[1..][k];
    }
  }

  /** The call suspends the run. */
  predicate Suspends(db: Db, call: Call, r: RunId) {
    && call.op.Schedule? && call.op.run == r
    && SchedulePlan(db, r, call.op.wakeAt, call.clock, 0).Commit?
    && SchedulePlan(db, r, call.op.wakeAt, call.clock, 0).value == Suspended
  }

  lemma RoutineNeverSuspends(ms: seq<Move>, r: RunId)
    requires AllRoutine(ms)
    ensures forall k :: 0 <= k < |ms| ==> !Suspension(ms[k], r)
  {
  }

  lemma FailNeverSuspends(db: Db, q: RunId, reason: Option<Json>, c: Clock, r: RunId)
    ensures var p := FailPlan(db, q, reason, false, c, 0);
      p.Commit? ==> forall k :: 0 <= k < |p.moves| ==> !Suspension(p.moves[k], r)
  {
    hide Do, LeaseExpiredReason, CancellationDue, RetryDelay, NextAvailable;
  }

  /** Only scheduling suspends. */
  lemma OnlySchedulingSuspends(db: Db, call: Call, r: RunId, k: nat)
    requires k < |Perform(db, call).moves| && Suspension(Perform(db, call).moves[k], r)
    ensures Suspends(db, call, r)
  {
    hide Do, FailPlan, SupervisePlan, ReapPlan, ReapSweepPlan, CancelSweepPlan, ClaimPlan, Page, TaskDue, ValidName,
         ValidSpawn, Resolve, AllRoutine;
    if call.op.Claim? || call.op.Reap? || call.op.ReapSweep? || call.op.CancelSweep? || call.op.Cancel? {
      RoutineCall(db, call);
      RoutineNeverSuspends(Perform(db, call).moves, r);
    } else if call.op.Supervise? {
      SuperviseRoutine(db, call.op.run, call.op.renew, call.clock, 0);
      var p := SupervisePlan(db, call.op.run, call.op.renew, call.clock, 0);
      if p.Commit? && AllRoutine(p.moves) {
        RoutineNeverSuspends(p.moves, r);
      }
    } else if call.op.Fail? {
      FailNeverSuspends(db, call.op.run, call.op.reason, call.clock, r);
    }
  }

  lemma WaitsAfterCall(db: Db, call: Call, r: RunId)
    requires Inv(db) && r < db.nextId && !IsWaiting(db, r) && IsWaiting(Perform(db, call).db, r)
    ensures Suspends(db, call, r)
  {
    hide Inv, Do, Can, Perform, IsWaiting, Suspends;
    CallReached(db, call);
    SuspendedBetween(db, Perform(db, call).moves, r);
    var k :| 0 <= k < |Perform(db, call).moves| && Suspension(Perform(db, call).moves[k], r);
    OnlySchedulingSuspends(db, call, r, k);
  }

  lemma CallIds(db: Db, call: Call)
    requires Inv(db)
    ensures db.nextId <= Perform(db, call).db.nextId
  {
    hide Inv, Do, Can, Perform;
    CallReached(db, call);
    MovesIds(db, Perform(db, call).moves);
  }

  lemma {:induction false} MovesIds(db: Db, ms: seq<Move>)
    requires Enabled(db, ms)
    ensures db.nextId <= DoAll(db, ms).nextId
    decreases |ms|
  {
    hide Do, Can;
    if ms != [] {
      NextIdGrows(db, ms[0]);
      MovesIds(Do(db, ms[0]), ms[1..]);
    }
  }

  lemma {:induction false} HistoryIds(db: Db, calls: seq<Call>)
    requires Inv(db)
    ensures db.nextId <= Replay(db, calls).nextId
    decreases |calls|
  {
    hide Inv, Perform;
    if calls != [] {
      CallInv(db, calls[0]);
      CallIds(db, calls[0]);
      HistoryIds(Perform(db, calls[0]).db, calls[1..]);
    }
  }

  /** A run that waits after a history, and did not before, was suspended by some call of it. */
  lemma {:induction false} WaitsAfterHistory(db: Db, calls: seq<Call>, r: RunId)
    requires Inv(db) && r < db.nextId && !IsWaiting(db, r) && IsWaiting(Replay(db, calls), r)
    ensures exists i :: 0 <= i < |calls| && Suspends(Replay(db, calls[..i]), calls[i], r)
    decreases |calls|
  {
    hide Inv, Perform, Suspends, IsWaiting;
    var first, rest := Perform(db, calls[0]), calls[1..];
    assert calls[..0] == [] && Replay(db, []) == db;
    if IsWaiting(first.db, r) {
      WaitsAfterCall(db, calls[0], r);
      assert Suspends(Replay(db, calls[..0]), calls[0], r);
    } else {
      CallInv(db, calls[0]);
      CallIds(db, calls[0]);
      WaitsAfterHistory(first.db, rest, r);
      var i :| 0 <= i < |rest| && Suspends(Replay(first.db, rest[..i]), rest[i], r);
      assert calls[..i + 1][0] == calls[0] && calls[..i + 1][1..] == rest[..i];
      assert Suspends(Replay(db, calls[..i + 1]), calls[i + 1], r);
    }
  }

  /** The claim hands out the run. */
  predicate HandsOut(db: Db, call: ClaimCall, c: Clock, r: RunId) {
    ClaimPlan(db, call, c, 0).Commit? && r in Runs(ClaimPlan(db, call, c, 0).value)
  }

  /** A claim hands out runs that wait when it starts, or that its own maintenance creates, and leaves them running. */
  lemma HandedOutWaited(db: Db, call: ClaimCall, c: Clock, r: RunId)
    requires Inv(db) && HandsOut(db, call, c, r)
    ensures r < db.nextId ==> IsWaiting(db, r)
    ensures var db' := ClaimPlan(db, call, c, 0).db;
      Inv(db') && r in db'.runs && r < db'.nextId && db'.runs[r].state == Running
  {
    hide Inv, ClaimPlan, MaintenancePlan, Claimable, IsPage, ValidClaim, Touched, AssignmentOf, KeepsEligible;
    ClaimRefines(db, call, c, 0);
    var at, mid := Reading(c, ClaimStart(call, 0)), MaintenancePlan(db, call, c, 0).db;
    var ids := Runs(ClaimPlan(db, call, c, 0).value);
    var i :| 0 <= i < |ids| && ids[i] == r;
    assert Eligible(mid, r, at);
    MaintenanceKeepsEligible(db, call, c, 0);
    assert r < db.nextId ==> Eligible(db, r, at) by { EligibleBefore(db, mid, r, at); }
    ClaimedInv(db, call, c);
    FreshIds(ClaimPlan(db, call, c, 0).db);
  }

  lemma EligibleBefore(db: Db, mid: Db, r: RunId, at: Time)
    requires KeepsEligible(db, mid, at) && Eligible(mid, r, at)
    ensures r < db.nextId ==> Eligible(db, r, at)
  {
    hide SameRows, CancellationDue;
  }

  lemma ClaimedInv(db: Db, call: ClaimCall, c: Clock)
    requires Inv(db) && ClaimPlan(db, call, c, 0).Commit?
    ensures Inv(ClaimPlan(db, call, c, 0).db)
  {
    hide Inv, ClaimPlan;
    CallInv(db, Call(Claim(call), c));
  }

  /**
   * Exclusive ownership: two claims of one history that hand out the same run have a suspension of that
   * run between them, by a call in its name.
   */
  lemma ExclusiveOwnership(db: Db, first: ClaimCall, c: Clock, calls: seq<Call>, second: ClaimCall, c': Clock, r: RunId)
    requires Inv(db) && HandsOut(db, first, c, r)
    requires HandsOut(Replay(ClaimPlan(db, first, c, 0).db, calls), second, c', r)
    ensures var owned := ClaimPlan(db, first, c, 0).db;
      exists i :: 0 <= i < |calls| && Suspends(Replay(owned, calls[..i]), calls[i], r)
  {
    hide Inv, ClaimPlan, Perform, Suspends;
    var owned := ClaimPlan(db, first, c, 0).db;
    HandedOutWaited(db, first, c, r);
    HistoryInv(owned, calls);
    HistoryIds(owned, calls);
    HandedOutWaited(Replay(owned, calls), second, c', r);
    WaitsAfterHistory(owned, calls, r);
  }
}
