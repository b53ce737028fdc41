/** Until when a run is leased: what its latest claim and polls granted, and nothing more. */
module Grants {
  import opened Basics
  import opened Policies
  import opened Selection
  import opened Storage
  import opened Invariant
  import opened Plans
  import opened Sweeps
  import opened History
  import opened Supervision
  import opened Claiming
  import opened Ownership
  import opened Leases
  import opened Limits

  // ---- One poll ----

  /**
   * A poll of a running run in time writes exactly when at most half of the given lease remains, and then
   * leaves a full one from its own reading. Nothing else in the tables differs.
   */
  lemma PollWrites(db: Db, r: RunId, lease: int, c: Clock)
    requires Inv(db) && lease > 0 && LeasedBeyond(db, r, c[0]) && !PastLimit(db.tasks[db.runs[r].taskId], c[0])
    ensures var before, p := db.runs[r].claimExpiresAt.value, SupervisePlan(db, r, Some(lease), c, 0);
      && p.Commit? && p.value == StillRunning
      && p.db == db.(runs := db.runs[r := db.runs[r].(claimExpiresAt :=
           Some(if before <= c[0] + lease as real / 2.0 then c[0] + lease as real else before))])
  {
    hide Inv, CancellationDue, ReapPlan, NamedLeaseExpired, CancelRows;
    RunningHeld(db, r);
    DueIff(TaskOfRun(db, r), c[0]);
    var t := db.runs[r].taskId;
    assert db.tasks[t := db.tasks[t]] == db.tasks;
    assert db.runs[r := db.runs[r]] == db.runs;
    assert db.runs[r].(claimExpiresAt := Some(db.runs[r].claimExpiresAt.value)) == db.runs[r];
  }

  /**
   * Supervision of a running run: past its limit it is cancelled with its task, in time it goes on for as
   * long as its lease is valid, and with its lease over it does not run any more.
   */
  lemma SupervisedInTime(db: Db, r: RunId, renew: Option<int>, c: Clock)
    requires Inv(db) && IsRunning(db, r) && SupervisePlan(db, r, renew, c, 0).Commit?
    ensures r in db.runs && db.runs[r].taskId in db.tasks && db.runs[r].claimExpiresAt.Some?
    ensures var task, p := db.tasks[db.runs[r].taskId], SupervisePlan(db, r, renew, c, 0);
      && (PastLimit(task, c[0]) ==> p.value == RunCancelled)
      && (p.value == StillRunning <==> !PastLimit(task, c[0]) && db.runs[r].claimExpiresAt.value > c[0])
      && (p.value != StillRunning ==> !IsRunning(p.db, r))
      && (p.value == RunCancelled ==>
            && r in p.db.runs && p.db.runs[r].taskId in p.db.tasks
            && p.db.tasks[p.db.runs[r].taskId].state == Cancelled)
  {
    hide Inv, CancellationDue, ReapPlan, NamedLeaseExpired, VerdictOf, Do;
    RunningHeld(db, r);
    DueIff(TaskOfRun(db, r), c[0]);
    VerdictAgrees(db, r, renew, c, 0);
    var p := SupervisePlan(db, r, renew, c, 0);
    RunsOnIff(p.db, r);
    CallInv(db, Call(Supervise(r, renew), c));
    CancelledWhole(p.db, r);
  }

  /** A run that supervision reports on is running exactly when it is reported so. */
  lemma RunsOnIff(db: Db, r: RunId)
    requires VerdictOf(db, r).Some?
    ensures r in db.runs && db.runs[r].taskId in db.tasks
    ensures VerdictOf(db, r) == Some(StillRunning) ==> IsRunning(db, r)
    ensures VerdictOf(db, r) != Some(StillRunning) && IsRunning(db, r) ==>
      db.tasks[db.runs[r].taskId].state == Cancelled
  {
    hide NamedLeaseExpired;
  }

  lemma CancelledWhole(db: Db, r: RunId)
    requires Inv(db) && r in db.runs && db.runs[r].taskId in db.tasks
    ensures db.tasks[db.runs[r].taskId].state == Cancelled ==> !IsRunning(db, r)
    ensures VerdictOf(db, r) == Some(RunCancelled) ==> db.tasks[db.runs[r].taskId].state == Cancelled
  {
    hide NamedLeaseExpired;
    assert RunOk(db, r);
    LastRun(db, db.runs[r].taskId);
  }

  /** Reaping takes the oldest leases first: one that an unlocked sweep leaves ran out after every one it ends. */
  lemma ReapsInOrder(db: Db, limit: nat, c: Clock, k: nat, q: RunId, r: RunId)
    requires Inv(db) && limit > 0 && ReapSweepPlan(db, limit, {}, c, k).Commit?
    requires q in db.runs && Expired(db.runs[q], Reading(c, k)) && r in db.runs && Expired(db.runs[r], Reading(c, k))
    ensures var p, at := ReapSweepPlan(db, limit, {}, c, k), Reading(c, k);
      (r in p.db.runs && Expired(p.db.runs[r], at)) && !(q in p.db.runs && Expired(p.db.runs[q], at)) ==>
        || db.runs[q].claimExpiresAt.value < db.runs[r].claimExpiresAt.value
        || (db.runs[q].claimExpiresAt == db.runs[r].claimExpiresAt && q < r)
  {
    hide Inv, Page, ReapSweepPlan, NoneStuck;
    var keys, at := ExpiredRuns(db, Reading(c, k), {}), Reading(c, k);
    ReapSweepExact(db, limit, {}, c, k);
    var db' := ReapSweepPlan(db, limit, {}, c, k).db;
    assert ExpiredRuns(db', at, {}) == keys - Elements(Page(keys, limit));
    assert q in keys && r in keys;
    if r in ExpiredRuns(db', at, {}) && q !in ExpiredRuns(db', at, {}) {
      assert r !in Elements(Page(keys, limit)) && q in Elements(Page(keys, limit));
      PageOrder(keys, limit, q, r);
    }
  }

  // ---- Where an expiry comes from ----

  /** The transition leases the run until the given time. */
  predicate Lends(m: Move, r: RunId, expires: Time) {
    || (m.ClaimRun? && m.run == r && m.expires == expires)
    || (m.RenewLease? && m.run == r && m.expires == expires)
  }

  /** Running, with a lease until exactly the given time. */
  predicate LeasedUntil(db: Db, r: RunId, expires: Time) {
    r in db.runs && db.runs[r].state == Running && db.runs[r].claimExpiresAt == Some(expires)
  }

  /** A running run's expiry is the one it had, or the one just lent. */
  lemma LendingStep(db: Db, m: Move, r: RunId, expires: Time)
    requires Inv(db) && Can(db, m) && LeasedUntil(Do(db, m), r, expires)
    ensures Lends(m, r, expires) || LeasedUntil(db, r, expires)
  {
    hide Inv, CancellationDue, RetryDelay, NextAvailable, LeaseExpiredReason;
    FreshIds(db);
    Flat(db, m);
  }

  lemma {:induction false} LendingMoves(db: Db, ms: seq<Move>, r: RunId, expires: Time)
    requires Inv(db) && Enabled(db, ms) && LeasedUntil(DoAll(db, ms), r, expires)
    ensures LeasedUntil(db, r, expires) || exists k :: 0 <= k < |ms| && Lends(ms[k], r, expires)
    decreases |ms|
  {
    hide Inv, Do, Can, LeasedUntil, Lends;
    if ms != [] {
      var db', rest := Do(db, ms[0]), ms[1..];
      MoveInv(db, ms[0]);
      LendingMoves(db', rest, r, expires);
      if k :| 0 <= k < |rest| && Lends(rest[k], r, expires) {
        assert ms[k + 1] == rest[k];
      } else {
        LendingStep(db, ms[0], r, expires);
      }
    }
  }

  /**
   * The call grants the run until `expires`: a claim that hands it out, for its lease from the reading it
   * claims at, or a poll, for the lease it asks for from its own reading.
   */
  predicate Grants(db: Db, call: Call, r: RunId, expires: Time) {
    || (&& call.op.Claim? && ValidClaim(call.op.call) && HandsOut(db, call.op.call, call.clock, r)
        && expires == Reading(call.clock, ClaimStart(call.op.call, 0)) + call.op.call.lease as real)
    || (&& call.op.Supervise? && call.op.run == r && call.op.renew.Some?
        && expires == Start(call) + call.op.renew.value as real)
  }

  lemma ClearingNeverLends(ms: seq<Move>, r: RunId, expires: Time)
    requires AllClearing(ms)
    ensures forall k :: 0 <= k < |ms| ==> !Lends(ms[k], r, expires)
  {
    assert forall k :: 0 <= k < |ms| ==> Clearing(ms[k]);
  }

  lemma FailNeverLends(db: Db, q: RunId, reason: Option<Json>, c: Clock, r: RunId, expires: Time)
    ensures var p := FailPlan(db, q, reason, false, c, 0);
      p.Commit? ==> forall k :: 0 <= k < |p.moves| ==> !Lends(p.moves[k], r, expires)
  {
    hide Do, LeaseExpiredReason, CancellationDue, RetryDelay, NextAvailable;
  }

  lemma ClaimLends(db: Db, claim: ClaimCall, c: Clock, r: RunId, expires: Time, k: nat)
    requires ClaimPlan(db, claim, c, 0).Commit? && k < |ClaimPlan(db, claim, c, 0).moves|
    requires Lends(ClaimPlan(db, claim, c, 0).moves[k], r, expires)
    ensures ValidClaim(claim) && HandsOut(db, claim, c, r)
    ensures expires == Reading(c, ClaimStart(claim, 0)) + claim.lease as real
  {
    hide MaintenancePlan, ClaimPage, ClaimAll, Blank;
    MaintenanceClearing(db, claim, c, 0);
    var upkeep := MaintenancePlan(db, claim, c, 0);
    ClearingNeverLends(upkeep.moves, r, expires);
    var rows, i := ClaimPlan(db, claim, c, 0).value, k - |upkeep.moves|;
    assert k >= |upkeep.moves|;
    assert Runs(rows)[i] == r;
  }

  lemma SuperviseLends(db: Db, q: RunId, renew: Option<int>, c: Clock, r: RunId, expires: Time, k: nat)
    requires SupervisePlan(db, q, renew, c, 0).Commit? && k < |SupervisePlan(db, q, renew, c, 0).moves|
    requires Lends(SupervisePlan(db, q, renew, c, 0).moves[k], r, expires)
    ensures q == r && renew.Some? && expires == c[0] + renew.value as real
  {
    hide Do, ReapPlan, CancellationDue, NamedLeaseExpired;
    ReapClearing(db, q, c, 1);
    var reap := ReapPlan(db, q, c, 1);
    if reap.Commit? {
      ClearingNeverLends(reap.moves, r, expires);
    }
  }

  /** Only claims and polls lend. */
  lemma OnlyGrantsLend(db: Db, call: Call, r: RunId, expires: Time, k: nat)
    requires k < |Perform(db, call).moves| && Lends(Perform(db, call).moves[k], r, expires)
    ensures Grants(db, call, r, expires)
  {
    hide Do, FailPlan, SupervisePlan, ReapPlan, ReapSweepPlan, CancelSweepPlan, ClaimPlan, Page, TaskDue, ValidName,
         ValidSpawn, Resolve, AllClearing, ValidClaim, HandsOut;
    var c := call.clock;
    match call.op
    case Claim(claim) => ClaimLends(db, claim, c, r, expires, k);
    case Supervise(q, renew) => SuperviseLends(db, q, renew, c, r, expires, k);
    case Fail(q, reason) => FailNeverLends(db, q, reason, c, r, expires);
    case Reap(q) => ReapClearing(db, q, c, 0); ClearingNeverLends(Perform(db, call).moves, r, expires);
    case ReapSweep(limit, skip) =>
      ReapSweepClearing(db, limit, skip, c, 0); ClearingNeverLends(Perform(db, call).moves, r, expires);
    case CancelSweep(limit, skip) =>
      CancelSweepClearing(db, limit, skip, c, 0); ClearingNeverLends(Perform(db, call).moves, r, expires);
    case _ =>
  }

  lemma GrantedByCall(db: Db, call: Call, r: RunId, expires: Time)
    requires Inv(db) && LeasedUntil(Perform(db, call).db, r, expires)
    ensures LeasedUntil(db, r, expires) || Grants(db, call, r, expires)
  {
    hide Inv, Do, Can, Perform, LeasedUntil, Lends, Grants;
    CallReached(db, call);
    var ms := Perform(db, call).moves;
    LendingMoves(db, ms, r, expires);
    if k :| 0 <= k < |ms| && Lends(ms[k], r, expires) {
      OnlyGrantsLend(db, call, r, expires, k);
    }
  }

  lemma {:induction false} GrantedBefore(db: Db, calls: seq<Call>, r: RunId, expires: Time)
    requires Inv(db) && LeasedUntil(Replay(db, calls), r, expires) && !LeasedUntil(db, r, expires)
    ensures exists i :: 0 <= i < |calls| && Grants(Replay(db, calls[..i]), calls[i], r, expires)
    decreases |calls|
  {
    hide Inv, Perform, LeasedUntil, Grants;
    var first, rest := Perform(db, calls[0]), calls[1..];
    assert calls[..0] == [] && Replay(db, []) == db;
    if LeasedUntil(first.db, r, expires) {
      GrantedByCall(db, calls[0], r, expires);
      assert Grants(Replay(db, calls[..0]), calls[0], r, expires);
    } else {
      CallInv(db, calls[0]);
      GrantedBefore(first.db, rest, r, expires);
      var i :| 0 <= i < |rest| && Grants(Replay(first.db, rest[..i]), rest[i], r, expires);
      assert calls[..i + 1][0] == calls[0] && calls[..i + 1][1..] == rest[..i];
      assert Grants(Replay(db, calls[..i + 1]), calls[i + 1], r, expires);
    }
  }

  /**
   * After any history from an empty queue, a running run is leased until exactly what one of the claims
   * that handed it out or one of its polls granted.
   */
  lemma LeaseIsGranted(calls: seq<Call>, r: RunId)
    requires IsRunning(Replay(EMPTY, calls), r)
    ensures exists i, expires :: 0 <= i < |calls| && LeasedUntil(Replay(EMPTY, calls), r, expires)
                                 && Grants(Replay(EMPTY, calls[..i]), calls[i], r, expires)
  {
    hide Inv, Perform, Grants;
    EmptyInv();
    HistoryInv(EMPTY, calls);
    RunningHeld(Replay(EMPTY, calls), r);
    GrantedBefore(EMPTY, calls, r, Replay(EMPTY, calls).runs[r].claimExpiresAt.value);
  }

  /** Every grant to the run in the history ends by the given time. */
  ghost predicate GrantsEnd(db: Db, calls: seq<Call>, r: RunId, bound: Time) {
    forall i, e :: 0 <= i < |calls| && Grants(Replay(db, calls[..i]), calls[i], r, e) ==> e <= bound
  }

  /** Once all that was granted has passed, a run that is still running is expired, in every history. */
  lemma GrantedOut(calls: seq<Call>, r: RunId, bound: Time)
    requires GrantsEnd(EMPTY, calls, r, bound) && IsRunning(Replay(EMPTY, calls), r)
    ensures Expired(Replay(EMPTY, calls).runs[r], bound)
  {
    hide Inv, Perform, Grants;
    LeaseIsGranted(calls, r);
  }

  // ---- One lease after the last poll ----

  /** Polls of the run ask for no other lease. */
  predicate OneLease(calls: seq<Call>, r: RunId, lease: int) {
    forall i :: 0 <= i < |calls| && calls[i].op.Supervise? && calls[i].op.run == r && calls[i].op.renew.Some?
      ==> calls[i].op.renew.value == lease
  }

  /** Leased, but not beyond the given time. */
  predicate LeasedAtMost(db: Db, r: RunId, bound: Time) {
    IsRunning(db, r) && Expired(db.runs[r], bound)
  }

  lemma GrantAtMost(db: Db, call: Call, r: RunId, lease: int, expires: Time)
    requires Inv(db) && IsRunning(db, r) && Grants(db, call, r, expires) && OneLease([call], r, lease)
    ensures IsPoll(call, r, lease) && expires == Start(call) + lease as real
  {
    hide Inv, HandsOut, ValidClaim;
    if call.op.Claim? {
      HandedOutWaited(db, call.op.call, call.clock, r);
      FreshIds(db);
    }
    assert [call][0] == call;
  }

  lemma PollAtMost(db: Db, call: Call, r: RunId, lease: int, last: Time)
    requires Inv(db) && LeasedAtMost(db, r, last + lease as real) && IsRunning(Perform(db, call).db, r)
    requires OneLease([call], r, lease) && last <= Start(call)
    ensures LeasedAtMost(Perform(db, call).db, r,
                         (if IsPoll(call, r, lease) then Start(call) else last) + lease as real)
  {
    hide Inv, Do, Can, Perform, Grants, OneLease;
    var db' := Perform(db, call).db;
    CallInv(db, call);
    RunningHeld(db', r);
    var expires := db'.runs[r].claimExpiresAt.value;
    GrantedByCall(db, call, r, expires);
    if Grants(db, call, r, expires) {
      GrantAtMost(db, call, r, lease, expires);
    }
  }

  lemma {:induction false} StaysToEnd(db: Db, ms: seq<Move>, r: RunId)
    requires Enabled(db, ms) && StaysRunning(db, ms, r)
    ensures IsRunning(DoAll(db, ms), r)
    decreases |ms|
  {
    hide Do, Can;
    if ms != [] {
      StaysToEnd(Do(db, ms[0]), ms[1..], r);
    }
  }

  /**
   * For as long as it goes on running, a run is leased for at most one lease after it was last polled,
   * `last` being the poll or claim before the calls: when it is not polled any more it expires by then.
   */
  lemma {:induction false} UnpolledExpires(db: Db, now: Time, calls: seq<Call>, r: RunId, lease: int, last: Time)
    requires Inv(db) && Timed(now, calls) && last <= now && OneLease(calls, r, lease)
    requires LeasedAtMost(db, r, last + lease as real)
    requires Enabled(db, Trace(db, calls)) && StaysRunning(db, Trace(db, calls), r)
    ensures LeasedAtMost(Replay(db, calls), r, LastPoll(last, calls, r, lease) + lease as real)
    decreases |calls|
  {
    hide Inv, Do, Can, Perform, LeasedAtMost, OneLease;
    if calls != [] {
      var first, rest := Perform(db, calls[0]), calls[1..];
      CallReached(db, calls[0]);
      CallInv(db, calls[0]);
      HistoryReached(first.db, End(calls[0]), rest);
      StaysConcat(db, first.moves, Trace(first.db, rest), r);
      StaysToEnd(db, first.moves, r);
      OneLeaseSplit(calls, r, lease);
      PollAtMost(db, calls[0], r, lease, last);
      ClockEnds(calls[0]);
      UnpolledExpires(first.db, End(calls[0]), rest, r, lease,
                      if IsPoll(calls[0], r, lease) then Start(calls[0]) else last);
    }
  }

  lemma OneLeaseSplit(calls: seq<Call>, r: RunId, lease: int)
    requires OneLease(calls, r, lease) && calls != []
    ensures OneLease([calls[0]], r, lease) && OneLease(calls[1..], r, lease)
  {
  }

  lemma ClockEnds(call: Call)
    ensures Start(call) <= End(call)
  {
  }

  /** From a claim on. */
  lemma UnpolledClaimExpires(db: Db, claim: ClaimCall, c: Clock, r: RunId, calls: seq<Call>)
    requires Inv(db) && HandsOut(db, claim, c, r)
    requires ValidClaim(claim) && Timed(c[|c| - 1], calls) && OneLease(calls, r, claim.lease)
    requires var db' := ClaimPlan(db, claim, c, 0).db;
      Enabled(db', Trace(db', calls)) && StaysRunning(db', Trace(db', calls), r)
    ensures LeasedAtMost(Replay(ClaimPlan(db, claim, c, 0).db, calls), r,
                         LastPoll(Reading(c, ClaimStart(claim, 0)), calls, r, claim.lease) + claim.lease as real)
  {
    hide Inv, Do, Can, ClaimPlan, ValidClaim, StaysRunning, Perform, OneLease;
    HandedOutWaited(db, claim, c, r);
    ClaimedUntil(db, claim, c, r);
    UnpolledExpires(ClaimPlan(db, claim, c, 0).db, c[|c| - 1], calls, r, claim.lease, Reading(c, ClaimStart(claim, 0)));
  }

  lemma ClaimedUntil(db: Db, claim: ClaimCall, c: Clock, r: RunId)
    requires HandsOut(db, claim, c, r) && ValidClaim(claim)
    ensures LeasedUntil(ClaimPlan(db, claim, c, 0).db, r, Reading(c, ClaimStart(claim, 0)) + claim.lease as real)
    ensures Reading(c, ClaimStart(claim, 0)) <= c[|c| - 1]
  {
    hide ClaimPlan, MaintenancePlan, Claimable, IsPage, ValidClaim, Eligible, Touched, Describes;
    ClaimRefines(db, claim, c, 0);
  }
}
