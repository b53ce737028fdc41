/** A run at the last attempt number cannot be failed: it stays, and blocks the claims that reach it. */
module Exhaustion {
  import opened Basics
  import opened Policies
  import opened Selection
  import opened Storage
  import opened Invariant
  import opened Plans
  import opened Sweeps
  import opened History
  import opened Fencing
  import opened Claiming
  import opened Witnesses

  // ---- What a stuck run does to the calls that meet it ----

  /** Failing a stuck run raises: by its worker while the lease is valid, by the reaper afterwards. */
  lemma StuckRaises(db: Db, r: RunId, reason: Json, c: Clock, k: nat)
    requires Inv(db) && Stuck(db, r, Reading(c, k))
    ensures FailPlan(db, r, Some(reason), false, c, k)
      == Raise(if Expired(db.runs[r], Reading(c, k)) then LeaseLost else IntegerOutOfRange)
    ensures Expired(db.runs[r], Reading(c, k)) ==>
      FailPlan(db, r, Some(LeaseExpiredReason(db.runs[r])), true, c, k) == Raise(IntegerOutOfRange)
  {
    hide Inv, Do, Can, CancellationDue, RetryDelay, NextAvailable, LeaseExpiredReason;
  }

  lemma StuckStep(db: Db, m: Move, r: RunId, now: Time)
    requires Inv(db) && Can(db, m) && now <= m.at
    requires r in db.runs && Expired(db.runs[r], now) && db.runs[r].attempt >= INT_MAX
    ensures r in Do(db, m).runs
    ensures Do(db, m).runs[r] == db.runs[r] || (m.CancelTask? && Do(db, m).runs[r] == CancelledRun(db.runs[r]))
  {
    hide Inv, NextAvailable, RetryDelay, CancellationDue, LeaseExpiredReason;
    FreshIds(db);
    Flat(db, m);
    assert m.RemoveTask? ==> db.runs[r].taskId != m.task by { RunningTaskActive(db, r); }
  }

  lemma {:induction false} StuckMoves(db: Db, ms: seq<Move>, r: RunId, now: Time, hi: Time)
    requires Inv(db) && Enabled(db, ms) && Timely(now, ms, hi)
    requires r in db.runs && Expired(db.runs[r], now) && db.runs[r].attempt >= INT_MAX
    ensures r in DoAll(db, ms).runs ==>
      DoAll(db, ms).runs[r] == db.runs[r] || DoAll(db, ms).runs[r] == CancelledRun(db.runs[r])
    decreases |ms|
  {
    hide Inv, Do, Can;
    if ms != [] {
      var db' := Do(db, ms[0]);
      MoveInv(db, ms[0]);
      StuckStep(db, ms[0], r, now);
      if db'.runs[r] == db.runs[r] {
        StuckMoves(db', ms[1..], r, ms[0].at, hi);
      } else {
        FinishedRunMoves(db', ms[1..], r);
      }
    }
  }

  /** In every history an expired run at the last attempt number stays as it is, unless its task is cancelled. */
  lemma StuckStays(db: Db, now: Time, calls: seq<Call>, r: RunId)
    requires Inv(db) && Timed(now, calls)
    requires r in db.runs && Expired(db.runs[r], now) && db.runs[r].attempt >= INT_MAX
    ensures r in Replay(db, calls).runs ==>
      Replay(db, calls).runs[r] == db.runs[r] || Replay(db, calls).runs[r] == CancelledRun(db.runs[r])
  {
    hide Inv, Do, Can, Perform;
    HistoryReached(db, now, calls);
    StuckMoves(db, Trace(db, calls), r, now, Now(now, calls));
  }

  /** The runs that the reaping sweep of a claim selects, after its deadline sweep. */
  function Swept(db: Db, call: ClaimCall, c: Clock): seq<RunId>
    requires ValidClaim(call) && CancelSweepPlan(db, call.quantity, call.skipDue, c, 1).Commit?
  {
    var mid := CancelSweepPlan(db, call.quantity, call.skipDue, c, 1).db;
    Page(ExpiredRuns(mid, Reading(c, ReapStart(call, 0)), call.skipExpired), call.quantity)
  }

  /** A run at the last attempt number that a sweep selects before its deadline makes the whole claim raise. */
  lemma StuckBlocksClaim(db: Db, call: ClaimCall, c: Clock, r: RunId)
    requires Inv(db) && ValidClaim(call) && r in db.runs && db.runs[r].taskId in db.tasks
    requires db.runs[r].attempt >= INT_MAX && !TaskDue(db.tasks[db.runs[r].taskId], c[|c| - 1])
    requires CancelSweepPlan(db, call.quantity, call.skipDue, c, 1).Commit? && r in Swept(db, call, c)
    ensures ClaimPlan(db, call, c, 0) == Raise(IntegerOutOfRange)
  {
    hide Inv, CancelSweepPlan, ReapSweepPlan, ClaimPage, ClaimAll, Page, Blank, Stuck, KeepsEligible, CancellationDue;
    var start, mid := ReapStart(call, 0), CancelSweepPlan(db, call.quantity, call.skipDue, c, 1).db;
    var ids := Swept(db, call, c);
    CancelSweepKeeps(db, call.quantity, call.skipDue, c, 1, Reading(c, 1));
    SweepKeepsRow(db, call, c, r);
    var i :| 0 <= i < |ids| && ids[i] == r;
    StillStuck(mid, r, c, start + 1 + 3 * i + 1);
    assert !NoneStuck(mid, ids, c, start + 1);
    ReapSweepExact(mid, call.quantity, call.skipExpired, c, start);
  }

  lemma StillStuck(db: Db, r: RunId, c: Clock, k: nat)
    requires Inv(db) && r in db.runs && db.runs[r].state == Running && db.runs[r].attempt >= INT_MAX
    requires db.runs[r].taskId in db.tasks && !TaskDue(db.tasks[db.runs[r].taskId], c[|c| - 1])
    ensures Stuck(db, r, Reading(c, k))
  {
    hide Inv;
    RunningHeld(db, r);
  }

  /**
   * For good: after any history, as long as its task has not been cancelled, every claim whose sweep
   * selects the run before the task's deadline raises as a whole.
   */
  lemma StuckBlocksForGood(db: Db, now: Time, calls: seq<Call>, r: RunId, call: ClaimCall, c: Clock)
    requires Inv(db) && Timed(now, calls)
    requires r in db.runs && Expired(db.runs[r], now) && db.runs[r].attempt >= INT_MAX
    requires var db' := Replay(db, calls);
      && r in db'.runs && db'.runs[r].state != Cancelled && db'.runs[r].taskId in db'.tasks
      && !TaskDue(db'.tasks[db'.runs[r].taskId], c[|c| - 1])
      && ValidClaim(call) && CancelSweepPlan(db', call.quantity, call.skipDue, c, 1).Commit?
      && r in Swept(db', call, c)
    ensures ClaimPlan(Replay(db, calls), call, c, 0) == Raise(IntegerOutOfRange)
  {
    hide Inv, Perform, TaskDue, ValidClaim, CancelSweepPlan, ClaimPlan, Swept;
    StuckStays(db, now, calls, r);
    HistoryInv(db, calls);
    StuckBlocksClaim(Replay(db, calls), call, c, r);
  }

  /** The deadline sweep leaves the rows of tasks that it does not cancel. */
  lemma SweepKeepsRow(db: Db, call: ClaimCall, c: Clock, r: RunId)
    requires Inv(db) && ValidClaim(call) && r in db.runs && db.runs[r].taskId in db.tasks
    requires CancelSweepPlan(db, call.quantity, call.skipDue, c, 1).Commit? && r in Swept(db, call, c)
    ensures var mid := CancelSweepPlan(db, call.quantity, call.skipDue, c, 1).db;
      && Inv(mid) && r in mid.runs && mid.runs[r] == db.runs[r] && mid.runs[r].state == Running
      && mid.runs[r].taskId in mid.tasks && mid.tasks[mid.runs[r].taskId] == db.tasks[db.runs[r].taskId]
  {
    hide Inv, Page, Blank, CancelEach, KeepsEligible;
    var ids := Page(DueTasks(db, Reading(c, 1), call.skipDue), call.quantity);
    CancelSweepKeeps(db, call.quantity, call.skipDue, c, 1, Reading(c, 1));
    CancelEachRows(db, ids, c, 2, r);
  }

  /** Cancelling tasks leaves each run as it is, with its task, or cancelled. */
  lemma {:induction false} CancelEachRows(db: Db, ids: seq<TaskId>, c: Clock, k: nat, r: RunId)
    requires Inv(db) && r in db.runs && db.runs[r].taskId in db.tasks
    ensures var p := CancelEach(db, ids, c, k);
      p.Commit? && r in p.db.runs && p.db.runs[r].state == Running ==>
        && p.db.runs[r] == db.runs[r] && db.runs[r].taskId in p.db.tasks
        && p.db.tasks[db.runs[r].taskId] == db.tasks[db.runs[r].taskId]
    decreases |ids|
  {
    hide Inv, Do;
    if ids != [] {
      var first := CancelPlan(db, ids[0], c, k);
      if first.Commit? && first.moves != [] {
        MoveInv(db, first.moves[0]);
        CancelOne(db, first.moves[0], r);
        CancelEachRows(first.db, ids[1..], c, k + 1, r);
      } else if first.Commit? {
        CancelEachRows(db, ids[1..], c, k + 1, r);
      }
    }
  }

  lemma CancelOne(db: Db, m: Move, r: RunId)
    requires Inv(db) && Can(db, m) && m.CancelTask? && r in db.runs && db.runs[r].taskId in db.tasks
    ensures var db' := Do(db, m);
      && r in db'.runs && db'.runs[r].taskId == db.runs[r].taskId && db.runs[r].taskId in db'.tasks
      && (db'.runs[r].state == Running ==>
            db'.runs[r] == db.runs[r] && db'.tasks[db.runs[r].taskId] == db.tasks[db.runs[r].taskId])
  {
    hide Inv;
    Flat(db, m);
    if db.runs[r].state == Running {
      RunningTaskActive(db, r);
    }
  }

  // ---- Such a run is reached: by failing one task and retrying it by hand until the counter is used up ----

  function Stopped(attempt: int): Run {
    Run(0, attempt, Failed, None, None, 0.0, Some(0.0), None, Some(0.0), None, Some(JNull))
  }

  /** The runs of the one task: all failed but the last. */
  function UsedRun(attempt: int, n: nat, last: Run): Run {
    if attempt < n then Stopped(attempt) else last
  }

  /** One task with n attempts, the last one in the given row. */
  ghost function Used(n: nat, started: Option<Time>, last: Run): Db
    requires n >= 1
  {
    var task := Task("t", JNull, None, NoRetry, 1, n, None, 0.0, started, last.state, n, n, None, None);
    Db(map[0 := task], map r: nat | 1 <= r <= n :: UsedRun(r, n, last), map[], n + 1)
  }

  function PendingRun(n: nat): Run {
    NewRun(0, n, Pending, 0.0)
  }

  function RunningRun(n: nat): Run {
    Run(0, n, Running, Some("w"), Some(1.0), 0.0, Some(0.0), None, None, None, None)
  }

  /** One round: claim the run, fail it, retry the task by hand; all at time 0. */
  function Round(n: nat): seq<Call> {
    [Take(1, 0.0), Call(Fail(n, Some(JNull)), [0.0]), Call(Retry(0), [0.0])]
  }

  function Rounds(n: nat): seq<Call>
    requires n >= 1
  {
    if n == 1 then [Submit(NoRetry, None, 1)] else Rounds(n - 1) + Round(n - 1)
  }

  lemma UsedQuiet(n: nat, started: Option<Time>)
    requires n >= 1
    ensures var db := Used(n, started, PendingRun(n));
      && DueTasks(db, 0.0, {}) == map[] && ExpiredRuns(db, 0.0, {}) == map[]
      && Claimable(db, ["t"], 0.0, {}).Keys == {n}
  {
    var db := Used(n, started, PendingRun(n));
    assert n in db.runs && Eligible(db, n, 0.0);
  }

  lemma UsedClaimed(n: nat, started: Option<Time>)
    requires n >= 1 && (started.Some? ==> started == Some(0.0))
    ensures ClaimAll(Used(n, started, PendingRun(n)), [n], "w", 1.0, 0.0) == Used(n, Some(0.0), RunningRun(n))
  {
    var after, goal := ClaimAll(Used(n, started, PendingRun(n)), [n], "w", 1.0, 0.0), Used(n, Some(0.0), RunningRun(n));
    assert after.runs == goal.runs;
    assert after.tasks == goal.tasks;
  }

  lemma UsedTaken(n: nat, started: Option<Time>)
    requires n >= 1 && (started.Some? ==> started == Some(0.0))
    ensures Perform(Used(n, started, PendingRun(n)), Take(1, 0.0)).db == Used(n, Some(0.0), RunningRun(n))
  {
    hide Used, ClaimAll, Perform, DueTasks, ExpiredRuns, Claimable;
    UsedQuiet(n, started);
    TakeSole(Used(n, started, PendingRun(n)), 1, 0.0, n);
    UsedClaimed(n, started);
    assert 0.0 + 1 as real == 1.0;
  }

  lemma UsedFailed(n: nat)
    requires 1 <= n < INT_MAX
    ensures Perform(Used(n, Some(0.0), RunningRun(n)), Call(Fail(n, Some(JNull)), [0.0])).db
      == Used(n, Some(0.0), Stopped(n))
  {
    hide LeaseExpiredReason;
    var after := Perform(Used(n, Some(0.0), RunningRun(n)), Call(Fail(n, Some(JNull)), [0.0])).db;
    assert after.runs == Used(n, Some(0.0), Stopped(n)).runs;
  }

  lemma UsedRetried(n: nat)
    requires 1 <= n < INT_MAX
    ensures Perform(Used(n, Some(0.0), Stopped(n)), Call(Retry(0), [0.0])).db
      == Used(n + 1, Some(0.0), PendingRun(n + 1))
  {
    var after := Perform(Used(n, Some(0.0), Stopped(n)), Call(Retry(0), [0.0])).db;
    assert after.runs == Used(n + 1, Some(0.0), PendingRun(n + 1)).runs;
  }

  lemma {:induction false} TimedConcat(now: Time, a: seq<Call>, b: seq<Call>)
    requires Timed(now, a) && Timed(Now(now, a), b)
    ensures Timed(now, a + b) && Now(now, a + b) == Now(Now(now, a), b)
    decreases |a|
  {
    if a == [] {
      assert a + b == b;
    } else {
      TimedConcat(End(a[0]), a[1..], b);
      assert (a + b)[1..] == a[1..] + b;
    }
  }

  lemma OneCall(db: Db, a: Call)
    ensures Replay(db, [a]) == Perform(db, a).db && Timed(Start(a), [a]) && Now(Start(a), [a]) == End(a)
  {
    hide Perform;
    assert [a][1..] == [];
    assert Replay(Perform(db, a).db, []) == Perform(db, a).db && Timed(End(a), []) && Now(End(a), []) == End(a);
  }

  /** One round leads from a pending attempt to the next one. */
  lemma RoundReached(n: nat, started: Option<Time>)
    requires 1 <= n < INT_MAX && (started.Some? ==> started == Some(0.0))
    ensures Replay(Used(n, started, PendingRun(n)), Round(n)) == Used(n + 1, Some(0.0), PendingRun(n + 1))
    ensures Timed(0.0, Round(n)) && Now(0.0, Round(n)) == 0.0
  {
    hide Used, Perform;
    var db, calls := Used(n, started, PendingRun(n)), Round(n);
    UsedTaken(n, started);
    UsedFailed(n);
    UsedRetried(n);
    assert calls == [calls[0]] + ([calls[1]] + [calls[2]]);
    OneCall(db, calls[0]);
    OneCall(Used(n, Some(0.0), RunningRun(n)), calls[1]);
    OneCall(Used(n, Some(0.0), Stopped(n)), calls[2]);
    ReplayConcat(Used(n, Some(0.0), RunningRun(n)), [calls[1]], [calls[2]]);
    TimedConcat(0.0, [calls[1]], [calls[2]]);
    ReplayConcat(db, [calls[0]], [calls[1]] + [calls[2]]);
    TimedConcat(0.0, [calls[0]], [calls[1]] + [calls[2]]);
  }

  lemma FirstReached()
    ensures Replay(EMPTY, [Submit(NoRetry, None, 1)]) == Used(1, None, PendingRun(1))
    ensures Timed(0.0, [Submit(NoRetry, None, 1)]) && Now(0.0, [Submit(NoRetry, None, 1)]) == 0.0
  {
    hide Perform;
    SubmittedReached(NoRetry, None, 1);
    OneCall(EMPTY, Submit(NoRetry, None, 1));
    assert Used(1, None, PendingRun(1)).runs == Submitted(NoRetry, None, 1).runs;
  }

  lemma {:induction false} RoundsReached(n: nat)
    requires 1 <= n <= INT_MAX
    ensures Replay(EMPTY, Rounds(n)) == Used(n, if n == 1 then None else Some(0.0), PendingRun(n))
    ensures Timed(0.0, Rounds(n)) && Now(0.0, Rounds(n)) == 0.0
    decreases n
  {
    hide Perform, Used, Round;
    if n == 1 {
      FirstReached();
    } else {
      RoundsReached(n - 1);
      RoundReached(n - 1, if n - 1 == 1 then None else Some(0.0));
      ReplayConcat(EMPTY, Rounds(n - 1), Round(n - 1));
      TimedConcat(0.0, Rounds(n - 1), Round(n - 1));
    }
  }

  /** One task that has used up every attempt number a 32-bit integer can hold; its lease ends at 1. */
  ghost function Exhausted(): Db {
    Used(INT_MAX, Some(0.0), RunningRun(INT_MAX))
  }

  ghost function ExhaustedHistory(): seq<Call> {
    Rounds(INT_MAX) + [Take(1, 0.0)]
  }

  /** A history from the empty queue leads there. */
  lemma ExhaustedReached()
    ensures Timed(0.0, ExhaustedHistory()) && Replay(EMPTY, ExhaustedHistory()) == Exhausted() && Inv(Exhausted())
  {
    hide Perform, Rounds, Used, Inv;
    RoundsReached(INT_MAX);
    UsedTaken(INT_MAX, Some(0.0));
    OneCall(Used(INT_MAX, Some(0.0), PendingRun(INT_MAX)), Take(1, 0.0));
    ReplayConcat(EMPTY, Rounds(INT_MAX), [Take(1, 0.0)]);
    TimedConcat(0.0, Rounds(INT_MAX), [Take(1, 0.0)]);
    EmptyInv();
    HistoryInv(EMPTY, ExhaustedHistory());
  }

  lemma ExhaustedExpired(at: Time)
    requires at >= 1.0
    ensures INT_MAX in Exhausted().runs && Exhausted().runs[INT_MAX] == RunningRun(INT_MAX)
    ensures Expired(RunningRun(INT_MAX), at)
    ensures 0 in Exhausted().tasks && Exhausted().tasks[0].cancellation.None?
    ensures ExpiredRuns(Exhausted(), at, {}).Keys == {INT_MAX}
  {
  }

  /** Nothing is due, so the deadline sweep of a claim changes nothing. */
  lemma NothingDue(limit: int, c: Clock, k: nat)
    requires limit > 0
    ensures CancelSweepPlan(Exhausted(), limit, {}, c, k) == Unchanged(Exhausted(), 0)
  {
    assert DueTasks(Exhausted(), Reading(c, k), {}) == map[];
  }

  /** On that reached queue every claim with nothing locked raises, whatever its size and time after the lease. */
  lemma ExhaustedBlocksClaims(call: ClaimCall, c: Clock)
    requires ValidClaim(call) && call.skipDue == {} && call.skipExpired == {} && c[0] >= 1.0
    ensures ClaimPlan(Exhausted(), call, c, 0) == Raise(IntegerOutOfRange)
  {
    hide Exhausted, ClaimPlan, Inv, Page, Blank;
    var db, start := Exhausted(), ReapStart(call, 0);
    ExhaustedReached();
    NothingDue(call.quantity, c, 1);
    ExhaustedExpired(Reading(c, start));
    var keys := ExpiredRuns(db, Reading(c, start), {});
    assert |keys| == |keys.Keys| == 1;
    assert Swept(db, call, c)[0] in Swept(db, call, c);
    StuckBlocksClaim(db, call, c, INT_MAX);
  }
}
