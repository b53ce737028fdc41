/** When a failed run is retried: the delay as a law from attempt to attempt, and the row that is added. */
module Retries {
  import opened Basics
  import opened Policies
  import opened Storage
  import opened Invariant
  import opened Plans
  import opened Sweeps
  import opened Limits

  function Least(a: real, b: real): real {
    if a < b then a else b
  }

  // ---- The delay, from one attempt to the next ----

  /** No retry is immediate, a fixed one takes its base, and an exponential one starts at its base or cap. */
  lemma FirstDelay(s: Strategy, attempt: int)
    requires ValidStrategy(s) && attempt >= 1
    ensures s.NoRetry? ==> RetryDelay(s, attempt) == Ok(0.0)
    ensures s.Fixed? ==> RetryDelay(s, attempt) == Ok(s.base)
    ensures s.Exponential? ==> RetryDelay(s, 1) == Ok(Least(s.base, Cap(s)))
  {
    assert s.Exponential? ==> Power(s.factor, 0) == 1.0 && Scaled(s.base, s.factor, 0) == s.base;
  }

  lemma ScaledStep(base: real, x: real, m: nat)
    ensures Scaled(base, x, m + 1) == x * Scaled(base, x, m)
  {
    PowerStep(x, m);
  }

  /** The delay of an exponential strategy is the saturated product. */
  lemma DelayIs(s: Strategy, attempt: nat)
    requires ValidStrategy(s) && s.Exponential? && s.base > 0.0 && Cap(s) > 0.0
    ensures Delay(s, attempt + 1) == Saturate(Power(s.factor, attempt), Scaled(s.base, s.factor, attempt), Cap(s))
    ensures InDoubleRange(s.base)
  {
  }

  lemma RangeBelow(low: real, x: real, high: real)
    requires InDoubleRange(low) && low <= x <= high && InDoubleRange(high)
    ensures InDoubleRange(x)
  {
  }

  lemma OneInRange()
    ensures InDoubleRange(1.0)
  {
  }

  lemma Grown(x: real, a: real, product: real)
    requires x >= 1.0 && a > 0.0 && product == x * a
    ensures product >= a
  {
    assert (x - 1.0) * a >= 0.0;
  }

  /** One more factor on both sides of the saturation. */
  lemma SaturateStep(x: real, cap: real, base: real, p: real, q: real, v: real, w: real, previous: real, grown: real)
    requires x >= 1.0 && cap > 0.0 && InDoubleRange(base) && base > 0.0
    requires 1.0 <= p <= q && base <= v <= w && w == x * v
    requires previous == Saturate(p, v, cap) && grown == x * previous
    ensures Saturate(q, w, cap) == if InDoubleRange(q) && InDoubleRange(w) then Least(grown, cap) else cap
  {
    hide InDoubleRange;
    if InDoubleRange(q) && InDoubleRange(w) {
      OneInRange();
      RangeBelow(1.0, p, q);
      RangeBelow(base, v, w);
      if v < cap {
        assert previous == v && grown == w;
      } else {
        assert previous == cap;
        Grown(x, cap, grown);
      }
    }
  }

  /**
   * With a factor of at least one each delay is the factor times the one before, up to the cap, for as
   * long as the computed numbers are doubles; from then on it is the cap.
   */
  lemma NextDelay(s: Strategy, attempt: nat)
    requires ValidStrategy(s) && s.Exponential? && s.factor >= 1.0 && s.base > 0.0 && Cap(s) > 0.0 && attempt >= 1
    ensures RetryDelay(s, attempt + 1)
      == Ok(if InDoubleRange(Power(s.factor, attempt)) && InDoubleRange(Scaled(s.base, s.factor, attempt))
            then Least(s.factor * Delay(s, attempt), Cap(s)) else Cap(s))
  {
    hide RetryDelay, Saturate, ValidStrategy, Power, Scaled, Delay, InDoubleRange, Least;
    ScaledGrows(s.base, s.factor, attempt - 1, attempt);
    ScaledStep(s.base, s.factor, attempt - 1);
    DelayIs(s, attempt - 1);
    DelayIs(s, attempt);
    DelayOk(s, attempt + 1);
    SaturateStep(s.factor, Cap(s), s.base, Power(s.factor, attempt - 1), Power(s.factor, attempt),
                 Scaled(s.base, s.factor, attempt - 1), Scaled(s.base, s.factor, attempt), Delay(s, attempt),
                 s.factor * Delay(s, attempt));
  }

  lemma DelayOk(s: Strategy, attempt: nat)
    requires ValidStrategy(s) && attempt >= 1
    ensures RetryDelay(s, attempt) == Ok(Delay(s, attempt))
  {
  }

  /** With any factor, a delay computed below the cap is the factor times the one computed before. */
  lemma NextComputed(s: Strategy, attempt: nat)
    requires ValidStrategy(s) && s.Exponential? && s.base > 0.0 && Cap(s) > 0.0 && attempt >= 1
    requires Computed(s, attempt - 1) && Computed(s, attempt)
    ensures Delay(s, attempt + 1) == s.factor * Delay(s, attempt)
  {
    ScaledStep(s.base, s.factor, attempt - 1);
  }

  // ---- What a failure leaves ----

  /** The failed run's own row. */
  predicate FailedAt(before: Run, after: Run, reason: Json, at: Time) {
    after == before.(state := Failed, failedAt := Some(at), failureReason := Some(reason), claimedBy := None,
                     claimExpiresAt := None)
  }

  /** An attempt nobody has touched yet. */
  predicate Fresh(run: Run, t: TaskId, attempt: int, availableAt: Time) {
    && run.taskId == t && run.attempt == attempt && run.availableAt == availableAt
    && run.claimedBy == None && run.claimExpiresAt == None && run.startedAt == None
    && run.completedAt == None && run.failedAt == None && run.result == None && run.failureReason == None
  }

  /** The time at which the next attempt of a failing run would be available. */
  function RetryTime(task: Task, attempt: int, at: Time): Time
    requires RetryDelay(task.retry, attempt).Ok?
  {
    at + RetryDelay(task.retry, attempt).value
  }

  lemma NextIsRetryTime(task: Task, attempt: int, at: Time)
    requires TaskShape(task) && attempt >= 1
    ensures RetryDelay(task.retry, attempt).Ok? && RetryDelay(task.retry, attempt).value >= 0.0
    ensures NextAvailable(task, attempt, at) == RetryTime(task, attempt, at)
  {
    hide RetryDelay, ValidName, ValidStrategy;
    StoredDelay(task, attempt);
  }

  /** A failure of a held run leads to a retry, on these conditions alone. */
  predicate Retried(task: Task, attempt: int, at: Time)
    requires RetryDelay(task.retry, attempt).Ok?
  {
    && task.retry != NoRetry && attempt < task.maxAttempts
    && !PastLimit(task, at) && !PastLimit(task, RetryTime(task, attempt, at))
  }

  lemma FailingHeld(db: Db, r: RunId, reason: Json, expectExpired: bool, c: Clock, k: nat)
    requires Inv(db) && (expectExpired && r in db.runs ==> reason == LeaseExpiredReason(db.runs[r]))
    requires FailPlan(db, r, Some(reason), expectExpired, c, k).Commit?
    ensures Held(db, r) && TaskShape(TaskOfRun(db, r)) && db.runs[r].attempt >= 1
    ensures db.runs[r].attempt == TaskOfRun(db, r).attempts
  {
    hide Inv, Do, Can, RetryDelay, NextAvailable, LeaseExpiredReason, CancellationDue;
    assert Held(db, r);
    RunningHeld(db, r);
  }

  /** Which transition a committed failure is. */
  lemma FailureMove(db: Db, r: RunId, reason: Json, expectExpired: bool, c: Clock, k: nat)
    requires Inv(db) && (expectExpired && r in db.runs ==> reason == LeaseExpiredReason(db.runs[r]))
    requires FailPlan(db, r, Some(reason), expectExpired, c, k).Commit?
    ensures Held(db, r) && RetryDelay(TaskOfRun(db, r).retry, db.runs[r].attempt).Ok?
    ensures var p := FailPlan(db, r, Some(reason), expectExpired, c, k);
      && |p.moves| == 1 && Can(db, p.moves[0]) && p.db == Do(db, p.moves[0])
      && (p.moves[0].FailAndRetry? <==> Retried(TaskOfRun(db, r), db.runs[r].attempt, Reading(c, k)))
      && (p.moves[0].FailAndRetry? ==> p.moves[0] == FailAndRetry(r, reason, expectExpired, Reading(c, k)))
      && (p.moves[0].FailFinally? || p.moves[0].FailAndCancel? || p.moves[0].FailAndRetry? || p.moves[0].CancelTask?)
  {
    hide Inv, RetryDelay, LeaseExpiredReason, TaskDue, PastLimit, NextAvailable, Do, ValidName, ValidStrategy;
    FailingHeld(db, r, reason, expectExpired, c, k);
    var run, task := db.runs[r], TaskOfRun(db, r);
    NextIsRetryTime(task, run.attempt, Reading(c, k));
    DueIff(task, Reading(c, k));
    DueIff(task, RetryTime(task, run.attempt, Reading(c, k)));
  }

  /** What becomes of the task of a run that failed. */
  function Fate(task: Task, attempt: int, at: Time): State
    requires RetryDelay(task.retry, attempt).Ok?
  {
    if PastLimit(task, at) then Cancelled
    else if task.retry == NoRetry || attempt >= task.maxAttempts then Failed
    else if PastLimit(task, RetryTime(task, attempt, at)) then Cancelled
    else if RetryDelay(task.retry, attempt).value <= 0.0 then Pending
    else Sleeping
  }

  lemma FateOfMove(db: Db, m: Move, r: RunId)
    requires Inv(db) && Can(db, m) && Held(db, r) && Ends(db, m, r)
    requires RetryDelay(TaskOfRun(db, r).retry, db.runs[r].attempt).Ok?
    requires m.FailAndRetry? ==>
      NextAvailable(TaskOfRun(db, r), db.runs[r].attempt, m.at) == RetryTime(TaskOfRun(db, r), db.runs[r].attempt, m.at)
    ensures var t, db' := db.runs[r].taskId, Do(db, m);
      && t in db'.tasks && r in db'.runs
      && (m.CancelTask? ==> db'.tasks[t].state == Cancelled && db'.runs[r].state == Cancelled)
      && (m.FailFinally? ==> db'.tasks[t].state == Failed) && (m.FailAndCancel? ==> db'.tasks[t].state == Cancelled)
      && (m.FailAndRetry? ==>
            db'.tasks[t].state
            == if RetryDelay(TaskOfRun(db, r).retry, db.runs[r].attempt).value <= 0.0 then Pending else Sleeping)
      && (!m.CancelTask? ==> FailedAt(db.runs[r], db'.runs[r], m.reason, m.at))
  {
    hide Inv, RetryDelay, LeaseExpiredReason, TaskDue, NextAvailable;
    FreshIds(db);
  }

  /**
   * A committed failure: a task past its limit is cancelled with its run and the failure is not recorded;
   * otherwise the run fails with the given reason at the failure's reading, and its task fails when the
   * budget is spent, is cancelled when the retry would come too late, and waits for the retry otherwise.
   */
  lemma FailureFate(db: Db, r: RunId, reason: Json, expectExpired: bool, c: Clock, k: nat)
    requires Inv(db) && (expectExpired && r in db.runs ==> reason == LeaseExpiredReason(db.runs[r]))
    requires FailPlan(db, r, Some(reason), expectExpired, c, k).Commit?
    ensures Held(db, r) && RetryDelay(TaskOfRun(db, r).retry, db.runs[r].attempt).Ok?
    ensures var db', t := FailPlan(db, r, Some(reason), expectExpired, c, k).db, db.runs[r].taskId;
      && t in db'.tasks && r in db'.runs
      && db'.tasks[t].state == Fate(TaskOfRun(db, r), db.runs[r].attempt, Reading(c, k))
      && (if PastLimit(TaskOfRun(db, r), Reading(c, k)) then db'.runs[r].state == Cancelled
          else FailedAt(db.runs[r], db'.runs[r], reason, Reading(c, k)))
  {
    hide Inv, RetryDelay, LeaseExpiredReason, TaskDue, PastLimit, NextAvailable, Do, ValidName, ValidStrategy, FailedAt,
         RetryTime;
    FailingHeld(db, r, reason, expectExpired, c, k);
    var run, task := db.runs[r], TaskOfRun(db, r);
    NextIsRetryTime(task, run.attempt, Reading(c, k));
    DueIff(task, Reading(c, k));
    DueIff(task, RetryTime(task, run.attempt, Reading(c, k)));
    FateOfMove(db, FailPlan(db, r, Some(reason), expectExpired, c, k).moves[0], r);
  }

  lemma NoNewRun(db: Db, m: Move)
    requires Inv(db) && Can(db, m) && (m.FailFinally? || m.FailAndCancel? || m.CancelTask?)
    ensures db.nextId !in Do(db, m).runs
  {
    hide Inv, RetryDelay, LeaseExpiredReason, TaskDue, NextAvailable;
    FreshIds(db);
    Flat(db, m);
  }

  lemma RetryRows(db: Db, m: Move)
    requires Inv(db) && Can(db, m) && m.FailAndRetry? && Held(db, m.run)
    requires RetryDelay(TaskOfRun(db, m.run).retry, db.runs[m.run].attempt).Ok?
    requires NextAvailable(TaskOfRun(db, m.run), db.runs[m.run].attempt, m.at)
      == RetryTime(TaskOfRun(db, m.run), db.runs[m.run].attempt, m.at)
    requires db.runs[m.run].attempt == TaskOfRun(db, m.run).attempts
    ensures RetryRow(db, Do(db, m), m.run, m.reason, m.at)
  {
    hide Inv, RetryDelay, LeaseExpiredReason, TaskDue, NextAvailable;
    FreshIds(db);
  }

  /** The rows after a retried failure. */
  predicate RetryRow(db: Db, db': Db, r: RunId, reason: Json, at: Time)
    requires Held(db, r) && RetryDelay(TaskOfRun(db, r).retry, db.runs[r].attempt).Ok?
  {
    var run, task, t := db.runs[r], TaskOfRun(db, r), db.runs[r].taskId;
    var delay := RetryDelay(task.retry, run.attempt).value;
    && r in db'.runs && FailedAt(run, db'.runs[r], reason, at)
    && db.nextId in db'.runs && Fresh(db'.runs[db.nextId], t, run.attempt + 1, at + delay)
    && db'.runs[db.nextId].state == (if delay <= 0.0 then Pending else Sleeping)
    && t in db'.tasks
    && db'.tasks[t] == task.(state := db'.runs[db.nextId].state, attempts := run.attempt + 1,
                             lastAttemptRun := db.nextId)
  }

  /**
   * A committed failure is retried exactly on the conditions of `Retried`. The new row is then available
   * at the failure's reading plus the strategy's delay, and pending exactly when that delay is zero; the
   * failed row keeps the reason and the reading, and the task points at the new row.
   */
  lemma RetryScheduled(db: Db, r: RunId, reason: Json, expectExpired: bool, c: Clock, k: nat)
    requires Inv(db) && (expectExpired && r in db.runs ==> reason == LeaseExpiredReason(db.runs[r]))
    requires FailPlan(db, r, Some(reason), expectExpired, c, k).Commit?
    ensures Held(db, r) && RetryDelay(TaskOfRun(db, r).retry, db.runs[r].attempt).Ok?
    ensures RetryDelay(TaskOfRun(db, r).retry, db.runs[r].attempt).value >= 0.0
    ensures var db' := FailPlan(db, r, Some(reason), expectExpired, c, k).db;
      && (db.nextId in db'.runs <==> Retried(TaskOfRun(db, r), db.runs[r].attempt, Reading(c, k)))
      && (db.nextId in db'.runs ==> RetryRow(db, db', r, reason, Reading(c, k)))
  {
    hide Inv, RetryDelay, LeaseExpiredReason, FailPlan, NextAvailable, Do, Can, Retried, RetryRow, RetryTime;
    FailureMove(db, r, reason, expectExpired, c, k);
    FailingHeld(db, r, reason, expectExpired, c, k);
    NextIsRetryTime(TaskOfRun(db, r), db.runs[r].attempt, Reading(c, k));
    var m := FailPlan(db, r, Some(reason), expectExpired, c, k).moves[0];
    if m.FailAndRetry? {
      RetryRows(db, m);
      RetryRowHas(db, Do(db, m), r, reason, Reading(c, k));
    } else {
      NoNewRun(db, m);
    }
  }

  lemma RetryRowHas(db: Db, db': Db, r: RunId, reason: Json, at: Time)
    requires Held(db, r) && RetryDelay(TaskOfRun(db, r).retry, db.runs[r].attempt).Ok?
    ensures RetryRow(db, db', r, reason, at) ==> db.nextId in db'.runs
  {
  }
}
