/** A cancellation deadline, once due, stays due, and from then on the task can only be cancelled. */
module Deadlines {
  import opened Basics
  import opened Policies
  import opened Storage
  import opened Invariant
  import opened History

  /**
   * What may happen to the rows of a due task: nothing, or its cancellation, or (once finished) their
   * removal. No run is added, no lease granted or renewed, no result, failure or checkpoint recorded.
   */
  ghost predicate Frozen(db: Db, db': Db, t: TaskId)
    requires t in db.tasks
  {
    t in db'.tasks ==>
      && Saved(db', t) == Saved(db, t)
      && (db'.tasks[t] == db.tasks[t]
          || (Active(db.tasks[t].state) && db'.tasks[t].state == Cancelled
              && db'.tasks[t] == db.tasks[t].(state := Cancelled, cancelledAt := db'.tasks[t].cancelledAt)))
      && (forall r :: r in db.runs && db.runs[r].taskId == t ==>
            && r in db'.runs
            && (db'.runs[r] == db.runs[r] || (Active(db.runs[r].state) && db'.runs[r] == CancelledRun(db.runs[r]))))
      && (forall r :: r in db'.runs && db'.runs[r].taskId == t ==> r in db.runs && db.runs[r].taskId == t)
  }

  lemma DueStays(task: Task, at: Time, later: Time)
    requires TaskDue(task, at) && at <= later
    ensures TaskDue(task, later)
  {
  }

  lemma FrozenRefl(db: Db, t: TaskId)
    requires t in db.tasks
    ensures Frozen(db, db, t)
  {
  }

  lemma FrozenTrans(a: Db, b: Db, c: Db, t: TaskId)
    requires t in a.tasks && t in b.tasks && Frozen(a, b, t) && Frozen(b, c, t)
    ensures Frozen(a, c, t)
  {
  }

  lemma FrozenGone(db: Db, db': Db, t: TaskId)
    requires t in db.tasks && t !in db'.tasks
    ensures Frozen(db, db', t)
  {
  }

  lemma SameRowsFrozen(db: Db, db': Db, t: TaskId)
    requires t in db.tasks && SameRows(db, db', t)
    ensures Frozen(db, db', t)
  {
  }

  /** The first claim is what switches from `maxDelay` to `maxDuration`, and a due task is not claimed. */
  lemma FrozenStep(db: Db, m: Move, t: TaskId, now: Time)
    requires Inv(db) && Can(db, m) && now <= m.at && t in db.tasks && TaskDue(db.tasks[t], now)
    ensures Frozen(db, Do(db, m), t)
    ensures t in Do(db, m).tasks ==> TaskDue(Do(db, m).tasks[t], m.at)
  {
    var db' := Do(db, m);
    if t != Target(db, m) {
      assert SameRows(db, db', t) by { Frame(db, m, t); }
      SameRowsFrozen(db, db', t);
      DueStays(db.tasks[t], now, m.at);
    } else {
      DueStays(db.tasks[t], now, m.at);
      DueTarget(db, m);
    }
  }

  lemma DueTarget(db: Db, m: Move)
    requires Inv(db) && Can(db, m) && Target(db, m) in db.tasks && TaskDue(db.tasks[Target(db, m)], m.at)
    ensures Frozen(db, Do(db, m), Target(db, m))
    ensures Target(db, m) in Do(db, m).tasks ==> TaskDue(Do(db, m).tasks[Target(db, m)], m.at)
  {
    hide Inv, NextAvailable, RetryDelay, CancellationDue, CancelRows;
    var t := Target(db, m);
    assert m.CancelTask? || m.RemoveTask? by { FreshIds(db); }
    if m.CancelTask? {
      Flat(db, m);
      assert db.tasks[t].cancelledAt.None? by { LastRun(db, t); }
    }
  }

  lemma {:induction false} FrozenMoves(db: Db, ms: seq<Move>, t: TaskId, now: Time, hi: Time)
    requires Inv(db) && Enabled(db, ms) && Timely(now, ms, hi) && t in db.tasks && TaskDue(db.tasks[t], now)
    ensures Frozen(db, DoAll(db, ms), t)
    ensures t in DoAll(db, ms).tasks ==> TaskDue(DoAll(db, ms).tasks[t], hi)
    decreases |ms|
  {
    hide Inv, Do, Can, Frozen, TaskDue;
    if ms == [] {
      FrozenRefl(db, t);
      DueStays(db.tasks[t], now, hi);
    } else {
      var db' := Do(db, ms[0]);
      MoveInv(db, ms[0]);
      FrozenStep(db, ms[0], t, now);
      if t in db'.tasks {
        FrozenMoves(db', ms[1..], t, ms[0].at, hi);
        FrozenTrans(db, db', DoAll(db, ms), t);
      } else {
        assert t < db'.nextId by { LastRun(db, t); NextIdGrows(db, ms[0]); }
        GoneForever(db', ms[1..], t);
        FrozenGone(db, DoAll(db, ms), t);
      }
    }
  }

  /**
   * Deadlines are absorbing: in every history that starts when the deadline is due, the deadline is due
   * at the end, and the task's rows are as they were, or cancelled, or removed.
   */
  lemma DeadlinesAbsorbing(db: Db, now: Time, calls: seq<Call>, t: TaskId)
    requires Inv(db) && Timed(now, calls) && t in db.tasks && TaskDue(db.tasks[t], now)
    ensures Frozen(db, Replay(db, calls), t)
    ensures t in Replay(db, calls).tasks ==> TaskDue(Replay(db, calls).tasks[t], Now(now, calls))
  {
    hide Inv, Do, Can, Frozen, TaskDue, Perform;
    HistoryReached(db, now, calls);
    FrozenMoves(db, Trace(db, calls), t, now, Now(now, calls));
  }
}
