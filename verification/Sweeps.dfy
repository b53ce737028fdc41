/** The maintenance sweeps process exactly the rows they select, and no candidate disturbs another. */
module Sweeps {
  import opened Basics
  import opened Policies
  import opened Selection
  import opened Storage
  import opened Invariant
  import opened Plans
  import opened Soundness

  lemma RunningHeld(db: Db, r: RunId)
    requires Inv(db) && r in db.runs && db.runs[r].state == Running
    ensures Held(db, r) && TaskShape(TaskOfRun(db, r)) && RunShape(db.runs[r])
    ensures db.runs[r].attempt == TaskOfRun(db, r).attempts
  {
    assert RunOk(db, r);
    LastRun(db, db.runs[r].taskId);
  }

  /** The attempt counter of this run is exhausted: its failure raises instead of being recorded. */
  predicate Stuck(db: Db, r: RunId, at: Time) {
    Held(db, r) && !TaskDue(TaskOfRun(db, r), at) && db.runs[r].attempt >= INT_MAX
  }

  /** A move that ends a held run: its failure, or the cancellation of its task. */
  predicate Ends(db: Db, m: Move, r: RunId)
    requires Can(db, m) && Held(db, r)
  {
    || ((m.FailFinally? || m.FailAndCancel? || m.FailAndRetry?) && m.run == r)
    || (m.CancelTask? && m.task == db.runs[r].taskId)
  }

  /** A stored strategy never makes a failure raise. */
  lemma StrategyNeverRaises(db: Db, r: RunId, reason: Option<Json>, expectExpired: bool, c: Clock, k: nat)
    requires Inv(db)
    requires expectExpired && r in db.runs ==> reason == Some(LeaseExpiredReason(db.runs[r]))
    ensures FailPlan(db, r, reason, expectExpired, c, k) != Raise(InvalidStrategy)
  {
    hide Inv, Do, Can, LeaseExpiredReason, CancellationDue, RetryDelay, NextAvailable;
    if r in db.runs && db.runs[r].state == Running {
      RunningHeld(db, r);
      StoredDelay(TaskOfRun(db, r), db.runs[r].attempt);
    }
  }

  lemma StoredDelay(task: Task, attempt: int)
    requires TaskShape(task) && attempt >= 1
    ensures RetryDelay(task.retry, attempt).Ok? && RetryDelay(task.retry, attempt).value >= 0.0
  {
    RetryDelayTotal(task.retry, attempt);
  }

  /** Reaping a run whose lease is over always takes effect, except when its attempt counter is exhausted. */
  lemma ReapOne(db: Db, r: RunId, c: Clock, k: nat)
    requires Inv(db) && r in db.runs && Expired(db.runs[r], Reading(c, k))
    ensures Held(db, r)
    ensures var p := ReapPlan(db, r, c, k);
      && (p.Raise? <==> Stuck(db, r, Reading(c, k + 1)))
      && (p.Raise? ==> p.error == IntegerOutOfRange)
      && (p.Commit? ==>
            p.value && |p.moves| == 1 && Can(db, p.moves[0]) && p.db == Do(db, p.moves[0]) && Ends(db, p.moves[0], r))
      && (p.Commit? && p.moves[0].CancelTask? ==> TaskDue(TaskOfRun(db, r), Reading(c, k + 1)))
  {
    hide Inv, Do, LeaseExpiredReason, CancellationDue, RetryDelay, NextAvailable;
    RunningHeld(db, r);
    StrategyNeverRaises(db, r, Some(LeaseExpiredReason(db.runs[r])), true, c, k + 1);
    FailShort(db, r, Some(LeaseExpiredReason(db.runs[r])), true, c, k + 1);
  }

  /** Ending one run leaves every other run as it is, and adds at most a waiting one. */
  lemma EndingOthers(db: Db, m: Move, r: RunId)
    requires Inv(db) && Can(db, m) && Held(db, r) && Ends(db, m, r)
    ensures Target(db, m) == db.runs[r].taskId
    ensures r in Do(db, m).runs && Do(db, m).runs[r].state != Running
    ensures forall q :: q in db.runs && q != r ==> q in Do(db, m).runs && Do(db, m).runs[q] == db.runs[q]
    ensures forall q :: q in Do(db, m).runs && q !in db.runs ==> Waiting(Do(db, m).runs[q].state)
  {
    hide Inv, CancellationDue, RetryDelay, NextAvailable, LeaseExpiredReason;
    FreshIds(db);
    Flat(db, m);
  }

  /** Reaping one run removes it from the expired leases, and nothing else, at every later reading. */
  lemma ReapShrinks(db: Db, m: Move, r: RunId, at: Time)
    requires Inv(db) && Can(db, m) && Held(db, r) && Ends(db, m, r)
    ensures ExpiredRuns(Do(db, m), at, {}) == ExpiredRuns(db, at, {}) - {r}
  {
    hide Inv, Do, Can, Ends;
    EndingOthers(db, m, r);
  }

  /** Two different running runs belong to different tasks. */
  lemma RunningApart(db: Db, r: RunId, q: RunId)
    requires Inv(db) && r in db.runs && q in db.runs && r != q
    requires db.runs[r].state == Running && db.runs[q].state == Running
    ensures db.runs[r].taskId != db.runs[q].taskId
  {
    RunningHeld(db, r);
    RunningHeld(db, q);
  }

  /** Reaping one run changes neither another candidate nor the task it belongs to. */
  lemma ReapUndisturbed(db: Db, m: Move, r: RunId, q: RunId, at: Time)
    requires Inv(db) && Can(db, m) && Held(db, r) && Ends(db, m, r)
    requires q in db.runs && q != r && Expired(db.runs[q], at)
    ensures Inv(Do(db, m)) && q in Do(db, m).runs && Expired(Do(db, m).runs[q], at)
    ensures forall t :: Stuck(Do(db, m), q, t) <==> Stuck(db, q, t)
  {
    hide Inv, Do, CancellationDue, Can, Ends;
    MoveInv(db, m);
    EndingOthers(db, m, r);
    RunningApart(db, r, q);
    Frame(db, m, db.runs[q].taskId);
  }

  /** A list of candidates: distinct runs whose leases were over at one earlier reading. */
  ghost predicate Candidates(db: Db, ids: seq<RunId>, at: Time) {
    Distinct(ids) && forall i :: 0 <= i < |ids| ==> ids[i] in db.runs && Expired(db.runs[ids[i]], at)
  }

  /** No candidate is stuck at the reading at which the sweep fails it. */
  ghost predicate NoneStuck(db: Db, ids: seq<RunId>, c: Clock, k: nat) {
    forall i :: 0 <= i < |ids| ==> !Stuck(db, ids[i], Reading(c, k + 3 * i + 1))
  }

  /** Exactly the listed runs have stopped being expired ones, at every reading. */
  ghost predicate Cleared(db: Db, db': Db, ids: seq<RunId>) {
    forall at :: ExpiredRuns(db', at, {}) == ExpiredRuns(db, at, {}) - Elements(ids)
  }

  lemma ClearedCons(db: Db, m: Move, db': Db, ids: seq<RunId>)
    requires ids != [] && Inv(db) && Can(db, m) && Held(db, ids[0]) && Ends(db, m, ids[0])
    requires Cleared(Do(db, m), db', ids[1..])
    ensures Cleared(db, db', ids)
  {
    hide Inv, Do, Can, Ends, ExpiredRuns;
    assert Elements(ids) == {ids[0]} + Elements(ids[1..]);
    forall at ensures ExpiredRuns(db', at, {}) == ExpiredRuns(db, at, {}) - Elements(ids) {
      ReapShrinks(db, m, ids[0], at);
    }
  }

  lemma ClearedNone(db: Db)
    ensures Cleared(db, db, [])
  {
    hide ExpiredRuns;
    forall at ensures ExpiredRuns(db, at, {}) == ExpiredRuns(db, at, {}) - Elements([]) {
    }
  }

  lemma {:induction false} ReapEachExact(db: Db, ids: seq<RunId>, c: Clock, k: nat, at: Time)
    requires Inv(db) && at <= Reading(c, k) && Candidates(db, ids, at)
    ensures var p := ReapEach(db, ids, c, k);
      && (p.Commit? <==> NoneStuck(db, ids, c, k))
      && (p.Commit? ==> p.value == |ids|)
      && (p.Raise? ==> p.error == IntegerOutOfRange)
      && (p.Commit? ==> Cleared(db, p.db, ids))
    decreases |ids|
  {
    hide Inv, Do, Can, Stuck, ReapPlan, Ends, Cleared;
    if ids == [] {
      ClearedNone(db);
    } else {
      var r, rest := ids[0], ids[1..];
      ReapOne(db, r, c, k);
      var first := ReapPlan(db, r, c, k);
      assert Reading(c, k + 3 * 0 + 1) == Reading(c, k + 1);
      if first.Commit? {
        var m, db' := first.moves[0], first.db;
        forall i | 0 <= i < |rest|
          ensures rest[i] in db'.runs && Expired(db'.runs[rest[i]], at)
          ensures forall t :: Stuck(db', rest[i], t) <==> Stuck(db, rest[i], t)
        {
          assert rest[i] == ids[i + 1];
          ReapUndisturbed(db, m, r, rest[i], at);
        }
        MoveInv(db, m);
        ReapEachExact(db', rest, c, k + 3, at);
        assert NoneStuck(db, ids, c, k) <==> NoneStuck(db', rest, c, k + 3) by { StuckTail(db, db', ids, c, k); }
        var p := ReapEach(db', rest, c, k + 3);
        if p.Commit? {
          ClearedCons(db, m, p.db, ids);
        }
      }
    }
  }

  lemma StuckTail(db: Db, db': Db, ids: seq<RunId>, c: Clock, k: nat)
    requires ids != [] && !Stuck(db, ids[0], Reading(c, k + 1))
    requires forall i :: 0 <= i < |ids| - 1 ==> forall t :: Stuck(db', ids[1..][i], t) <==> Stuck(db, ids[1..][i], t)
    ensures NoneStuck(db, ids, c, k) <==> NoneStuck(db', ids[1..], c, k + 3)
  {
    hide Stuck;
    var rest := ids[1..];
    forall i | 0 <= i < |rest|
      ensures Stuck(db', rest[i], Reading(c, k + 3 + 3 * i + 1)) <==>
        Stuck(db, ids[i + 1], Reading(c, k + 3 * (i + 1) + 1))
    {
      assert k + 3 + 3 * i + 1 == k + 3 * (i + 1) + 1;
    }
    if NoneStuck(db', rest, c, k + 3) {
      forall i | 0 <= i < |ids| ensures !Stuck(db, ids[i], Reading(c, k + 3 * i + 1)) {
        if i > 0 {
          assert !Stuck(db', rest[i - 1], Reading(c, k + 3 + 3 * (i - 1) + 1));
        }
      }
    }
  }

  lemma ExpiredCandidates(db: Db, limit: nat, skip: set<RunId>, at: Time)
    ensures Candidates(db, Page(ExpiredRuns(db, at, skip), limit), at)
  {
    hide Page;
    var ids := Page(ExpiredRuns(db, at, skip), limit);
    PageDistinct(ExpiredRuns(db, at, skip), limit);
    assert forall i :: 0 <= i < |ids| ==> ids[i] in ids && ids[i] in ExpiredRuns(db, at, skip);
  }

  /**
   * The reaper is exact, under any non-decreasing readings: unless a selected run is stuck, it returns
   * min(limit, number of unlocked expired runs) and exactly the selected runs stop being expired ones.
   * When one is stuck the whole sweep raises.
   */
  lemma ReapSweepExact(db: Db, limit: nat, skip: set<RunId>, c: Clock, k: nat)
    requires Inv(db) && limit > 0
    ensures var p := ReapSweepPlan(db, limit, skip, c, k);
      var ids := Page(ExpiredRuns(db, Reading(c, k), skip), limit);
      && (p.Commit? <==> NoneStuck(db, ids, c, k + 1))
      && (p.Raise? ==> p.error == IntegerOutOfRange)
      && (p.Commit? ==> p.value == Min(limit, |ExpiredRuns(db, Reading(c, k), skip)|))
      && (p.Commit? ==> Cleared(db, p.db, ids))
  {
    hide Inv, Candidates, NoneStuck, ExpiredRuns, Page, Cleared;
    var ids := Page(ExpiredRuns(db, Reading(c, k), skip), limit);
    ExpiredCandidates(db, limit, skip, Reading(c, k));
    ReapEachExact(db, ids, c, k + 1, Reading(c, k));
  }

  // ---- The deadline sweep ----

  /** The due tasks, whatever their authoritative runs: what the sweep is meant to find. */
  function AllDue(db: Db, at: Time): set<TaskId> {
    set t | t in db.tasks && Active(db.tasks[t].state) && TaskDue(db.tasks[t], at)
  }

  /** Joining through the authoritative run loses no due task. */
  lemma JoinLosesNothing(db: Db, at: Time)
    requires Inv(db)
    ensures DueTasks(db, at, {}).Keys == AllDue(db, at)
  {
    hide Inv, CancellationDue;
    forall t | t in AllDue(db, at) ensures t in DueTasks(db, at, {}) {
      LastRun(db, t);
    }
  }

  lemma CancelShrinks(db: Db, t: TaskId, at: Time, later: Time)
    requires Inv(db) && t in db.tasks && Active(db.tasks[t].state)
    ensures Inv(Do(db, CancelTask(t, at)))
    ensures AllDue(Do(db, CancelTask(t, at)), later) == AllDue(db, later) - {t}
    ensures forall u :: u in db.tasks && u != t ==>
      u in Do(db, CancelTask(t, at)).tasks && Do(db, CancelTask(t, at)).tasks[u] == db.tasks[u]
  {
    hide Inv, CancellationDue;
    MoveInv(db, CancelTask(t, at));
  }

  lemma {:induction false} CancelEachExact(db: Db, ids: seq<TaskId>, c: Clock, k: nat)
    requires Inv(db) && Distinct(ids)
    requires forall i :: 0 <= i < |ids| ==> ids[i] in db.tasks && Active(db.tasks[ids[i]].state)
    ensures var p := CancelEach(db, ids, c, k);
      && p.Commit? && p.value == |ids|
      && forall later :: AllDue(p.db, later) == AllDue(db, later) - Elements(ids)
    decreases |ids|
  {
    hide Inv, Do, TaskDue;
    if ids != [] {
      var t, rest := ids[0], ids[1..];
      assert Can(db, CancelTask(t, Reading(c, k)));
      var db' := Do(db, CancelTask(t, Reading(c, k)));
      forall later ensures Inv(db') && AllDue(db', later) == AllDue(db, later) - {t} {
        CancelShrinks(db, t, Reading(c, k), later);
      }
      forall i | 0 <= i < |rest| ensures rest[i] in db'.tasks && Active(db'.tasks[rest[i]].state) {
        assert rest[i] == ids[i + 1] && rest[i] != t;
        CancelShrinks(db, t, Reading(c, k), 0.0);
      }
      CancelEachExact(db', rest, c, k + 1);
      assert Elements(ids) == {t} + Elements(rest);
    }
  }

  /** The deadline sweep is exact: with nothing locked it cancels min(limit, number of due active tasks). */
  lemma CancelSweepExact(db: Db, limit: nat, skip: set<RunId>, c: Clock, k: nat)
    requires Inv(db) && limit > 0
    ensures var p := CancelSweepPlan(db, limit, skip, c, k);
      var ids := Page(DueTasks(db, Reading(c, k), skip), limit);
      && p.Commit? && p.value == Min(limit, |DueTasks(db, Reading(c, k), skip)|)
      && (skip == {} ==> p.value == Min(limit, |AllDue(db, Reading(c, k))|))
      && forall later :: AllDue(p.db, later) == AllDue(db, later) - Elements(ids)
  {
    hide Inv, Page, TaskDue;
    var keys := DueTasks(db, Reading(c, k), skip);
    var ids := Page(keys, limit);
    PageDistinct(keys, limit);
    assert forall i :: 0 <= i < |ids| ==> ids[i] in ids && ids[i] in keys;
    CancelEachExact(db, ids, c, k + 1);
    if skip == {} {
      JoinLosesNothing(db, Reading(c, k));
      assert |keys| == |keys.Keys|;
    }
  }
}
