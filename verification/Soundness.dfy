/** Every outcome is reached by possible primitive transitions whose times lie between its clock readings. */
module Soundness {
  import opened Basics
  import opened Policies
  import opened Selection
  import opened Storage
  import opened Invariant
  import opened Plans

  ghost predicate Reached(db: Db, db': Db, ms: seq<Move>, lo: Time, hi: Time) {
    Enabled(db, ms) && DoAll(db, ms) == db' && Timely(lo, ms, hi)
  }

  ghost predicate Sound<T>(db: Db, p: Outcome<T>, lo: Time, hi: Time) {
    p.Commit? ==> Reached(db, p.db, p.moves, lo, hi)
  }

  lemma ReachedNothing(db: Db, lo: Time, hi: Time)
    requires lo <= hi
    ensures Reached(db, db, [], lo, hi)
  {
  }

  lemma ReachedOne(db: Db, m: Move, lo: Time, hi: Time)
    requires Can(db, m) && lo <= m.at && Latest(m) <= hi
    ensures Reached(db, Do(db, m), [m], lo, hi)
  {
    hide Do, Can;
    var db' := Do(db, m);
    assert [m][1..] == [];
    assert Enabled(db', []) && DoAll(db', []) == db' && Timely(m.at, [], hi);
  }

  lemma ReachedChain(db: Db, db': Db, db'': Db, a: seq<Move>, b: seq<Move>, lo: Time, mid: Time, mid': Time, hi: Time)
    requires Reached(db, db', a, lo, mid) && mid <= mid' && Reached(db', db'', b, mid', hi)
    ensures Reached(db, db'', a + b, lo, hi)
  {
    DoAllConcat(db, a, b);
    TimelyConcat(lo, a, mid, mid', b, hi);
  }

  lemma ReachedWiden(db: Db, db': Db, ms: seq<Move>, lo: Time, lo': Time, hi: Time, hi': Time)
    requires Reached(db, db', ms, lo', hi) && lo <= lo' && hi <= hi'
    ensures Reached(db, db', ms, lo, hi')
  {
    TimelyWiden(lo, lo', ms, hi, hi');
  }

  /** Plans of at most one transition are sound once that transition is timely. */
  lemma ShortSound<T>(db: Db, p: Outcome<T>, lo: Time, hi: Time)
    requires p.Commit? ==>
      (p.moves == [] && p.db == db) || (|p.moves| == 1 && Can(db, p.moves[0]) && p.db == Do(db, p.moves[0]))
    requires p.Commit? && p.moves != [] ==> lo <= p.moves[0].at && Latest(p.moves[0]) <= hi
    requires lo <= hi
    ensures Sound(db, p, lo, hi)
  {
    hide Do, Can, Reached;
    if p.Commit? {
      if p.moves == [] {
        ReachedNothing(db, lo, hi);
      } else {
        assert p.moves == [p.moves[0]];
        ReachedOne(db, p.moves[0], lo, hi);
      }
    }
  }

  lemma CompleteSound(db: Db, r: RunId, result: Option<Json>, c: Clock, k: nat)
    ensures Sound(db, CompletePlan(db, r, result, c, k), Reading(c, k), Reading(c, k + 1))
  {
    hide Do, Sound, TaskDue;
    ShortSound(db, CompletePlan(db, r, result, c, k), Reading(c, k), Reading(c, k + 1));
  }

  lemma ScheduleSound(db: Db, r: RunId, wakeAt: Time, c: Clock, k: nat)
    ensures Sound(db, SchedulePlan(db, r, wakeAt, c, k), Reading(c, k), Reading(c, k + 1))
  {
    hide Do, Sound, TaskDue;
    ShortSound(db, SchedulePlan(db, r, wakeAt, c, k), Reading(c, k), Reading(c, k + 1));
  }

  lemma FailShort(db: Db, r: RunId, reason: Option<Json>, expectExpired: bool, c: Clock, k: nat)
    requires expectExpired && r in db.runs ==> reason == Some(LeaseExpiredReason(db.runs[r]))
    ensures var p := FailPlan(db, r, reason, expectExpired, c, k);
      p.Commit? ==>
        |p.moves| == 1 && Can(db, p.moves[0]) && p.db == Do(db, p.moves[0])
        && Reading(c, k) <= p.moves[0].at && Latest(p.moves[0]) <= Reading(c, k + 1)
  {
    hide Do, TaskDue, LeaseExpiredReason;
  }

  lemma CancelSound(db: Db, t: TaskId, c: Clock, k: nat)
    ensures Sound(db, CancelPlan(db, t, c, k), Reading(c, k), Reading(c, k))
  {
    hide Do, Sound;
    ShortSound(db, CancelPlan(db, t, c, k), Reading(c, k), Reading(c, k));
  }

  lemma RetrySound(db: Db, t: TaskId, c: Clock, k: nat)
    ensures Sound(db, RetryPlan(db, t, c, k), Reading(c, k), Reading(c, k))
  {
    hide Do, Sound, TaskDue;
    ShortSound(db, RetryPlan(db, t, c, k), Reading(c, k), Reading(c, k));
  }

  lemma ReapSound(db: Db, r: RunId, c: Clock, k: nat)
    ensures Sound(db, ReapPlan(db, r, c, k), Reading(c, k), Reading(c, k + 2))
  {
    hide Do, Sound, FailPlan, LeaseExpiredReason;
    if r in db.runs {
      FailShort(db, r, Some(LeaseExpiredReason(db.runs[r])), true, c, k + 1);
    }
    ShortSound(db, ReapPlan(db, r, c, k), Reading(c, k), Reading(c, k + 2));
  }

  lemma SuperviseSound(db: Db, r: RunId, renew: Option<int>, c: Clock, k: nat)
    ensures Sound(db, SupervisePlan(db, r, renew, c, k), Reading(c, k), Reading(c, k + 3))
  {
    hide Do, ReapPlan, TaskDue, Reached, NamedLeaseExpired;
    ReapSound(db, r, c, k + 1);
    var reap := ReapPlan(db, r, c, k + 1);
    if reap.Commit? {
      ReachedWiden(db, reap.db, reap.moves, Reading(c, k), Reading(c, k + 1), Reading(c, k + 3), Reading(c, k + 3));
    }
    var p := SupervisePlan(db, r, renew, c, k);
    if p.Commit? && (reap.Raise? || p.db != reap.db || p.moves != reap.moves) {
      ShortSound(db, p, Reading(c, k), Reading(c, k + 3));
    }
  }

  lemma {:induction false} ReapEachSound(db: Db, ids: seq<RunId>, c: Clock, k: nat)
    ensures Sound(db, ReapEach(db, ids, c, k), Reading(c, k), Reading(c, k + 3 * |ids|))
    decreases |ids|
  {
    hide Do, Reached, ReapPlan;
    if ids == [] {
      ReachedNothing(db, Reading(c, k), Reading(c, k));
    } else {
      var first := ReapPlan(db, ids[0], c, k);
      ReapSound(db, ids[0], c, k);
      if first.Commit? {
        var rest := ReapEach(first.db, ids[1..], c, k + 3);
        ReapEachSound(first.db, ids[1..], c, k + 3);
        if rest.Commit? {
          ReachedChain(db, first.db, rest.db, first.moves, rest.moves, Reading(c, k), Reading(c, k + 2),
                       Reading(c, k + 3), Reading(c, k + 3 * |ids|));
        }
      }
    }
  }

  lemma {:induction false} CancelEachSound(db: Db, ids: seq<TaskId>, c: Clock, k: nat)
    ensures Sound(db, CancelEach(db, ids, c, k), Reading(c, k), Reading(c, k + |ids|))
    decreases |ids|
  {
    hide Do, Reached, CancelPlan;
    if ids == [] {
      ReachedNothing(db, Reading(c, k), Reading(c, k));
    } else {
      var first := CancelPlan(db, ids[0], c, k);
      CancelSound(db, ids[0], c, k);
      if first.Commit? {
        var rest := CancelEach(first.db, ids[1..], c, k + 1);
        CancelEachSound(first.db, ids[1..], c, k + 1);
        if rest.Commit? {
          ReachedChain(db, first.db, rest.db, first.moves, rest.moves, Reading(c, k), Reading(c, k), Reading(c, k + 1),
                       Reading(c, k + |ids|));
        }
      }
    }
  }

  lemma ReapSweepSound(db: Db, limit: int, skip: set<RunId>, c: Clock, k: nat)
    ensures Sound(db, ReapSweepPlan(db, limit, skip, c, k), Reading(c, k), Reading(c, k + 1 + 3 * Max(0, limit)))
  {
    hide Do, Reached, ReapEach, Page, ExpiredRuns;
    if limit > 0 {
      var ids := Page(ExpiredRuns(db, Reading(c, k), skip), limit);
      var p := ReapEach(db, ids, c, k + 1);
      ReapEachSound(db, ids, c, k + 1);
      if p.Commit? {
        ReachedWiden(db, p.db, p.moves, Reading(c, k), Reading(c, k + 1), Reading(c, k + 1 + 3 * |ids|),
                     Reading(c, k + 1 + 3 * limit));
      }
    }
  }

  lemma CancelSweepSound(db: Db, limit: int, skip: set<RunId>, c: Clock, k: nat)
    ensures Sound(db, CancelSweepPlan(db, limit, skip, c, k), Reading(c, k), Reading(c, k + 1 + Max(0, limit)))
  {
    hide Do, Reached, CancelEach, Page, DueTasks;
    if limit > 0 {
      var ids := Page(DueTasks(db, Reading(c, k), skip), limit);
      var p := CancelEach(db, ids, c, k + 1);
      CancelEachSound(db, ids, c, k + 1);
      if p.Commit? {
        ReachedWiden(db, p.db, p.moves, Reading(c, k), Reading(c, k + 1), Reading(c, k + 1 + |ids|),
                     Reading(c, k + 1 + limit));
      }
    }
  }

  lemma MaintenanceSound(db: Db, call: ClaimCall, c: Clock, k: nat)
    requires ValidClaim(call)
    ensures Sound(db, MaintenancePlan(db, call, c, k), Reading(c, k), Reading(c, ClaimStart(call, k)))
  {
    hide Do, Reached, ReapSweepPlan, CancelSweepPlan, Blank;
    var cancels := CancelSweepPlan(db, call.quantity, call.skipDue, c, k + 1);
    CancelSweepSound(db, call.quantity, call.skipDue, c, k + 1);
    if cancels.Commit? {
      var start := ReapStart(call, k);
      var reaps := ReapSweepPlan(cancels.db, call.quantity, call.skipExpired, c, start);
      ReapSweepSound(cancels.db, call.quantity, call.skipExpired, c, start);
      if reaps.Commit? {
        ReachedChain(db, cancels.db, reaps.db, cancels.moves, reaps.moves,
                     Reading(c, k + 1), Reading(c, k + 2 + call.quantity), Reading(c, start), Reading(c,
                             ClaimStart(call, k)));
        ReachedWiden(db, reaps.db, cancels.moves + reaps.moves, Reading(c, k), Reading(c, k + 1),
                     Reading(c, ClaimStart(call, k)), Reading(c, ClaimStart(call, k)));
      }
    }
  }

  /** Claiming one run leaves every other eligible run eligible: they belong to different tasks. */
  lemma ClaimKeepsEligible(db: Db, r: RunId, worker: Text, expires: Time, at: Time, q: RunId)
    requires Can(db, ClaimRun(r, worker, expires, at)) && Eligible(db, q, at) && q != r
    ensures Eligible(Do(db, ClaimRun(r, worker, expires, at)), q, at)
  {
    hide TaskDue;
    assert db.runs[q].taskId != db.runs[r].taskId;
  }

  lemma ClaimRunsSplit(db: Db, ids: seq<RunId>, worker: Text, expires: Time, at: Time)
    requires ids != [] && Distinct(ids) && Can(db, ClaimRun(ids[0], worker, expires, at))
    ensures ClaimAll(db, ids, worker, expires, at).runs
      == ClaimAll(Do(db, ClaimRun(ids[0], worker, expires, at)), ids[1..], worker, expires, at).runs
  {
    hide TaskDue, Blank, ClaimedRun, ClaimedTask;
    var r, rest := ids[0], ids[1..];
    assert forall q :: q in ids <==> q == r || q in rest;
    assert r !in rest;
  }

  lemma ClaimTaskSplit(db: Db, ids: seq<RunId>, worker: Text, expires: Time, at: Time, t: TaskId)
    requires ids != [] && Distinct(ids) && t in db.tasks && Can(db, ClaimRun(ids[0], worker, expires, at))
    requires forall r :: r in ids ==> Eligible(db, r, at)
    ensures var one := Do(db, ClaimRun(ids[0], worker, expires, at));
      ClaimAll(db, ids, worker, expires, at).tasks[t] == ClaimAll(one, ids[1..], worker, expires, at).tasks[t]
  {
    hide TaskDue, Blank;
    var r, rest := ids[0], ids[1..];
    assert forall q :: q in ids <==> q == r || q in rest;
    assert r !in rest;
    assert db.tasks[t].lastAttemptRun in rest ==> Eligible(db, db.tasks[t].lastAttemptRun, at);
  }

  /** The single UPDATE of a claim does what claiming the runs one at a time would do. */
  lemma ClaimAllSplit(db: Db, ids: seq<RunId>, worker: Text, expires: Time, at: Time)
    requires ids != [] && Distinct(ids) && !Blank(worker) && expires > at
    requires forall r :: r in ids ==> Eligible(db, r, at)
    ensures ClaimAll(db, ids, worker, expires, at)
      == ClaimAll(Do(db, ClaimRun(ids[0], worker, expires, at)), ids[1..], worker, expires, at)
  {
    hide Eligible, Distinct, Blank, ClaimedRun, ClaimedTask;
    var m := ClaimRun(ids[0], worker, expires, at);
    assert Can(db, m);
    var a, b := ClaimAll(db, ids, worker, expires, at), ClaimAll(Do(db, m), ids[1..], worker, expires, at);
    ClaimRunsSplit(db, ids, worker, expires, at);
    ClaimKeepsTables(db, m);
    forall t | t in db.tasks ensures a.tasks[t] == b.tasks[t] {
      ClaimTaskSplit(db, ids, worker, expires, at, t);
    }
    assert a.tasks == b.tasks;
  }

  lemma ClaimKeepsTables(db: Db, m: Move)
    requires Can(db, m) && m.ClaimRun?
    ensures Do(db, m).tasks.Keys == db.tasks.Keys
    ensures Do(db, m).checkpoints == db.checkpoints && Do(db, m).nextId == db.nextId
  {
    hide TaskDue, Blank, ClaimedTask;
  }

  lemma {:induction false} ClaimAllSound(db: Db, ids: seq<RunId>, worker: Text, expires: Time, at: Time)
    requires !Blank(worker) && expires > at && Distinct(ids)
    requires forall r :: r in ids ==> Eligible(db, r, at)
    ensures Reached(db, ClaimAll(db, ids, worker, expires, at), ClaimMoves(ids, worker, expires, at), at, at)
    decreases |ids|
  {
    hide Do, ClaimAll, Eligible;
    if ids == [] {
      ClaimNone(db, worker, expires, at);
    } else {
      var m := ClaimRun(ids[0], worker, expires, at);
      assert Can(db, m);
      forall q | q in ids[1..] ensures Eligible(Do(db, m), q, at) {
        ClaimKeepsEligible(db, ids[0], worker, expires, at, q);
      }
      ClaimAllSound(Do(db, m), ids[1..], worker, expires, at);
      ClaimAllSplit(db, ids, worker, expires, at);
      assert ClaimMoves(ids, worker, expires, at)[1..] == ClaimMoves(ids[1..], worker, expires, at);
    }
  }

  lemma ClaimNone(db: Db, worker: Text, expires: Time, at: Time)
    ensures ClaimAll(db, [], worker, expires, at) == db
  {
    assert ClaimAll(db, [], worker, expires, at).runs == db.runs;
    assert ClaimAll(db, [], worker, expires, at).tasks == db.tasks;
  }

  lemma ClaimSound(db: Db, call: ClaimCall, c: Clock, k: nat)
    ensures ValidClaim(call) ==> Sound(db, ClaimPlan(db, call, c, k), Reading(c, k), Reading(c, ClaimStart(call, k)))
    ensures !ValidClaim(call) ==> ClaimPlan(db, call, c, k) == Raise(InvalidArgument)
  {
    hide Do, Reached, MaintenancePlan, ClaimAll, Claimable, Page, Eligible;
    if ValidClaim(call) {
      var upkeep := MaintenancePlan(db, call, c, k);
      MaintenanceSound(db, call, c, k);
      if upkeep.Commit? {
        var at := Reading(c, ClaimStart(call, k));
        var ids := ClaimPage(upkeep.db, call, at);
        var expires := at + call.lease as real;
        PageDistinct(Claimable(upkeep.db, call.names, at, call.skipWaiting), call.quantity);
        ClaimAllSound(upkeep.db, ids, call.worker, expires, at);
        ReachedChain(db, upkeep.db, ClaimAll(upkeep.db, ids, call.worker, expires, at), upkeep.moves,
                     ClaimMoves(ids, call.worker, expires, at), Reading(c, k), at, at, at);
      }
    }
  }

  lemma DefaultStrategyValid()
    ensures ValidStrategy(DEFAULT_STRATEGY)
  {
  }

  lemma SpawnSound(db: Db, name: Text, params: Option<Json>, options: SpawnOptions, c: Clock, k: nat)
    ensures Sound(db, SpawnPlan(db, name, params, options, c, k), Reading(c, k), Reading(c, k))
  {
    hide Do, Sound, ValidName, ValidStrategy, ValidPolicy;
    DefaultStrategyValid();
    assert forall t, key :: t in db.tasks && db.tasks[t].idempotencyKey == Some(key) ==> t in KeyHolders(db, key);
    ShortSound(db, SpawnPlan(db, name, params, options, c, k), Reading(c, k), Reading(c, k));
  }

  lemma CheckpointSound(db: Db, t: TaskId, name: Text, value: Json, r: RunId, c: Clock, k: nat)
    ensures Sound(db, CheckpointPlan(db, t, name, value, r, c, k), Reading(c, k), Reading(c, k))
  {
    hide Do, Sound, TaskDue, ValidName;
    ShortSound(db, CheckpointPlan(db, t, name, value, r, c, k), Reading(c, k), Reading(c, k));
  }

  /** Deleting one finished task leaves the others as removable as they were. */
  lemma RemoveKeepsRemovable(db: Db, t: TaskId, u: TaskId, at: Time)
    requires Inv(db) && Can(db, RemoveTask(u, at)) && u != t
    ensures Can(Remove(db, t), RemoveTask(u, at))
  {
    LastRun(db, u);
  }

  lemma RemoveAllSplit(db: Db, ids: seq<TaskId>)
    requires ids != []
    ensures RemoveAll(db, ids) == RemoveAll(Remove(db, ids[0]), ids[1..])
  {
    assert forall t :: t in ids <==> t == ids[0] || t in ids[1..];
    var a, b := RemoveAll(db, ids), RemoveAll(Remove(db, ids[0]), ids[1..]);
    assert a.tasks == b.tasks;
    assert a.runs == b.runs;
    assert a.checkpoints == b.checkpoints;
  }

  lemma RemoveNone(db: Db)
    ensures RemoveAll(db, []) == db
  {
    assert RemoveAll(db, []).tasks == db.tasks;
    assert RemoveAll(db, []).runs == db.runs;
    assert RemoveAll(db, []).checkpoints == db.checkpoints;
  }

  /** The single DELETE of a cleanup does what deleting the tasks one at a time would do. */
  lemma {:induction false} RemoveAllSound(db: Db, ids: seq<TaskId>, at: Time)
    requires Inv(db) && Distinct(ids)
    requires forall t :: t in ids ==> Can(db, RemoveTask(t, at))
    ensures Reached(db, RemoveAll(db, ids), RemoveMoves(ids, at), at, at)
    decreases |ids|
  {
    hide Inv, Can, Remove, RemoveAll;
    if ids == [] {
      RemoveNone(db);
    } else {
      var m := RemoveTask(ids[0], at);
      assert Can(db, m);
      RemoveInv(db, ids[0]);
      forall t | t in ids[1..] ensures Can(Remove(db, ids[0]), RemoveTask(t, at)) {
        RemoveKeepsRemovable(db, ids[0], t, at);
      }
      RemoveAllSound(Remove(db, ids[0]), ids[1..], at);
      RemoveAllSplit(db, ids);
      assert RemoveMoves(ids, at)[1..] == RemoveMoves(ids[1..], at);
    }
  }

  lemma CleanupSound(db: Db, ttl: Time, limit: int, skip: set<TaskId>, c: Clock, k: nat)
    requires Inv(db)
    ensures Sound(db, CleanupPlan(db, ttl, limit, skip, c, k), Reading(c, k), Reading(c, k))
  {
    hide Inv, Reached, RemoveAll, Page;
    if ttl >= 0.0 && limit >= 1 {
      var at := Reading(c, k);
      var keys := Expendable(db, at - ttl, skip);
      PageDistinct(keys, limit);
      RemoveAllSound(db, Page(keys, limit), at);
    }
  }
}
