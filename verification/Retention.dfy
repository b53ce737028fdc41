/** Cleanup removes exactly the oldest expired finished tasks, whole, and drains them batch by batch. */
module Retention {
  import opened Basics
  import opened Selection
  import opened Storage
  import opened Invariant
  import opened Plans
  import opened Soundness

  /** No row of the task is left in any table. */
  ghost predicate Gone(db: Db, t: TaskId) {
    t !in db.tasks && t !in db.checkpoints && forall r :: r in db.runs ==> db.runs[r].taskId != t
  }

  lemma RemoveAllRows(db: Db, ids: seq<TaskId>)
    ensures forall t :: t in ids ==> Gone(RemoveAll(db, ids), t)
    ensures forall t :: t !in ids ==> SameRows(db, RemoveAll(db, ids), t)
  {
  }

  /** Removing some tasks takes exactly these out of the expendable ones, whatever the cutoff. */
  lemma RemoveAllExpendable(db: Db, ids: seq<TaskId>, cutoff: Time)
    requires Inv(db)
    ensures Expendable(RemoveAll(db, ids), cutoff, {}) == Expendable(db, cutoff, {}) - Elements(ids)
  {
    hide Inv;
    var db' := RemoveAll(db, ids);
    forall t | t in db'.tasks ensures TerminalAt(db', t) == TerminalAt(db, t) {
      LastRun(db, t);
    }
  }

  /**
   * A pass deletes the first min(limit, n) of the n unlocked expired tasks by (end time, id), with all
   * their runs and checkpoints, touches no row of any other task, and never removes an active one.
   */
  lemma CleanupExact(db: Db, ttl: Time, limit: nat, skip: set<TaskId>, c: Clock, k: nat)
    requires Inv(db) && ttl >= 0.0 && limit >= 1
    ensures var p, keys := CleanupPlan(db, ttl, limit, skip, c, k), Expendable(db, Reading(c, k) - ttl, skip);
      var ids := Page(keys, limit);
      && p.Commit? && Inv(p.db)
      && p.value == |ids| == Min(limit, |keys|) && IsPage(keys, limit, ids)
      && (forall t :: t in ids ==> Gone(p.db, t))
      && (forall t :: t !in ids ==> SameRows(db, p.db, t))
      && (forall t :: t in db.tasks && Active(db.tasks[t].state) ==> SameRows(db, p.db, t))
      && (forall cutoff :: Expendable(p.db, cutoff, {}) == Expendable(db, cutoff, {}) - Elements(ids))
  {
    hide Inv, Expendable, Page, IsPage, RemoveAll, Gone, SameRows, Reached, Elements;
    var keys := Expendable(db, Reading(c, k) - ttl, skip);
    var ids := Page(keys, limit);
    PageIsPage(keys, limit);
    RemoveAllRows(db, ids);
    CleanupInv(db, ttl, limit, skip, c, k);
    forall cutoff ensures Expendable(RemoveAll(db, ids), cutoff, {}) == Expendable(db, cutoff, {}) - Elements(ids) {
      RemoveAllExpendable(db, ids, cutoff);
    }
    forall t | t in db.tasks && Active(db.tasks[t].state) ensures t !in ids {
      ExpendableFinished(db, Reading(c, k) - ttl, skip, t);
    }
  }

  lemma CleanupInv(db: Db, ttl: Time, limit: int, skip: set<TaskId>, c: Clock, k: nat)
    requires Inv(db) && CleanupPlan(db, ttl, limit, skip, c, k).Commit?
    ensures Inv(CleanupPlan(db, ttl, limit, skip, c, k).db)
  {
    hide Inv, CleanupPlan;
    CleanupSound(db, ttl, limit, skip, c, k);
    MovesInv(db, CleanupPlan(db, ttl, limit, skip, c, k).moves);
  }

  lemma ExpendableFinished(db: Db, cutoff: Time, skip: set<TaskId>, t: TaskId)
    requires t in db.tasks && Active(db.tasks[t].state)
    ensures t !in Expendable(db, cutoff, skip)
  {
  }

  /** The tables after a number of passes at one instant. */
  function Passes(db: Db, ttl: Time, limit: nat, at: Time, n: nat): Db
    requires ttl >= 0.0 && limit >= 1
    decreases n
  {
    if n == 0 then db else Passes(CleanupPlan(db, ttl, limit, {}, [at], 0).db, ttl, limit, at, n - 1)
  }

  /** One pass at a fixed clock leaves the rest of the backlog, less a full batch. */
  lemma PassShrinks(db: Db, ttl: Time, limit: nat, at: Time)
    requires Inv(db) && ttl >= 0.0 && limit >= 1
    ensures CleanupPlan(db, ttl, limit, {}, [at], 0).Commit?
    ensures var db' := CleanupPlan(db, ttl, limit, {}, [at], 0).db;
      Inv(db') && |Expendable(db', at - ttl, {})| == Max(0, |Expendable(db, at - ttl, {})| - limit)
  {
    hide Inv, Expendable, Page, IsPage, SameRows, Gone, CleanupPlan;
    var keys := Expendable(db, at - ttl, {});
    var ids := Page(keys, limit);
    CleanupExact(db, ttl, limit, {}, [at], 0);
    var db' := CleanupPlan(db, ttl, limit, {}, [at], 0).db;
    PageDistinct(keys, limit);
    DistinctSize(ids);
    var left := Expendable(db', at - ttl, {});
    assert left == keys - Elements(ids);
    assert left.Keys == keys.Keys - Elements(ids);
    assert Elements(ids) <= keys.Keys;
  }

  /**
   * Repeated passes at a fixed clock: `limit` tasks fewer each time, and nothing left exactly from
   * ceil(n / limit) passes on.
   */
  lemma {:induction false} CleanupDrains(db: Db, ttl: Time, limit: nat, at: Time, n: nat)
    requires Inv(db) && ttl >= 0.0 && limit >= 1
    ensures var backlog := |Expendable(db, at - ttl, {})|;
      && Inv(Passes(db, ttl, limit, at, n))
      && |Expendable(Passes(db, ttl, limit, at, n), at - ttl, {})| == Max(0, backlog - n * limit)
      && (Expendable(Passes(db, ttl, limit, at, n), at - ttl, {}) == map[] <==> n >= (backlog + limit - 1) / limit)
    decreases n
  {
    hide Inv, Expendable, CleanupPlan;
    var backlog := |Expendable(db, at - ttl, {})|;
    if n > 0 {
      PassShrinks(db, ttl, limit, at);
      var db' := CleanupPlan(db, ttl, limit, {}, [at], 0).db;
      CleanupDrains(db', ttl, limit, at, n - 1);
      assert (n - 1) * limit == n * limit - limit;
      assert (n - 1) * limit >= 0;
    }
    CeilingDivision(backlog, limit, n);
  }

  lemma CeilingDivision(backlog: nat, limit: nat, n: nat)
    requires limit >= 1
    ensures backlog <= n * limit <==> n >= (backlog + limit - 1) / limit
  {
    var q, rest := (backlog + limit - 1) / limit, (backlog + limit - 1) % limit;
    assert backlog + limit - 1 == q * limit + rest;
    if n >= q {
      assert n * limit >= q * limit;
    } else {
      assert n * limit <= (q - 1) * limit;
    }
  }
}
