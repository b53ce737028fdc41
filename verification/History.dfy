/** Histories: finite sequences of calls, in time order, by any number of workers and clients. */
module History {
  import opened Basics
  import opened Storage
  import opened Invariant
  import opened Plans
  import opened Soundness

  datatype Op =
    | Spawn(name: Text, params: Option<Json>, options: SpawnOptions)
    | Claim(call: ClaimCall)
    | Supervise(run: RunId, renew: Option<int>)
    | Complete(run: RunId, result: Option<Json>)
    | Schedule(run: RunId, wakeAt: Time)
    | Fail(run: RunId, reason: Option<Json>)
    | Reap(run: RunId)
    | ReapSweep(limit: int, skip: set<RunId>)
    | CancelSweep(limit: int, skip: set<RunId>)
    | Cancel(task: TaskId)
    | Retry(task: TaskId)
    | Checkpoint(task: TaskId, name: Text, value: Json, run: RunId)
    | LoadCheckpoints(task: TaskId, run: RunId)
    | ReadResult(task: TaskId)
    | Cleanup(ttl: Time, limit: int, skipTasks: set<TaskId>)

  /** One database call together with the clock readings it makes. */
  datatype Call = Call(op: Op, clock: Clock)

  /** The tables a call leaves behind and the transitions it commits; none when it raises. */
  datatype Change = Change(db: Db, moves: seq<Move>)

  function Settle<T>(db: Db, p: Outcome<T>): Change {
    match p
    case Raise(_) => Change(db, [])
    case Commit(_, db', moves) => Change(db', moves)
  }

  function Perform(db: Db, call: Call): Change {
    var c := call.clock;
    match call.op
    case Spawn(name, params, options) => Settle(db, SpawnPlan(db, name, params, options, c, 0))
    case Claim(claim) => Settle(db, ClaimPlan(db, claim, c, 0))
    case Supervise(r, renew) => Settle(db, SupervisePlan(db, r, renew, c, 0))
    case Complete(r, result) => Settle(db, CompletePlan(db, r, result, c, 0))
    case Schedule(r, wakeAt) => Settle(db, SchedulePlan(db, r, wakeAt, c, 0))
    case Fail(r, reason) => Settle(db, FailPlan(db, r, reason, false, c, 0))
    case Reap(r) => Settle(db, ReapPlan(db, r, c, 0))
    case ReapSweep(limit, skip) => Settle(db, ReapSweepPlan(db, limit, skip, c, 0))
    case CancelSweep(limit, skip) => Settle(db, CancelSweepPlan(db, limit, skip, c, 0))
    case Cancel(t) => Settle(db, CancelPlan(db, t, c, 0))
    case Retry(t) => Settle(db, RetryPlan(db, t, c, 0))
    case Checkpoint(t, name, value, r) => Settle(db, CheckpointPlan(db, t, name, value, r, c, 0))
    case LoadCheckpoints(t, r) => Settle(db, LoadCheckpointsPlan(db, t, r, c, 0))
    case ReadResult(_) => Change(db, [])
    case Cleanup(ttl, limit, skip) => Settle(db, CleanupPlan(db, ttl, limit, skip, c, 0))
  }

  function Start(call: Call): Time {
    call.clock[0]
  }

  function End(call: Call): Time {
    call.clock[|call.clock| - 1]
  }

  /** Each call starts no earlier than the one before it ended. */
  predicate Timed(now: Time, calls: seq<Call>)
    decreases |calls|
  {
    calls == [] || (now <= Start(calls[0]) && Timed(End(calls[0]), calls[1..]))
  }

  function Now(now: Time, calls: seq<Call>): Time
    decreases |calls|
  {
    if calls == [] then now else Now(End(calls[0]), calls[1..])
  }

  function Replay(db: Db, calls: seq<Call>): Db
    decreases |calls|
  {
    if calls == [] then db else Replay(Perform(db, calls[0]).db, calls[1..])
  }

  lemma {:induction false} ReplayConcat(db: Db, a: seq<Call>, b: seq<Call>)
    ensures Replay(db, a + b) == Replay(Replay(db, a), b)
    decreases |a|
  {
    hide Perform;
    if a == [] {
      assert a + b == b;
    } else {
      assert (a + b)[1..] == a[1..] + b;
      ReplayConcat(Perform(db, a[0]).db, a[1..], b);
    }
  }

  function Trace(db: Db, calls: seq<Call>): seq<Move>
    decreases |calls|
  {
    if calls == [] then []
    else var first := Perform(db, calls[0]); first.moves + Trace(first.db, calls[1..])
  }

  lemma Settled<T>(db: Db, p: Outcome<T>, lo: Time, hi: Time, lo': Time, hi': Time)
    requires Sound(db, p, lo, hi) && lo' <= lo <= hi <= hi'
    ensures Reached(db, Settle(db, p).db, Settle(db, p).moves, lo', hi')
  {
    hide Reached;
    if p.Commit? {
      ReachedWiden(db, p.db, p.moves, lo', lo, hi, hi');
    } else {
      ReachedNothing(db, lo', hi');
    }
  }

  lemma ClaimSettled(db: Db, claim: ClaimCall, c: Clock)
    ensures var change := Settle(db, ClaimPlan(db, claim, c, 0)); Reached(db, change.db, change.moves, c[0], c[|c| - 1])
  {
    hide Reached, ClaimPlan, ValidClaim;
    ClaimSound(db, claim, c, 0);
    if ValidClaim(claim) {
      Settled(db, ClaimPlan(db, claim, c, 0), Reading(c, 0), Reading(c, ClaimStart(claim, 0)), c[0], c[|c| - 1]);
    } else {
      ReachedNothing(db, c[0], c[|c| - 1]);
    }
  }

  lemma WorkerCallReached(db: Db, call: Call)
    requires call.op.Supervise? || call.op.Complete? || call.op.Schedule? || call.op.Fail? || call.op.Reap?
    ensures var change := Perform(db, call); Reached(db, change.db, change.moves, Start(call), End(call))
  {
    hide Sound, Reached, SupervisePlan, CompletePlan, SchedulePlan, FailPlan, ReapPlan, LockError;
    var c := call.clock;
    var lo, hi := Start(call), End(call);
    match call.op
    case Supervise(r, renew) =>
      SuperviseSound(db, r, renew, c, 0);
      Settled(db, SupervisePlan(db, r, renew, c, 0), Reading(c, 0), Reading(c, 3), lo, hi);
    case Complete(r, result) =>
      CompleteSound(db, r, result, c, 0);
      Settled(db, CompletePlan(db, r, result, c, 0), Reading(c, 0), Reading(c, 1), lo, hi);
    case Schedule(r, wakeAt) =>
      ScheduleSound(db, r, wakeAt, c, 0);
      Settled(db, SchedulePlan(db, r, wakeAt, c, 0), Reading(c, 0), Reading(c, 1), lo, hi);
    case Fail(r, reason) =>
      FailShort(db, r, reason, false, c, 0);
      ShortSound(db, FailPlan(db, r, reason, false, c, 0), Reading(c, 0), Reading(c, 1));
      Settled(db, FailPlan(db, r, reason, false, c, 0), Reading(c, 0), Reading(c, 1), lo, hi);
    case Reap(r) => ReapSound(db, r, c, 0); Settled(db, ReapPlan(db, r, c, 0), Reading(c, 0), Reading(c, 2), lo, hi);
  }

  lemma TaskCallReached(db: Db, call: Call)
    requires Inv(db)
    requires call.op.ReapSweep? || call.op.CancelSweep? || call.op.Cancel? || call.op.Retry? || call.op.Cleanup?
    ensures var change := Perform(db, call); Reached(db, change.db, change.moves, Start(call), End(call))
  {
    hide Sound, Reached, ReapSweepPlan, CancelSweepPlan, CancelPlan, RetryPlan, CleanupPlan, Inv;
    var c := call.clock;
    var lo, hi := Start(call), End(call);
    match call.op
    case ReapSweep(limit, skip) =>
      ReapSweepSound(db, limit, skip, c, 0);
      Settled(db, ReapSweepPlan(db, limit, skip, c, 0), Reading(c, 0), Reading(c, 1 + 3 * Max(0, limit)), lo, hi);
    case CancelSweep(limit, skip) =>
      CancelSweepSound(db, limit, skip, c, 0);
      Settled(db, CancelSweepPlan(db, limit, skip, c, 0), Reading(c, 0), Reading(c, 1 + Max(0, limit)), lo, hi);
    case Cancel(t) =>
      CancelSound(db, t, c, 0);
      Settled(db, CancelPlan(db, t, c, 0), Reading(c, 0), Reading(c, 0), lo, hi);
    case Retry(t) => RetrySound(db, t, c, 0); Settled(db, RetryPlan(db, t, c, 0), Reading(c, 0), Reading(c, 0), lo, hi);
    case Cleanup(ttl, limit, skip) =>
      CleanupSound(db, ttl, limit, skip, c, 0);
      Settled(db, CleanupPlan(db, ttl, limit, skip, c, 0), Reading(c, 0), Reading(c, 0), lo, hi);
  }

  lemma RequestReached(db: Db, call: Call)
    requires call.op.Spawn? || call.op.Checkpoint? || call.op.LoadCheckpoints?
    ensures var change := Perform(db, call); Reached(db, change.db, change.moves, Start(call), End(call))
  {
    hide Sound, Reached, SpawnPlan, CheckpointPlan, LockError;
    var c := call.clock;
    var lo, hi := Start(call), End(call);
    match call.op
    case Spawn(name, params, options) =>
      SpawnSound(db, name, params, options, c, 0);
      Settled(db, SpawnPlan(db, name, params, options, c, 0), Reading(c, 0), Reading(c, 0), lo, hi);
    case Checkpoint(t, name, value, r) =>
      CheckpointSound(db, t, name, value, r, c, 0);
      Settled(db, CheckpointPlan(db, t, name, value, r, c, 0), Reading(c, 0), Reading(c, 0), lo, hi);
    case LoadCheckpoints(_, _) => ReachedNothing(db, lo, hi);
  }

  /** Every call commits a timely sequence of primitive transitions. */
  lemma CallReached(db: Db, call: Call)
    requires Inv(db)
    ensures var change := Perform(db, call); Reached(db, change.db, change.moves, Start(call), End(call))
  {
    hide Inv, Reached, Settle;
    match call.op
    case Claim(claim) => ClaimSettled(db, claim, call.clock);
    case ReadResult(_) => ReachedNothing(db, Start(call), End(call));
    case Spawn(_, _, _) => RequestReached(db, call);
    case Checkpoint(_, _, _, _) => RequestReached(db, call);
    case LoadCheckpoints(_, _) => RequestReached(db, call);
    case ReapSweep(_, _) => TaskCallReached(db, call);
    case CancelSweep(_, _) => TaskCallReached(db, call);
    case Cancel(_) => TaskCallReached(db, call);
    case Retry(_) => TaskCallReached(db, call);
    case Cleanup(_, _, _) => TaskCallReached(db, call);
    case _ => WorkerCallReached(db, call);
  }

  lemma CallInv(db: Db, call: Call)
    requires Inv(db)
    ensures Inv(Perform(db, call).db)
  {
    hide Inv, Perform;
    CallReached(db, call);
    MovesInv(db, Perform(db, call).moves);
  }

  /** Whatever is called, in any order, by anyone, the invariant holds afterwards. */
  lemma {:induction false} HistoryInv(db: Db, calls: seq<Call>)
    requires Inv(db)
    ensures Inv(Replay(db, calls))
    decreases |calls|
  {
    hide Inv, Perform;
    if calls != [] {
      CallInv(db, calls[0]);
      HistoryInv(Perform(db, calls[0]).db, calls[1..]);
    }
  }

  lemma EmptyInv()
    ensures Inv(EMPTY)
  {
  }

  /** A history is a timely sequence of primitive transitions. */
  lemma {:induction false} HistoryReached(db: Db, now: Time, calls: seq<Call>)
    requires Inv(db) && Timed(now, calls)
    ensures Reached(db, Replay(db, calls), Trace(db, calls), now, Now(now, calls))
    decreases |calls|
  {
    hide Inv, Perform, Reached;
    if calls == [] {
      ReachedNothing(db, now, now);
    } else {
      var first, rest := Perform(db, calls[0]), calls[1..];
      CallReached(db, calls[0]);
      CallInv(db, calls[0]);
      HistoryReached(first.db, End(calls[0]), rest);
      ReachedWiden(db, first.db, first.moves, now, Start(calls[0]), End(calls[0]), End(calls[0]));
      ReachedChain(db, first.db, Replay(first.db, rest), first.moves, Trace(first.db, rest), now, End(calls[0]),
                   End(calls[0]), Now(now, calls));
    }
  }
}
