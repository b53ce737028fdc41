/** An idempotency key stands for exactly one canonical request for as long as its task is retained. */
module Idempotency {
  import opened Basics
  import opened Policies
  import opened Selection
  import opened Storage
  import opened Invariant
  import opened Plans
  import opened History
  import opened Supervision
  import opened Submission

  // ---- When two configurations are the same request ----

  const DEFAULT_RETRY := Backoff(Span(30, 0), Finite(2.0), Some(Span(3600, 0)))

  function EffectiveRetry(config: SpawnConfig): RetryChoice {
    if config.retry.Some? then config.retry.value else DEFAULT_RETRY
  }

  function EffectiveAttempts(config: SpawnConfig): nat {
    if config.maxAttempts.Some? then config.maxAttempts.value else 5
  }

  function EffectiveHeaders(config: SpawnConfig): map<Text, Json> {
    if config.headers.Some? then config.headers.value else map[]
  }

  function EffectiveLimits(config: SpawnConfig): Limits {
    if config.cancellation.Some? then config.cancellation.value else Limits(None, None)
  }

  /** The duration ends within the n-th second. */
  predicate Within(d: Duration, n: int) {
    n as real - 1.0 < Seconds(d) <= n as real
  }

  /** Both absent, or both ending within the same second. */
  ghost predicate SameLimit(a: Option<Duration>, b: Option<Duration>) {
    (a.None? && b.None?) || (a.Some? && b.Some? && exists n :: Within(a.value, n) && Within(b.value, n))
  }

  /** Delays that are the same double, or both absent. */
  predicate SameDelay(f: Rounding, a: Option<Duration>, b: Option<Duration>) {
    (a.None? && b.None?) || (a.Some? && b.Some? && f(a.value) == f(b.value))
  }

  predicate SameRetry(f: Rounding, a: RetryChoice, b: RetryChoice) {
    match a
    case NoRetries => b.NoRetries?
    case FixedDelay(delay) => b.FixedDelay? && f(delay) == f(b.delay)
    case Backoff(initial, factor, max) =>
      b.Backoff? && f(initial) == f(b.initialDelay) && factor == b.factor && SameDelay(f, max, b.maxDelay)
  }

  ghost predicate SameRequest(f: Rounding, a: SpawnConfig, b: SpawnConfig) {
    && EffectiveHeaders(a) == EffectiveHeaders(b)
    && EffectiveAttempts(a) == EffectiveAttempts(b)
    && SameRetry(f, EffectiveRetry(a), EffectiveRetry(b))
    && SameLimit(EffectiveLimits(a).maxDelay, EffectiveLimits(b).maxDelay)
    && SameLimit(EffectiveLimits(a).maxDuration, EffectiveLimits(b).maxDuration)
  }

  lemma SameLimitIff(a: Option<Duration>, b: Option<Duration>)
    requires AcceptableLimit(a) && AcceptableLimit(b)
    ensures SameLimit(a, b) <==> RoundedUp(a) == RoundedUp(b)
  {
    if a.Some? && b.Some? {
      var m, n := WholeSeconds(a.value, BIGINT_MAX).value, WholeSeconds(b.value, BIGINT_MAX).value;
      if m == n {
        assert Within(a.value, m) && Within(b.value, m);
      }
      if SameLimit(a, b) {
        var k :| Within(a.value, k) && Within(b.value, k);
        assert k == m && k == n;
      }
    }
  }

  lemma SamePolicyIff(f: Rounding, a: SpawnConfig, b: SpawnConfig)
    requires Acceptable(f, a) && Acceptable(f, b)
    ensures CanonicalPolicy(a.cancellation) == CanonicalPolicy(b.cancellation) <==>
      && SameLimit(EffectiveLimits(a).maxDelay, EffectiveLimits(b).maxDelay)
      && SameLimit(EffectiveLimits(a).maxDuration, EffectiveLimits(b).maxDuration)
  {
    hide SameLimit, ClientName, AcceptableRetry, WholeSeconds;
    SameLimitIff(EffectiveLimits(a).maxDelay, EffectiveLimits(b).maxDelay);
    SameLimitIff(EffectiveLimits(a).maxDuration, EffectiveLimits(b).maxDuration);
  }

  lemma DefaultRetry(f: Rounding)
    requires IsRounding(f)
    ensures AcceptableRetry(f, DEFAULT_RETRY) && CanonicalRetry(f, DEFAULT_RETRY) == DEFAULT_STRATEGY
  {
    assert f(Span(30, 0)) == 30 as real && f(Span(3600, 0)) == 3600 as real;
  }

  lemma SameRetryIff(f: Rounding, a: RetryChoice, b: RetryChoice)
    requires AcceptableRetry(f, a) && AcceptableRetry(f, b)
    ensures CanonicalRetry(f, a) == CanonicalRetry(f, b) <==> SameRetry(f, a, b)
  {
    hide AcceptableDelay;
  }

  /** Two accepted configurations resolve to the same stored request exactly when they ask for the same. */
  lemma CanonicalIff(f: Rounding, name: Text, params: Json, a: SpawnConfig, name': Text, params': Json, b: SpawnConfig)
    requires IsRounding(f) && Acceptable(f, a) && Acceptable(f, b)
    ensures Resolve(name, Some(params), Canonical(f, a)) == Resolve(name', Some(params'), Canonical(f, b)) <==>
      name == name' && params == params' && SameRequest(f, a, b)
  {
    hide SameLimit, ClientName, AcceptableRetry, CanonicalRetry, CanonicalPolicy, AcceptableLimit, SameRetry,
         IsRounding;
    DefaultRetry(f);
    SamePolicyIff(f, a, b);
    SameRetryIff(f, EffectiveRetry(a), EffectiveRetry(b));
  }

  /** The factor of a retry strategy is a finite double. */
  predicate DoubleFactor(config: SpawnConfig) {
    config.retry.Some? && config.retry.value.Backoff? && config.retry.value.factor.Finite? ==>
      config.retry.value.factor.value > 0.0 ==> InDoubleRange(config.retry.value.factor.value)
  }

  lemma AcceptableDelayValid(f: Rounding, d: Duration)
    requires IsRounding(f) && AcceptableDelay(f, d)
    ensures ValidDelay(f(d))
  {
    if d == Span(0, 0) {
      assert f(Span(0, 0)) == 0 as real;
    } else {
      PositiveSeconds(d);
      LargestDelayValid();
    }
  }

  lemma PositiveSeconds(d: Duration)
    requires d != Span(0, 0)
    ensures Seconds(d) > 0.0
  {
  }

  lemma AcceptableRetryValid(f: Rounding, s: RetryChoice)
    requires IsRounding(f) && AcceptableRetry(f, s)
    requires s.Backoff? ==> InDoubleRange(s.factor.value)
    ensures ValidStrategy(CanonicalRetry(f, s))
  {
    hide InDoubleRange, IsRounding;
    match s
    case NoRetries =>
    case FixedDelay(delay) => AcceptableDelayValid(f, delay);
    case Backoff(initial, _, max) =>
      AcceptableDelayValid(f, initial);
      if max.Some? {
        AcceptableDelayValid(f, max.value);
      } else {
        LargestDelayValid();
      }
  }

  lemma LargestDelayValid()
    ensures ValidDelay(MAX_DELAY)
  {
  }

  /** What the client lets through, the database accepts: the two sides validate alike. */
  lemma ClientAcceptsOnlyValid(f: Rounding, name: Text, config: SpawnConfig)
    requires IsRounding(f) && Acceptable(f, config) && DoubleFactor(config) && ClientName(name)
    ensures ValidSpawn(name, Canonical(f, config))
  {
    hide ValidName, ClientName, ValidStrategy, CanonicalRetry, WholeSeconds, InDoubleRange, IsRounding;
    ClientNameValid(name);
    if config.retry.Some? {
      AcceptableRetryValid(f, config.retry.value);
    }
    if config.idempotencyKey.Some? {
      ClientNameValid(config.idempotencyKey.value);
    }
  }

  // ---- The request part of a task never changes ----

  ghost predicate SameIdentity(db: Db, db': Db, t: TaskId)
    requires t in db.tasks
  {
    t in db'.tasks ==>
      RequestOf(db'.tasks[t]) == RequestOf(db.tasks[t]) && db'.tasks[t].idempotencyKey == db.tasks[t].idempotencyKey
  }

  lemma IdentityStep(db: Db, m: Move, t: TaskId)
    requires Inv(db) && Can(db, m) && t in db.tasks
    ensures SameIdentity(db, Do(db, m), t)
    ensures t !in Do(db, m).tasks ==> m.RemoveTask? && m.task == t
  {
    hide Inv, CancellationDue, RetryDelay, NextAvailable, LeaseExpiredReason, CancelRows, KeyUnused, ValidName,
         ValidStrategy, ValidPolicy, Eligible, TerminalAt, Blank;
    FreshIds(db);
    Flat(db, m);
  }

  predicate Removes(ms: seq<Move>, t: TaskId) {
    exists i :: 0 <= i < |ms| && ms[i].RemoveTask? && ms[i].task == t
  }

  lemma {:induction false} IdentityMoves(db: Db, ms: seq<Move>, t: TaskId)
    requires Inv(db) && Enabled(db, ms) && t in db.tasks
    ensures SameIdentity(db, DoAll(db, ms), t)
    ensures t in DoAll(db, ms).tasks <==> !Removes(ms, t)
    decreases |ms|
  {
    hide Inv, Do, Can, RequestOf;
    if ms != [] {
      var db' := Do(db, ms[0]);
      IdentityStep(db, ms[0], t);
      MoveInv(db, ms[0]);
      assert Removes(ms, t) <==>
        (ms[0].RemoveTask? && ms[0].task == t) || Removes(ms[1..], t) by { RemovesCons(ms, t); }
      if t in db'.tasks {
        IdentityMoves(db', ms[1..], t);
        RemovalTakesEffect(db, ms[0]);
      } else {
        LastRun(db, t);
        NextIdGrows(db, ms[0]);
        GoneForever(db', ms[1..], t);
      }
    }
  }

  lemma RemovalTakesEffect(db: Db, m: Move)
    requires Can(db, m)
    ensures m.RemoveTask? ==> m.task !in Do(db, m).tasks
  {
  }

  lemma RemovesCons(ms: seq<Move>, t: TaskId)
    requires ms != []
    ensures Removes(ms, t) <==> (ms[0].RemoveTask? && ms[0].task == t) || Removes(ms[1..], t)
  {
    if Removes(ms[1..], t) {
      var i :| 0 <= i < |ms[1..]| && ms[1..][i].RemoveTask? && ms[1..][i].task == t;
      assert ms[i + 1] == ms[1..][i];
    }
    if Removes(ms, t) {
      var i :| 0 <= i < |ms| && ms[i].RemoveTask? && ms[i].task == t;
      assert i > 0 ==> ms[1..][i - 1] == ms[i];
    }
  }

  /** The holder of a key is the task that carries it. */
  lemma HolderIs(db: Db, t: TaskId, key: Text)
    requires Inv(db) && t in db.tasks && db.tasks[t].idempotencyKey == Some(key)
    ensures KeyHolders(db, key).Keys == {t} && KeyHolders(db, key) != map[] && First(KeyHolders(db, key)) == t
  {
    hide RunOk, TaskOk, AttemptsUnique, AttemptsFull;
    assert t in KeyHolders(db, key);
    assert KeyHolders(db, key).Keys == {t};
  }

  /**
   * Whatever happened since (retries, sleeps, cancellation, manual retries), resubmitting a retained key
   * returns the same task and changes nothing when the request is the same, and conflicts otherwise.
   */
  lemma RespawnExact(db: Db, now: Time, calls: seq<Call>, t: TaskId, key: Text, name: Text, params: Option<Json>,
                     options: SpawnOptions, c: Clock)
    requires Inv(db) && Timed(now, calls) && t in db.tasks && db.tasks[t].idempotencyKey == Some(key)
    requires t in Replay(db, calls).tasks
    requires ValidSpawn(name, options) && options.idempotencyKey == Some(key)
    ensures SpawnPlan(Replay(db, calls), name, params, options, c, 0)
      == if Resolve(name, params, options) == RequestOf(db.tasks[t]) then Unchanged(Replay(db, calls), (t, false))
         else Raise(IdempotencyConflict)
  {
    hide Inv, Do, Can, Perform, ValidSpawn, Resolve, RequestOf, KeyHolders;
    HistoryReached(db, now, calls);
    HistoryInv(db, calls);
    IdentityMoves(db, Trace(db, calls), t);
    HolderIs(Replay(db, calls), t, key);
  }

  /** A first submission under a key stores the resolved request and the key. */
  lemma SpawnStores(db: Db, name: Text, params: Option<Json>, options: SpawnOptions, c: Clock)
    requires SpawnPlan(db, name, params, options, c, 0).Commit? && SpawnPlan(db, name, params, options, c, 0).value.1
    ensures var p := SpawnPlan(db, name, params, options, c, 0);
      && p.value.0 == db.nextId && p.value.0 in p.db.tasks
      && RequestOf(p.db.tasks[p.value.0]) == Resolve(name, params, options)
      && p.db.tasks[p.value.0].idempotencyKey == options.idempotencyKey
  {
    hide ValidSpawn, Resolve, KeyHolders, FreshTask;
  }

  /**
   * End to end, on the client's configurations: after a first submission with a key and any history that
   * retains its task, a second submission with the key is the same task, untouched, exactly when the two
   * configurations ask for the same request; otherwise it is a conflict.
   */
  lemma IdempotentSubmission(f: Rounding, db: Db, name: Text, params: Json, first: SpawnConfig, c: Clock,
                             calls: seq<Call>, name': Text, params': Json, second: SpawnConfig, c': Clock)
    requires Inv(db) && IsRounding(f) && Acceptable(f, first)
    requires Acceptable(f, second) && DoubleFactor(second) && ClientName(name')
    requires first.idempotencyKey.Some? && second.idempotencyKey == first.idempotencyKey
    requires SpawnPlan(db, name, Some(params), Canonical(f, first), c, 0).Commit?
    requires SpawnPlan(db, name, Some(params), Canonical(f, first), c, 0).value.1
    requires Timed(c[|c| - 1], calls)
    requires db.nextId in Replay(SpawnPlan(db, name, Some(params), Canonical(f, first), c, 0).db, calls).tasks
    ensures var db' := Replay(SpawnPlan(db, name, Some(params), Canonical(f, first), c, 0).db, calls);
      SpawnPlan(db', name', Some(params'), Canonical(f, second), c', 0)
      == if name == name' && params == params' && SameRequest(f, first, second) then Unchanged(db', (db.nextId, false))
         else Raise(IdempotencyConflict)
  {
    hide Inv, Perform, SpawnPlan, ValidSpawn, ClientName, IsRounding, Resolve, RequestOf, SameRequest, DoubleFactor;
    var p := SpawnPlan(db, name, Some(params), Canonical(f, first), c, 0);
    assert Inv(p.db) by {
      CallInv(db, Call(Spawn(name, Some(params), Canonical(f, first)), c));
      SpawnSettles(db, name, Some(params), Canonical(f, first), c);
    }
    SpawnStores(db, name, Some(params), Canonical(f, first), c);
    ClientAcceptsOnlyValid(f, name', second);
    RespawnExact(p.db, c[|c| - 1], calls, db.nextId, first.idempotencyKey.value, name', Some(params'),
                 Canonical(f, second), c');
    CanonicalIff(f, name, params, first, name', params', second);
  }

  lemma SpawnSettles(db: Db, name: Text, params: Option<Json>, options: SpawnOptions, c: Clock)
    requires SpawnPlan(db, name, params, options, c, 0).Commit?
    ensures Perform(db, Call(Spawn(name, params, options), c)).db == SpawnPlan(db, name, params, options, c, 0).db
  {
    hide SpawnPlan;
  }

  lemma FailNeverRemoves(db: Db, r: RunId, reason: Option<Json>, c: Clock, t: TaskId)
    ensures var p := FailPlan(db, r, reason, false, c, 0); p.Commit? ==> !Removes(p.moves, t)
  {
    hide Do, LeaseExpiredReason, CancellationDue, RetryDelay, NextAvailable;
  }

  lemma RoutineNeverRemoves(ms: seq<Move>, t: TaskId)
    requires AllRoutine(ms)
    ensures !Removes(ms, t)
  {
  }

  /** Only cleanup removes tasks. */
  lemma OnlyCleanupRemoves(db: Db, call: Call, t: TaskId)
    requires Removes(Perform(db, call).moves, t)
    ensures call.op.Cleanup?
  {
    hide Do, FailPlan, SupervisePlan, ReapPlan, ReapSweepPlan, CancelSweepPlan, ClaimPlan, Page, TaskDue, ValidName,
         ValidSpawn, Resolve, AllRoutine;
    if call.op.Claim? || call.op.Reap? || call.op.ReapSweep? || call.op.CancelSweep? || call.op.Cancel? {
      RoutineCall(db, call);
      RoutineNeverRemoves(Perform(db, call).moves, t);
    } else if call.op.Supervise? {
      SuperviseRoutine(db, call.op.run, call.op.renew, call.clock, 0);
      var p := SupervisePlan(db, call.op.run, call.op.renew, call.clock, 0);
      if p.Commit? && AllRoutine(p.moves) {
        RoutineNeverRemoves(p.moves, t);
      }
    } else if call.op.Fail? {
      FailNeverRemoves(db, call.op.run, call.op.reason, call.clock, t);
    }
  }

  /** A cleanup that takes the task away: it was finished, and its end lay a retention period back. */
  ghost predicate CleansUp(db: Db, call: Call, t: TaskId) {
    && call.op.Cleanup? && t in db.tasks && t !in Perform(db, call).db.tasks
    && !Active(db.tasks[t].state) && TerminalAt(db, t).Some?
    && TerminalAt(db, t).value <= Start(call) - call.op.ttl
  }

  /** A call after which a task is missing is a cleanup that removed it. */
  lemma MissingIsCleanup(db: Db, call: Call, t: TaskId)
    requires Inv(db) && t in db.tasks && t !in Perform(db, call).db.tasks
    ensures CleansUp(db, call, t)
  {
    hide Inv, Do, Can, RequestOf, TerminalAt, Page;
    assert Removes(Perform(db, call).moves, t) by {
      hide Perform;
      CallReached(db, call);
      IdentityMoves(db, Perform(db, call).moves, t);
    }
    OnlyCleanupRemoves(db, call, t);
  }

  /** Some call of the history is the cleanup that removes the task. */
  lemma {:induction false} MissingSomewhere(db: Db, calls: seq<Call>, t: TaskId)
    requires Inv(db) && t in db.tasks && t !in Replay(db, calls).tasks
    ensures exists i :: 0 <= i < |calls| && CleansUp(Replay(db, calls[..i]), calls[i], t)
    decreases |calls|
  {
    hide Inv, Perform, CleansUp;
    var first, rest := Perform(db, calls[0]), calls[1..];
    assert calls[..0] == [] && Replay(db, []) == db;
    if t !in first.db.tasks {
      MissingIsCleanup(db, calls[0], t);
      assert CleansUp(Replay(db, calls[..0]), calls[0], t);
    } else {
      CallInv(db, calls[0]);
      MissingSomewhere(first.db, rest, t);
      var i :| 0 <= i < |rest| && CleansUp(Replay(first.db, rest[..i]), rest[i], t);
      assert calls[..i + 1][0] == calls[0] && calls[..i + 1][1..] == rest[..i];
      assert CleansUp(Replay(db, calls[..i + 1]), calls[i + 1], t);
    }
  }

  /**
   * A key has exactly one holder for as long as its task is retained, and it is freed only by a cleanup
   * that removes the finished task after its retention period.
   */
  lemma KeyFreedOnlyByCleanup(db: Db, now: Time, calls: seq<Call>, t: TaskId, key: Text)
    requires Inv(db) && Timed(now, calls) && t in db.tasks && db.tasks[t].idempotencyKey == Some(key)
    ensures t in Replay(db, calls).tasks ==> KeyHolders(Replay(db, calls), key).Keys == {t}
    ensures t !in Replay(db, calls).tasks ==>
      exists i :: 0 <= i < |calls| && CleansUp(Replay(db, calls[..i]), calls[i], t)
  {
    hide Inv, Do, Can, Perform, RequestOf, Removes, KeyHolders, CleansUp;
    HistoryReached(db, now, calls);
    HistoryInv(db, calls);
    IdentityMoves(db, Trace(db, calls), t);
    if t in Replay(db, calls).tasks {
      HolderIs(Replay(db, calls), t, key);
    } else {
      MissingSomewhere(db, calls, t);
    }
  }
}
