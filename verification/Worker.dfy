/** The worker: a checked configuration, and a loop that claims within capacity, drains and counts. */
module Worker {
  import opened Basics
  import opened Selection
  import opened Storage
  import opened Invariant
  import opened Plans
  import opened History
  import opened Claiming
  import opened Submission
  import opened Metrics
  import opened Executor
  import Q = QueueStorage

  // ---- Configuration ----

  /** A runnable worker. */
  datatype Runtime = Runtime(leaseSeconds: int, concurrency: int, names: seq<Text>)

  predicate Built(w: Runtime) {
    && 1 <= w.leaseSeconds <= INT_MAX
    && 1 <= w.concurrency <= INT_MAX
    && w.names != [] && forall name :: name in w.names ==> ClientName(name)
  }

  /** Fluent configuration; the first error is kept until `Build`. */
  class WorkerBuilder {
    var lease: Duration
    var concurrency: int
    var names: seq<Text>
    var error: Option<Error>

    ghost predicate Valid()
      reads this
    {
      && WholeSeconds(lease, INT_MAX).Ok? && WholeSeconds(lease, INT_MAX).value >= 1
      && 1 <= concurrency <= INT_MAX
      && forall name :: name in names ==> ClientName(name)
    }

    constructor ()
      ensures Valid() && error.None? && names == [] && lease == Span(120, 0) && concurrency == 1
    {
      lease, concurrency, names, error := Span(120, 0), 1, [], None;
    }

    /** Accepts exactly the durations that round to 1 up to INT_MAX seconds. */
    method LeaseDuration(d: Duration)
      requires Valid()
      modifies this
      ensures Valid() && concurrency == old(concurrency) && names == old(names)
      ensures error.None? <==> old(error).None? && 0.0 < Seconds(d) <= INT_MAX as real
      ensures lease == if error.None? then d else old(lease)
      ensures old(error).Some? ==> error == old(error)
    {
      if error.Some? {
        return;
      }
      var seconds := WholeSeconds(d, INT_MAX);
      if seconds.Err? || seconds.value == 0 {
        error := Some(InvalidArgument);
        return;
      }
      lease := d;
    }

    method Concurrency(n: nat)
      requires Valid()
      modifies this
      ensures Valid() && lease == old(lease) && names == old(names)
      ensures error.None? <==> old(error).None? && 1 <= n <= INT_MAX
      ensures concurrency == if error.None? then n else old(concurrency)
      ensures old(error).Some? ==> error == old(error)
    {
      if error.Some? {
        return;
      }
      if n == 0 || n > INT_MAX {
        error := Some(InvalidArgument);
        return;
      }
      concurrency := n;
    }

    method Register(name: Text)
      requires Valid()
      modifies this
      ensures Valid() && lease == old(lease) && concurrency == old(concurrency)
      ensures error.None? <==> old(error).None? && ClientName(name) && name !in old(names)
      ensures names == if error.None? then old(names) + [name] else old(names)
      ensures old(error).Some? ==> error == old(error)
    {
      if error.Some? {
        return;
      }
      if !ClientName(name) || name in names {
        error := Some(InvalidArgument);
        return;
      }
      names := names + [name];
    }

    method Build() returns (res: Result<Runtime>)
      requires Valid()
      ensures res.Ok? <==> error.None? && names != []
      ensures res.Ok? ==> Built(res.value) && res.value.concurrency == concurrency && res.value.names == names
      ensures res.Ok? ==> res.value.leaseSeconds as real - 1.0 < Seconds(lease) <= res.value.leaseSeconds as real
    {
      if error.Some? {
        return Err(error.value);
      }
      if names == [] {
        return Err(InvalidArgument);
      }
      return Ok(Runtime(WholeSeconds(lease, INT_MAX).value, concurrency, names));
    }
  }

  /** Every claim that a built worker makes is well formed, whatever its free capacity. */
  lemma BuiltClaimsValid(w: Runtime, worker: Text, available: nat)
    requires Built(w) && !Blank(worker) && 1 <= available <= w.concurrency
    ensures ValidClaim(ClaimCall(worker, w.leaseSeconds, available, w.names, {}, {}, {}))
    ensures available <= INT_MAX
  {
    forall name | name in w.names ensures !Blank(name) {
      ClientNameValid(name);
    }
  }

  // ---- Decoding claimed rows ----

  /** A row of a claim as the driver returns it: the headers column holds any JSON, or NULL. */
  datatype Row = Row(run: RunId, task: TaskId, attempt: int, name: Text, params: Json, headers: Option<Json>)

  function RowOf(a: Assignment): Row {
    Row(a.run, a.task, a.attempt, a.name, a.params, if a.headers.Some? then Some(JObject(a.headers.value)) else None)
  }

  /** Refuses headers that are not an object, and a negative attempt number. */
  function DecodeRow(row: Row): Result<Assignment> {
    if row.headers.Some? && !row.headers.value.JObject? && row.headers.value != JNull then Err(InvalidTaskHeaders)
    else if row.attempt < 0 then Err(UndecodableValue)
    else
      var headers := if row.headers.Some? && row.headers.value.JObject? then Some(row.headers.value.fields) else None;
      Ok(Assignment(row.run, row.task, row.attempt, row.name, row.params, headers))
  }

  /** All rows are decoded, or the first bad one refuses the whole claim. */
  function DecodeRows(rows: seq<Row>): Result<seq<Assignment>> {
    if rows == [] then Ok([])
    else
      var first, rest := DecodeRow(rows[0]), DecodeRows(rows[1..]);
      if first.Err? then Err(first.error) else if rest.Err? then rest else Ok([first.value] + rest.value)
  }

  function RowsOf(claimed: seq<Assignment>): seq<Row> {
    seq(|claimed|, i requires 0 <= i < |claimed| => RowOf(claimed[i]))
  }

  lemma {:induction false} DecodeAll(claimed: seq<Assignment>)
    requires forall i :: 0 <= i < |claimed| ==> claimed[i].attempt >= 0
    ensures DecodeRows(RowsOf(claimed)) == Ok(claimed)
    decreases |claimed|
  {
    var rows := RowsOf(claimed);
    if claimed != [] {
      assert rows[1..] == RowsOf(claimed[1..]);
      DecodeAll(claimed[1..]);
      assert [claimed[0]] + claimed[1..] == claimed;
    }
  }

  lemma AssignedAttempts(db: Db, call: ClaimCall, c: Clock)
    requires Inv(db) && ClaimPlan(db, call, c, 0).Commit?
    ensures var rows := ClaimPlan(db, call, c, 0).value; forall i :: 0 <= i < |rows| ==> rows[i].attempt >= 1
  {
    hide Inv, ClaimPlan, MaintenancePlan, Claimable, IsPage, ValidClaim, Touched, KeepsEligible, ClaimedRow;
    ClaimRefines(db, call, c, 0);
    MaintenanceKeepsEligible(db, call, c, 0);
    var rows, mid := ClaimPlan(db, call, c, 0).value, MaintenancePlan(db, call, c, 0).db;
    forall i | 0 <= i < |rows| ensures rows[i].attempt >= 1 {
      RunAttempt(mid, Runs(rows)[i]);
    }
  }

  lemma RunAttempt(db: Db, r: RunId)
    requires Inv(db) && r in db.runs
    ensures db.runs[r].attempt >= 1
  {
    assert RunOk(db, r);
  }

  /** Every claim on tables that meet the invariant is decoded as it was made: neither error of the decoder arises. */
  lemma RowsDecode(db: Db, call: ClaimCall, c: Clock)
    requires Inv(db) && ClaimPlan(db, call, c, 0).Commit?
    ensures DecodeRows(RowsOf(ClaimPlan(db, call, c, 0).value)) == Ok(ClaimPlan(db, call, c, 0).value)
  {
    hide Inv, ClaimPlan, DecodeRows, RowsOf;
    AssignedAttempts(db, call, c);
    DecodeAll(ClaimPlan(db, call, c, 0).value);
  }

  // ---- The loop ----

  /** How an execution goes: it runs, or its connection breaks, or it crashes outside the task's own code. */
  datatype Course = Ran(surroundings: Surroundings) | Broke(transient: bool, elapsed: nat) | Crashed(elapsed: nat)

  /** Which of the live executions ends next, and how it went. */
  datatype Ending = Ending(pick: nat, course: Course)

  datatype ClaimReply = Claimed(rows: seq<Assignment>) | ClaimRefused(transient: bool)

  /** A claim that does not come through, or one that does, after what other sessions do and lock. */
  datatype Visit =
    | Unanswered(transient: bool)
    | Answered(turn: Turn, skipDue: set<RunId>, skipExpired: set<RunId>, skipWaiting: set<RunId>)

  /** What one turn of the loop meets: executions that end before it, shutdown signals, and its claim. */
  datatype Round = Round(
    ends: nat, shutdownWhenFull: bool, shutdown: bool, visit: Visit, shutdownWhenIdle: bool)

  /**
   * The k-th execution to end is `ending(k)`; after the listed rounds shutdown is observed. When the loop
   * drops its executions, `begun` of them had started.
   */
  datatype Environment = Environment(ending: nat -> Ending, rounds: seq<Round>, begun: nat)

  datatype WorkerError = ExecutionError(k: nat) | ClaimFailed | ConcurrencyTooLarge

  /** The errors of an attempt that stop the worker: all but those of the task's own fate. */
  function FatalError(error: Option<Error>): Option<Error> {
    if error in {Some(TaskSuspended), Some(TaskCancelled), Some(RunAlreadyFailed), Some(LeaseLost)} then None else error
  }

  // ---- What a worker did ----

  /** An execution's end: the tables, what it is counted under, and the error that stops the worker, if any. */
  datatype Finale = Finale(db: Db, outcome: Option<ExecutionOutcome>, fatal: Option<Error>, elapsed: nat)

  function CourseEnd(db: Db, lease: int, a: Assignment, course: Course): Finale {
    match course
    case Ran(surroundings) =>
      var k := AttemptEnd(db, a.task, a.run, lease, surroundings);
      Finale(k.db, k.outcome, FatalError(k.error), surroundings.elapsed)
    case Broke(transient, elapsed) => Finale(db, None, if transient then None else Some(UnsupportedState), elapsed)
    case Crashed(elapsed) => Finale(db, None, Some(UnsupportedState), elapsed)
  }

  /** An execution that is counted under an outcome never stops the worker, and one without has an error. */
  lemma CountedNeverStops(db: Db, t: TaskId, r: RunId, lease: int, s: Surroundings)
    ensures var k := AttemptEnd(db, t, r, lease, s);
      (k.outcome.Some? ==> FatalError(k.error).None?) && (k.outcome.None? ==> k.error.Some?)
  {
    hide FailPlan, SupervisePlan, CompletePlan, LoadCheckpointsPlan, Polls, Replay, Rendered, Payload;
  }

  /** A turn of the loop, by a claim, by one that does not come through or without free capacity; or an execution. */
  datatype Step =
    | Ask(call: ClaimCall, turn: Turn)
    | Miss(transient: bool)
    | Full
    | Execute(assignment: Assignment, course: Course)

  /** A worker, what it starts from and what it meets. */
  datatype Session = Session(db: Db, tally: Tally, w: Runtime, worker: Text, env: Environment)

  /** Tables and counters, the runs handed out and executed so far, and whether a claim was refused for good. */
  datatype Account = Account(db: Db, tally: Tally, handedOut: seq<Assignment>, executed: seq<Assignment>,
                             results: seq<Option<Error>>, turns: nat, failed: bool)

  function StepEnd(a: Account, lease: int, step: Step): Account {
    match step
    case Ask(call, turn) =>
      var before := Replay(a.db, turn.others);
      (match ClaimPlan(before, call, turn.clock, 0)
       case Raise(_) => a.(db := before, tally := Missed(a.tally), turns := a.turns + 1, failed := true)
       case Commit(rows, db', _) =>
         a.(db := db', tally := a.tally.(claimed := a.tally.claimed + |rows|), handedOut := a.handedOut + rows,
            turns := a.turns + 1))
    case Miss(transient) => a.(tally := Missed(a.tally), turns := a.turns + 1, failed := a.failed || !transient)
    case Full => a.(turns := a.turns + 1)
    case Execute(x, course) =>
      var end := CourseEnd(a.db, lease, x, course);
      a.(db := end.db, tally := Ended(a.tally, end.outcome, end.elapsed), executed := a.executed + [x],
         results := a.results + [end.fatal])
  }

  function Missed(t: Tally): Tally {
    t.(claimErrors := t.claimErrors + 1)
  }

  /** Where a log leads. */
  function After(s: Session, log: seq<Step>): Account
    decreases |log|
  {
    if log == [] then Account(s.db, s.tally, [], [], [], 0, false)
    else StepEnd(After(s, log[..|log| - 1]), s.w.leaseSeconds, log[|log| - 1])
  }

  function Free(s: Session, a: Account): int {
    s.w.concurrency - (|a.handedOut| - |a.executed|)
  }

  /**
   * An execution is one of a run that was handed out and not executed since, and goes as given; a turn
   * asks for all the free capacity, and the n-th turn meets the n-th round.
   */
  ghost predicate ProperStep(s: Session, a: Account, step: Step) {
    match step
    case Execute(x, course) =>
      multiset(a.executed)[x] < multiset(a.handedOut)[x] && course == s.env.ending(|a.executed|).course
    case Full => a.turns < |s.env.rounds| && Free(s, a) == 0
    case Miss(transient) =>
      a.turns < |s.env.rounds| && Free(s, a) > 0 && s.env.rounds[a.turns].visit == Unanswered(transient)
    case Ask(call, turn) =>
      && a.turns < |s.env.rounds| && Free(s, a) > 0
      && s.env.rounds[a.turns].visit == Answered(turn, call.skipDue, call.skipExpired, call.skipWaiting)
      && call.worker == s.worker && call.lease == s.w.leaseSeconds && call.names == s.w.names
      && call.quantity == Free(s, a)
  }

  ghost predicate Proper(s: Session, log: seq<Step>) {
    forall n :: 0 <= n < |log| ==> ProperStep(s, After(s, log[..n]), log[n])
  }

  lemma ProperAppend(s: Session, log: seq<Step>, step: Step)
    requires Proper(s, log) && ProperStep(s, After(s, log), step)
    ensures Proper(s, log + [step]) && After(s, log + [step]) == StepEnd(After(s, log), s.w.leaseSeconds, step)
  {
    hide ProperStep, StepEnd;
    var log' := log + [step];
    assert log'[..|log|] == log;
    forall n | 0 <= n < |log'| ensures ProperStep(s, After(s, log'[..n]), log'[n]) {
      assert n < |log| ==> log'[..n] == log[..n];
    }
  }

  /**
   * Executed runs were handed out, at most `concurrency` are handed out and not executed, the counters
   * say so, and every run handed out is of a registered task.
   */
  ghost predicate Accounted(s: Session, a: Account) {
    && multiset(a.executed) <= multiset(a.handedOut)
    && (forall x :: x in a.handedOut ==> x.name in s.w.names)
    && |a.handedOut| - |a.executed| <= s.w.concurrency && |a.results| == |a.executed|
    && a.tally.claimed == s.tally.claimed + |a.handedOut| && a.tally.executions == s.tally.executions + |a.executed|
  }

  lemma ExecuteAccounted(s: Session, a: Account, x: Assignment, course: Course)
    requires Accounted(s, a) && ProperStep(s, a, Execute(x, course))
    ensures Accounted(s, StepEnd(a, s.w.leaseSeconds, Execute(x, course)))
  {
    hide CourseEnd, Ended;
  }

  lemma AskAccounted(s: Session, a: Account, call: ClaimCall, turn: Turn)
    requires Accounted(s, a) && ProperStep(s, a, Ask(call, turn))
    ensures Accounted(s, StepEnd(a, s.w.leaseSeconds, Ask(call, turn)))
  {
    hide ClaimPlan, Replay;
    var before := Replay(a.db, turn.others);
    if ClaimPlan(before, call, turn.clock, 0).Commit? {
      ClaimBounded(before, call, turn.clock, 0);
      ClaimedNames(before, call, turn.clock);
    }
  }

  lemma ClaimedNames(db: Db, call: ClaimCall, c: Clock)
    requires ClaimPlan(db, call, c, 0).Commit?
    ensures forall x :: x in ClaimPlan(db, call, c, 0).value ==> x.name in call.names
  {
    hide ClaimPlan, MaintenancePlan, Eligible, ValidClaim, Touched, ClaimedRow, Precedes;
    ClaimRefines(db, call, c, 0);
    var rows := ClaimPlan(db, call, c, 0).value;
    forall i | 0 <= i < |rows| ensures rows[i].name in call.names {
      assert Runs(rows)[i] in Runs(rows);
    }
  }

  lemma QuietAccounted(s: Session, a: Account, step: Step)
    requires Accounted(s, a) && (step.Full? || step.Miss?)
    ensures Accounted(s, StepEnd(a, s.w.leaseSeconds, step))
  {
    hide ClaimPlan, CourseEnd;
  }

  /**
   * At every point of a proper log the executed runs are among those handed out, each no more often than
   * it was, at most `concurrency` are handed out and not executed, and the counters say so; the claims
   * hand out registered tasks only.
   */
  lemma {:induction false} ProperBalance(s: Session, log: seq<Step>, n: nat)
    requires Proper(s, log) && s.w.concurrency >= 0 && n <= |log|
    ensures Accounted(s, After(s, log[..n]))
    decreases n
  {
    hide StepEnd, ProperStep, Accounted;
    if n == 0 {
      NothingAccounted(s);
    } else {
      ProperBalance(s, log, n - 1);
      assert log[..n][..n - 1] == log[..n - 1];
      var a := After(s, log[..n - 1]);
      assert ProperStep(s, a, log[n - 1]);
      match log[n - 1]
      case Execute(x, course) => ExecuteAccounted(s, a, x, course);
      case Ask(call, turn) => AskAccounted(s, a, call, turn);
      case step => QuietAccounted(s, a, step);
    }
  }

  lemma NothingAccounted(s: Session)
    requires s.w.concurrency >= 0
    ensures Accounted(s, After(s, []))
  {
    hide StepEnd;
  }

  /** The log accounts for everything: tables, counters, results, and every run handed out. */
  ghost predicate Kept(s: Session, log: seq<Step>, live: seq<Assignment>, results: seq<Option<Error>>, db: Db,
                       tally: Tally)
  {
    var a := After(s, log);
    && Proper(s, log) && a.db == db && a.tally == tally && a.results == results && |a.executed| == |results|
    && multiset(a.handedOut) == multiset(a.executed) + multiset(live)
  }

  lemma KeptNothing(s: Session)
    ensures Kept(s, [], [], [], s.db, s.tally) && After(s, []).turns == 0 && !After(s, []).failed
  {
    hide StepEnd, ProperStep;
  }

  lemma KeptSize(s: Session, log: seq<Step>, live: seq<Assignment>, results: seq<Option<Error>>, db: Db, tally: Tally)
    requires Kept(s, log, live, results, db, tally)
    ensures var a := After(s, log);
      |a.handedOut| == |live| + |results| && Free(s, a) == s.w.concurrency - |live|
  {
    hide After, Proper;
    var a := After(s, log);
    assert |multiset(a.handedOut)| == |multiset(a.executed)| + |multiset(live)|;
  }

  lemma KeptExecute(s: Session, log: seq<Step>, live: seq<Assignment>, results: seq<Option<Error>>, db: Db,
                    tally: Tally, i: nat, course: Course)
    requires Kept(s, log, live, results, db, tally) && i < |live| && course == s.env.ending(|results|).course
    ensures var end := CourseEnd(db, s.w.leaseSeconds, live[i], course);
      Kept(s, log + [Execute(live[i], course)], live[..i] + live[i + 1..], results + [end.fatal], end.db,
           Ended(tally, end.outcome, end.elapsed))
    ensures Restful(s, log, log + [Execute(live[i], course)])
  {
    hide CourseEnd, Proper, Ended, After, AttemptEnd, ClaimPlan, Replay;
    ProperAppend(s, log, Execute(live[i], course));
    TakeOut(live, i, After(s, log).executed);
  }

  /** The i-th element taken out of one list and appended to another. */
  lemma TakeOut(from: seq<Assignment>, i: nat, to: seq<Assignment>)
    requires i < |from|
    ensures multiset(from)[from[i]] > 0
    ensures multiset(to) + multiset(from) == multiset(to + [from[i]]) + multiset(from[..i] + from[i + 1..])
  {
    assert from == from[..i] + [from[i]] + from[i + 1..];
  }

  /** No turn lies between the two logs. */
  ghost predicate Restful(s: Session, log: seq<Step>, log': seq<Step>) {
    After(s, log').turns == After(s, log).turns && After(s, log').failed == After(s, log).failed
    && After(s, log').handedOut == After(s, log).handedOut
  }

  /** One execution, counted once: the attempt of exactly that run. */
  method Finish(q: Q.QueueStorage, w: Runtime, metrics: QueueMetrics, a: Assignment, course: Course)
    returns (fatal: Option<Error>)
    requires Inv(q.Snapshot()) && metrics.Valid()
    modifies q, metrics
    ensures Inv(q.Snapshot()) && metrics.Valid() && metrics.high == old(metrics.high)
    ensures var end := CourseEnd(old(q.Snapshot()), w.leaseSeconds, a, course);
      && q.Snapshot() == end.db && fatal == end.fatal
      && metrics.truth == Ended(old(metrics.truth), end.outcome, end.elapsed)
  {
    hide Inv, Exact, Ended, AttemptEnd;
    match course
    case Ran(surroundings) =>
      var outcome, error := ExecuteTask(q, metrics, a.task, a.run, w.leaseSeconds, surroundings);
      return FatalError(error);
    case Broke(transient, elapsed) =>
      var execution := new TaskExecution(metrics);
      execution.Drop(elapsed);
      return if transient then None else Some(UnsupportedState);
    case Crashed(elapsed) =>
      var execution := new TaskExecution(metrics);
      execution.Drop(elapsed);
      return Some(UnsupportedState);
  }

  /** Some of the live executions end; each is counted once, and its result is kept in order. */
  method Settle(q: Q.QueueStorage, w: Runtime, metrics: QueueMetrics, env: Environment, live: seq<Assignment>,
                results: seq<Option<Error>>, n: nat, ghost s: Session, ghost log: seq<Step>)
    returns (live': seq<Assignment>, results': seq<Option<Error>>, ghost log': seq<Step>)
    requires Inv(q.Snapshot()) && metrics.Valid() && s.w == w && s.env == env
    requires Kept(s, log, live, results, q.Snapshot(), metrics.truth)
    modifies q, metrics
    ensures Inv(q.Snapshot()) && metrics.Valid() && metrics.high == old(metrics.high)
    ensures Kept(s, log', live', results', q.Snapshot(), metrics.truth) && Restful(s, log, log')
    ensures results <= results' && |live'| + |results'| == |live| + |results|
    ensures |results'| == |results| + Min(n, |live|)
  {
    hide Inv, Shown, Balanced, Kept, After, Ended, CourseEnd;
    live', results', log' := live, results, log;
    var ended := 0;
    while ended < n && live' != []
      invariant 0 <= ended <= n && |live'| == |live| - ended
      invariant Inv(q.Snapshot()) && metrics.Valid() && metrics.high == old(metrics.high)
      invariant Kept(s, log', live', results', q.Snapshot(), metrics.truth) && Restful(s, log, log')
      invariant results <= results' && |results'| == |results| + ended
      decreases n - ended
    {
      var end := env.ending(|results'|);
      var i := end.pick % |live'|;
      KeptExecute(s, log', live', results', q.Snapshot(), metrics.truth, i, end.course);
      log' := log' + [Execute(live'[i], end.course)];
      var fatal := Finish(q, w, metrics, live'[i], end.course);
      live', results' := live'[..i] + live'[i + 1..], results' + [fatal];
      ended := ended + 1;
    }
  }

  /** Nothing fatal was joined, or the error names the first fatal result, if it stems from an execution. */
  ghost predicate Blames(results: seq<Option<Error>>, joined: nat, error: Option<WorkerError>) {
    && joined <= |results|
    && (error.None? ==> forall k :: 0 <= k < joined ==> results[k].None?)
    && (error.Some? && error.value.ExecutionError? ==>
          && error.value.k < joined && results[error.value.k].Some?
          && forall k :: 0 <= k < error.value.k ==> results[k].None?)
  }

  lemma BlamesNothing()
    ensures Blames([], 0, None)
  {
  }

  lemma BlamesClaim(results: seq<Option<Error>>, joined: nat)
    requires joined <= |results|
    ensures Blames(results, joined, Some(ClaimFailed))
  {
  }

  lemma BlamesStill(results: seq<Option<Error>>, results': seq<Option<Error>>, joined: nat, error: Option<WorkerError>)
    requires Blames(results, joined, error) && results <= results'
    ensures Blames(results', joined, error)
  {
  }

  /** Joins the next ended execution; an earlier error wins. */
  method JoinNext(results: seq<Option<Error>>, joined: nat, error: Option<WorkerError>)
    returns (joined': nat, error': Option<WorkerError>)
    requires joined < |results| && Blames(results, joined, error)
    ensures joined' == joined + 1 && Blames(results, joined', error')
    ensures error.Some? ==> error' == error
    ensures error.None? && error'.Some? ==> error'.value.ExecutionError?
  {
    joined' := joined + 1;
    error' := if error.None? && results[joined].Some? then Some(ExecutionError(joined)) else error;
  }

  /** Joins ended executions in order of their ending, up to the first fatal one. */
  method JoinEnded(results: seq<Option<Error>>, joined: nat) returns (joined': nat, error: Option<WorkerError>)
    requires Blames(results, joined, None)
    ensures joined <= joined' <= |results| && Blames(results, joined', error)
    ensures error.None? ==> joined' == |results|
    ensures error.Some? ==> error.value.ExecutionError?
  {
    joined', error := joined, None;
    while joined' < |results| && error.None?
      invariant joined <= joined' <= |results| && Blames(results, joined', error)
      invariant error.Some? ==> error.value.ExecutionError?
      decreases |results| - joined'
    {
      joined', error := JoinNext(results, joined', error);
    }
  }

  /** Some executions end, and all ended ones are joined, up to the first fatal one. */
  method Collect(q: Q.QueueStorage, w: Runtime, metrics: QueueMetrics, env: Environment, live: seq<Assignment>,
                 results: seq<Option<Error>>, joined: nat, n: nat, ghost s: Session, ghost log: seq<Step>)
    returns (live': seq<Assignment>, results': seq<Option<Error>>, joined': nat, error: Option<WorkerError>,
             ghost log': seq<Step>)
    requires Inv(q.Snapshot()) && metrics.Valid() && Blames(results, joined, None) && s.w == w && s.env == env
    requires Kept(s, log, live, results, q.Snapshot(), metrics.truth)
    modifies q, metrics
    ensures Inv(q.Snapshot()) && metrics.Valid() && metrics.high == old(metrics.high)
    ensures Blames(results', joined', error)
    ensures Kept(s, log', live', results', q.Snapshot(), metrics.truth)
    ensures After(s, log').turns == After(s, log).turns && After(s, log').failed == After(s, log).failed
    ensures |live'| + |results'| == |live| + |results| && joined <= joined' <= |results'|
    ensures error.Some? ==> error.value.ExecutionError?
    ensures error.None? ==> joined' == |results'|
  {
    hide Shown, Balanced, Inv, Blames, Kept, After;
    live', results', log' := Settle(q, w, metrics, env, live, results, n, s, log);
    BlamesStill(results, results', joined, None);
    joined', error := JoinEnded(results', joined);
  }

  /** Waits for one execution to end, if any is in flight, and joins it. */
  method JoinOne(q: Q.QueueStorage, w: Runtime, metrics: QueueMetrics, env: Environment, live: seq<Assignment>,
                 results: seq<Option<Error>>, joined: nat, error: Option<WorkerError>, ghost s: Session,
                 ghost log: seq<Step>)
    returns (live': seq<Assignment>, results': seq<Option<Error>>, joined': nat, error': Option<WorkerError>,
             ghost log': seq<Step>)
    requires Inv(q.Snapshot()) && metrics.Valid() && Blames(results, joined, error) && s.w == w && s.env == env
    requires Kept(s, log, live, results, q.Snapshot(), metrics.truth)
    modifies q, metrics
    ensures Inv(q.Snapshot()) && metrics.Valid() && metrics.high == old(metrics.high)
    ensures Blames(results', joined', error')
    ensures Kept(s, log', live', results', q.Snapshot(), metrics.truth)
    ensures After(s, log').turns == After(s, log).turns && After(s, log').failed == After(s, log).failed
    ensures results <= results' && |live'| + |results'| == |live| + |results|
    ensures joined' == Min(joined + 1, |live| + |results|) && joined <= joined' <= |results'|
    ensures error.Some? ==> error' == error
    ensures error.None? && error'.Some? ==> error'.value.ExecutionError?
  {
    hide Shown, Balanced, Inv, Kept, After;
    live', results', joined', error', log' := live, results, joined, error, log;
    if joined == |results| {
      live', results', log' := Settle(q, w, metrics, env, live, results, 1, s, log);
      BlamesStill(results, results', joined, error);
    }
    if joined < |results'| {
      joined', error' := JoinNext(results', joined, error);
    }
  }

  /** What a visit to the database with that much free capacity comes to. */
  function VisitStep(w: Runtime, worker: Text, batch: int, visit: Visit): Step {
    match visit
    case Unanswered(transient) => Miss(transient)
    case Answered(turn, skipDue, skipExpired, skipWaiting) =>
      Ask(ClaimCall(worker, w.leaseSeconds, batch, w.names, skipDue, skipExpired, skipWaiting), turn)
  }

  /** One claim on the tables, answered with the rows it hands out: at most the batch, leased to this worker. */
  method ClaimBatch(q: Q.QueueStorage, w: Runtime, worker: Text, batch: int, visit: Visit) returns (reply: ClaimReply)
    requires Inv(q.Snapshot())
    modifies q
    ensures Inv(q.Snapshot())
    ensures visit.Unanswered? ==> q.Snapshot() == old(q.Snapshot()) && reply == ClaimRefused(visit.transient)
    ensures visit.Answered? ==>
      var before := Replay(old(q.Snapshot()), visit.turn.others);
      var p := ClaimPlan(before, VisitStep(w, worker, batch, visit).call, visit.turn.clock, 0);
      && q.Snapshot() == History.Settle(before, p).db
      && reply == (match p case Raise(_) => ClaimRefused(false) case Commit(rows, _, _) => Claimed(rows))
    ensures reply.Claimed? ==>
      && |reply.rows| <= batch
      && forall i :: 0 <= i < |reply.rows| ==>
           reply.rows[i].run in q.runs && q.runs[reply.rows[i].run].claimedBy == Some(worker)
  {
    hide Inv, ClaimPlan, KeepsFinished, DecodeRows, RowsOf;
    if visit.Unanswered? {
      return ClaimRefused(visit.transient);
    }
    Interfere(q, visit.turn.others);
    ghost var db := q.Snapshot();
    var call := ClaimCall(worker, w.leaseSeconds, batch, w.names, visit.skipDue, visit.skipExpired, visit.skipWaiting);
    var claimed := q.ClaimTasks(call, visit.turn.clock, 0);
    ClaimKeepsInv(db, call, visit.turn.clock);
    if claimed.Err? {
      return ClaimRefused(false);
    }
    ClaimBounded(db, call, visit.turn.clock, 0);
    RowsDecode(db, call, visit.turn.clock);
    var decoded := DecodeRows(RowsOf(claimed.value));
    return Claimed(decoded.value);
  }

  /** One claim, counted: the runs it returned, or its refusal. */
  method TakeBatch(q: Q.QueueStorage, w: Runtime, worker: Text, metrics: QueueMetrics, batch: nat, visit: Visit,
                   ghost a: Account)
    returns (granted: seq<Assignment>, refused: Option<ClaimReply>)
    requires Inv(q.Snapshot()) && metrics.Valid() && a.db == q.Snapshot() && a.tally == metrics.truth
    modifies q, metrics
    ensures Inv(q.Snapshot()) && metrics.Valid()
    ensures |granted| <= batch && (refused.Some? ==> granted == [] && refused.value.ClaimRefused?)
    ensures metrics.high <= old(metrics.high)
      || metrics.high <= old(metrics.truth).claimed - old(metrics.truth).executions + batch
    ensures StepEnd(a, w.leaseSeconds, VisitStep(w, worker, batch, visit))
      == a.(db := q.Snapshot(), tally := metrics.truth, handedOut := a.handedOut + granted, turns := a.turns + 1,
            failed := a.failed || (refused.Some? && !refused.value.transient))
  {
    hide Shown, Balanced, Inv, ClaimPlan;
    var reply := ClaimBatch(q, w, worker, batch, visit);
    if reply.ClaimRefused? {
      metrics.RecordClaimError();
      return [], Some(reply);
    }
    metrics.RecordClaimed(|reply.rows|);
    return reply.rows, None;
  }

  lemma ClaimKeepsInv(db: Db, call: ClaimCall, c: Clock)
    requires Inv(db)
    ensures ClaimPlan(db, call, c, 0).Commit? ==> Inv(ClaimPlan(db, call, c, 0).db)
  {
    hide Inv, ClaimPlan;
    CallInv(db, Call(Claim(call), c));
  }

  /** Drops the live executions: those that had begun are counted as unhandled. */
  method Abort(metrics: QueueMetrics, live: nat, begun: nat) returns (left: nat)
    requires metrics.Valid()
    modifies metrics
    ensures metrics.Valid() && left == live - Min(begun, live) && left <= live
    ensures metrics.truth.claimed == old(metrics.truth).claimed && metrics.high == old(metrics.high)
    ensures metrics.truth.executions == old(metrics.truth).executions + live - left
    ensures metrics.truth.unhandled == old(metrics.truth).unhandled + live - left
  {
    hide Shown, Balanced;
    left := live;
    while left > 0 && live - left < begun
      invariant metrics.Valid() && live - Min(begun, live) <= left <= live
      invariant metrics.truth.claimed == old(metrics.truth).claimed && metrics.high == old(metrics.high)
      invariant metrics.truth.executions == old(metrics.truth).executions + live - left
      invariant metrics.truth.unhandled == old(metrics.truth).unhandled + live - left
    {
      var execution := new TaskExecution(metrics);
      execution.Drop(0);
      left := left - 1;
    }
  }

  /** The most that may ever be in flight: what already was, or the free capacity on top of what is. */
  function Highest(high: int, truth: Tally, concurrency: int): (bound: int)
    ensures bound == Max(high, InFlight(truth) + concurrency)
    ensures high <= bound && truth.claimed - truth.executions + concurrency <= bound
  {
    Max(high, InFlight(truth) + concurrency)
  }

  lemma KeptTurn(s: Session, log: seq<Step>, live: seq<Assignment>, results: seq<Option<Error>>, db: Db, tally: Tally,
                 visit: Visit, granted: seq<Assignment>, db': Db, tally': Tally, failed: bool)
    requires Kept(s, log, live, results, db, tally) && |live| < s.w.concurrency
    requires var a := After(s, log);
      && a.turns < |s.env.rounds| && s.env.rounds[a.turns].visit == visit
      && StepEnd(a, s.w.leaseSeconds, VisitStep(s.w, s.worker, s.w.concurrency - |live|, visit))
         == a.(db := db', tally := tally', handedOut := a.handedOut + granted, turns := a.turns + 1, failed := failed)
    ensures var log' := log + [VisitStep(s.w, s.worker, s.w.concurrency - |live|, visit)];
      && Kept(s, log', live + granted, results, db', tally')
      && After(s, log').turns == After(s, log).turns + 1 && After(s, log').failed == failed
  {
    hide StepEnd, Proper, After;
    KeptSize(s, log, live, results, db, tally);
    ProperAppend(s, log, VisitStep(s.w, s.worker, s.w.concurrency - |live|, visit));
  }

  lemma KeptFull(s: Session, log: seq<Step>, live: seq<Assignment>, results: seq<Option<Error>>, db: Db, tally: Tally)
    requires Kept(s, log, live, results, db, tally) && |live| == s.w.concurrency
    requires After(s, log).turns < |s.env.rounds|
    ensures var log' := log + [Full];
      && Kept(s, log', live, results, db, tally)
      && After(s, log').turns == After(s, log).turns + 1 && After(s, log').failed == After(s, log).failed
  {
    hide Proper, After;
    KeptSize(s, log, live, results, db, tally);
    ProperAppend(s, log, Full);
  }

  lemma KeptGives(s: Session, log: seq<Step>, live: seq<Assignment>, results: seq<Option<Error>>, db: Db, tally: Tally)
    requires Kept(s, log, live, results, db, tally) && s.w.concurrency >= 0
    ensures var a := After(s, log);
      && Proper(s, log) && a.db == db && a.tally == tally && a.results == results
      && |live| <= s.w.concurrency
      && tally.claimed == s.tally.claimed + |live| + |results| && tally.executions == s.tally.executions + |results|
  {
    hide After, Proper;
    KeptSize(s, log, live, results, db, tally);
    ProperBalance(s, log, |log|);
    assert log[..|log|] == log;
  }

  /** The rounds are used up, or one of them told the worker to stop. */
  predicate Stops(rounds: seq<Round>, turns: nat) {
    || turns == |rounds|
    || (turns < |rounds| && rounds[turns].shutdown)
    || (0 < turns <= |rounds| && (rounds[turns - 1].shutdownWhenFull || rounds[turns - 1].shutdownWhenIdle))
  }

  lemma StopsIff(rounds: seq<Round>, turns: nat)
    ensures Stops(rounds, turns) <==>
      || turns == |rounds|
      || (turns < |rounds| && rounds[turns].shutdown)
      || (0 < turns <= |rounds| && (rounds[turns - 1].shutdownWhenFull || rounds[turns - 1].shutdownWhenIdle))
  {
  }

  /**
   * The polling loop, claiming from the queue's tables and executing on them, for any configuration. Its
   * log, which leads from the tables and counters at the start to those at the end, is proper: see
   * `ProperBalance`. When the loop returns, the runs executed are exactly those handed out, as often as
   * they were, except executions that never ended on the early return for a batch size that does not fit
   * the database's integer. Unless something went wrong, every round got its turn or one stopped the
   * worker; the error is the first fatal one.
   */
  method RunWorkerLoop(q: Q.QueueStorage, w: Runtime, worker: Text, metrics: QueueMetrics, env: Environment)
    returns (error: Option<WorkerError>, left: nat, total: nat, results: seq<Option<Error>>, ghost log: seq<Step>)
    requires Inv(q.Snapshot()) && metrics.Valid() && w.concurrency >= 0
    modifies q, metrics
    ensures Inv(q.Snapshot()) && metrics.Valid()
    ensures metrics.high <= old(Highest(metrics.high, metrics.truth, w.concurrency))
    ensures var s := Session(old(q.Snapshot()), old(metrics.truth), w, worker, env);
      && Proper(s, log) && After(s, log).db == q.Snapshot() && After(s, log).results == results
      && (error != Some(ConcurrencyTooLarge) ==>
            && multiset(After(s, log).executed) == multiset(After(s, log).handedOut)
            && After(s, log).tally == metrics.truth && (After(s, log).failed <==> error == Some(ClaimFailed))
            && (error.None? ==> Stops(env.rounds, After(s, log).turns)))
    ensures left <= w.concurrency && left <= total
    ensures metrics.truth.claimed == old(metrics.truth).claimed + total
    ensures metrics.truth.executions == old(metrics.truth).executions + total - left
    ensures left > 0 ==> error == Some(ConcurrencyTooLarge)
    ensures error == Some(ConcurrencyTooLarge) ==> w.concurrency > INT_MAX
    ensures error != Some(ConcurrencyTooLarge) ==> |results| == total && Blames(results, total, error)
  {
    hide *;
    BlamesNothing();
    ghost var s := Session(q.Snapshot(), metrics.truth, w, worker, env);
    ghost var bound := Highest(metrics.high, metrics.truth, w.concurrency);
    KeptNothing(s);
    var live: seq<Assignment>, joined: nat, i := [], 0, 0;
    error, results, log := None, [], [];
    while i < |env.rounds|
      invariant 0 <= i <= |env.rounds|
      invariant Inv(q.Snapshot()) && metrics.Valid() && error.None?
      invariant metrics.high <= bound && joined <= |results|
      invariant Kept(s, log, live, results, q.Snapshot(), metrics.truth) && Blames(results, joined, error)
      invariant After(s, log).turns == i && !After(s, log).failed
    {
      var round := env.rounds[i];
      i := i + 1;
      live, results, joined, error, log := Collect(q, w, metrics, env, live, results, joined, round.ends, s, log);
      if error.Some? {
        break;
      }
      KeptGives(s, log, live, results, q.Snapshot(), metrics.truth);
      var occupied := |live| + |results| - joined;
      var available := if occupied < w.concurrency then w.concurrency - occupied else 0;
      if available == 0 {
        KeptFull(s, log, live, results, q.Snapshot(), metrics.truth);
        log := log + [Full];
        if round.shutdownWhenFull {
          break;
        }
        live, results, joined, error, log := JoinOne(q, w, metrics, env, live, results, joined, error, s, log);
        if error.Some? {
          break;
        }
        continue;
      }
      if round.shutdown {
        break;
      }
      if available > INT_MAX {
        total := |live| + |results|;
        left := Abort(metrics, |live|, env.begun);
        return Some(ConcurrencyTooLarge), left, total, results, log;
      }
      ghost var db, tally := q.Snapshot(), metrics.truth;
      var granted, refused := TakeBatch(q, w, worker, metrics, available, round.visit, After(s, log));
      KeptTurn(s, log, live, results, db, tally, round.visit, granted, q.Snapshot(), metrics.truth,
               refused.Some? && !refused.value.transient);
      log, live := log + [VisitStep(w, worker, available, round.visit)], live + granted;
      if refused.Some? {
        if !refused.value.transient {
          error := Some(ClaimFailed);
          BlamesClaim(results, joined);
          break;
        }
        if round.shutdownWhenIdle {
          break;
        }
        continue;
      }
      if granted == [] {
        if round.shutdownWhenIdle {
          break;
        }
        continue;
      }
    }
    live, results, error, log := Drain(q, w, metrics, env, live, results, joined, error, s, log);
    KeptGives(s, log, live, results, q.Snapshot(), metrics.truth);
    KeptWhole(s, log, results, q.Snapshot(), metrics.truth);
    StopsIff(env.rounds, After(s, log).turns);
    left, total := 0, |results|;
  }

  lemma KeptWhole(s: Session, log: seq<Step>, results: seq<Option<Error>>, db: Db, tally: Tally)
    requires Kept(s, log, [], results, db, tally)
    ensures multiset(After(s, log).executed) == multiset(After(s, log).handedOut)
  {
    hide After, Proper;
  }

  /** Joins everything still in flight; an earlier error wins over later ones. */
  method Drain(q: Q.QueueStorage, w: Runtime, metrics: QueueMetrics, env: Environment, live: seq<Assignment>,
               results: seq<Option<Error>>, joined: nat, error: Option<WorkerError>, ghost s: Session,
               ghost log: seq<Step>)
    returns (live': seq<Assignment>, results': seq<Option<Error>>, error': Option<WorkerError>, ghost log': seq<Step>)
    requires Inv(q.Snapshot()) && metrics.Valid() && s.w == w && s.env == env
    requires error != Some(ConcurrencyTooLarge) && Blames(results, joined, error)
    requires Kept(s, log, live, results, q.Snapshot(), metrics.truth)
    modifies q, metrics
    ensures Inv(q.Snapshot()) && metrics.Valid() && metrics.high == old(metrics.high)
    ensures live' == [] && |results'| == |live| + |results|
    ensures Kept(s, log', live', results', q.Snapshot(), metrics.truth)
    ensures After(s, log').turns == After(s, log).turns && After(s, log').failed == After(s, log).failed
    ensures error' != Some(ConcurrencyTooLarge) && Blames(results', |results'|, error')
    ensures error.Some? ==> error' == error
    ensures error.None? && error'.Some? ==> error'.value.ExecutionError?
  {
    hide Shown, Balanced, Inv, Blames, Kept, After;
    JoinedWithin(results, joined, error);
    live', results', error', log' := live, results, error, log;
    var joined' := joined;
    while joined' < |live'| + |results'|
      invariant Inv(q.Snapshot()) && metrics.Valid() && metrics.high == old(metrics.high)
      invariant Kept(s, log', live', results', q.Snapshot(), metrics.truth)
      invariant After(s, log').turns == After(s, log).turns && After(s, log').failed == After(s, log).failed
      invariant |live'| + |results'| == |live| + |results| && |results| <= |results'| && joined' <= |live'| + |results'|
      invariant error' != Some(ConcurrencyTooLarge) && Blames(results', joined', error')
      invariant error.Some? ==> error' == error
      invariant error.None? && error'.Some? ==> error'.value.ExecutionError?
      decreases |live| + |results| - joined'
    {
      live', results', joined', error', log' :=
        JoinOne(q, w, metrics, env, live', results', joined', error', s, log');
    }
    JoinedWithin(results', joined', error');
  }

  lemma JoinedWithin(results: seq<Option<Error>>, joined: nat, error: Option<WorkerError>)
    requires Blames(results, joined, error)
    ensures joined <= |results|
  {
  }

  /** A built worker never takes the early return: whatever happens, it executes exactly what it was handed out. */
  method RunWorker(q: Q.QueueStorage, w: Runtime, worker: Text, metrics: QueueMetrics, env: Environment)
    returns (error: Option<WorkerError>, total: nat, results: seq<Option<Error>>, ghost log: seq<Step>)
    requires Inv(q.Snapshot()) && Built(w) && metrics.Valid()
    modifies q, metrics
    ensures Inv(q.Snapshot()) && metrics.Valid()
    ensures metrics.high <= old(Highest(metrics.high, metrics.truth, w.concurrency))
    ensures var s := Session(old(q.Snapshot()), old(metrics.truth), w, worker, env);
      && Proper(s, log) && After(s, log).db == q.Snapshot() && After(s, log).results == results
      && multiset(After(s, log).executed) == multiset(After(s, log).handedOut)
      && After(s, log).tally == metrics.truth && (After(s, log).failed <==> error == Some(ClaimFailed))
      && (error.None? ==> Stops(env.rounds, After(s, log).turns))
    ensures metrics.truth.claimed == old(metrics.truth).claimed + total
    ensures metrics.truth.executions == old(metrics.truth).executions + total
    ensures error != Some(ConcurrencyTooLarge) && |results| == total && Blames(results, total, error)
  {
    hide Inv, Blames, Shown, Balanced, After, Proper, Stops;
    var left;
    error, left, total, results, log := RunWorkerLoop(q, w, worker, metrics, env);
  }
}
