/** One execution attempt on the worker: what it reports and counts is what the tables say. */
module Executor {
  import opened Basics
  import opened Policies
  import opened Storage
  import opened Invariant
  import opened Plans
  import opened Sweeps
  import opened History
  import opened Fencing
  import opened Supervision
  import opened Workflows
  import opened Metrics
  import opened Service
  import opened Context
  import opened Witnesses

  // ---- Failure payloads ----

  datatype ErrorKind = TimeoutError | CancelledError | FailedRunError | LeaseLostError | SuspendedError | OtherError

  /** An error of the task's code, with the texts of its chain of causes. */
  datatype ExecutorError = ExecutorError(kind: ErrorKind, text: Text, causes: seq<Text>)

  function ErrorName(kind: ErrorKind): Text {
    match kind
    case TimeoutError => "TimeoutError"
    case CancelledError => "CancelledTask"
    case FailedRunError => "FailedTask"
    case LeaseLostError => "LeaseLost"
    case SuspendedError => "SuspendTask"
    case OtherError => "Error"
  }

  predicate OccursAt(s: Text, part: Text, i: int) {
    0 <= i <= |s| - |part| && s[i..i + |part|] == part
  }

  predicate Contains(s: Text, part: Text) {
    exists i | 0 <= i <= |s| :: OccursAt(s, part, i)
  }

  lemma ContainsAppend(s: Text, more: Text, part: Text)
    ensures Contains(s, part) ==> Contains(s + more, part)
    ensures Contains(s + part, part)
  {
    if Contains(s, part) {
      var i :| 0 <= i <= |s| && OccursAt(s, part, i);
      assert (s + more)[i..i + |part|] == part;
      assert OccursAt(s + more, part, i);
    }
    assert OccursAt(s + part, part, |s|);
  }

  function Payload(name: Text, message: Text): Json {
    JObject(map["name" := JString(name), "message" := JString(message)])
  }

  /** A payload under a name of the executor's own never passes for a reaped lease. */
  lemma PayloadHonest(name: Text, message: Text)
    requires name == "" || name[0] != '$'
    ensures !NamedLeaseExpired(Payload(name, message))
  {
    assert "name" != "message" by { assert |"name"| == 4 && |"message"| == 7; }
    assert "$LeaseExpired"[0] == '$';
  }

  lemma NamesPlain(kind: ErrorKind)
    ensures ErrorName(kind) != "" && ErrorName(kind)[0] != '$'
  {
  }

  /** The text of an error, followed by the causes that it does not mention yet. */
  function Message(text: Text, causes: seq<Text>): Text
    decreases |causes|
  {
    if causes == [] then text
    else Message(if Contains(text, causes[0]) then text else text + ": " + causes[0], causes[1..])
  }

  /** The persisted failure of an error. */
  function Rendered(e: ExecutorError): Json {
    Payload(ErrorName(e.kind), Message(e.text, e.causes))
  }

  /** The message starts with the error's own text and mentions every cause. */
  lemma {:induction false} MessageMentions(text: Text, causes: seq<Text>)
    ensures text <= Message(text, causes)
    ensures forall part :: Contains(text, part) ==> Contains(Message(text, causes), part)
    ensures forall i :: 0 <= i < |causes| ==> Contains(Message(text, causes), causes[i])
    decreases |causes|
  {
    hide Contains;
    if causes != [] {
      var longer := if Contains(text, causes[0]) then text else text + ": " + causes[0];
      MessageMentions(longer, causes[1..]);
      forall part ensures Contains(text, part) ==> Contains(longer, part) {
        ContainsAppend(text, ": ", part);
        ContainsAppend(text + ": ", causes[0], part);
      }
      ContainsAppend(text + ": ", causes[0], causes[0]);
      forall i | 0 <= i < |causes| ensures Contains(Message(text, causes), causes[i]) {
        if i > 0 {
          assert causes[i] == causes[1..][i - 1];
        }
      }
    }
  }

  lemma RenderedHonest(e: ExecutorError)
    ensures !NamedLeaseExpired(Rendered(e))
  {
    hide NamedLeaseExpired, Message;
    NamesPlain(e.kind);
    PayloadHonest(ErrorName(e.kind), Message(e.text, e.causes));
  }

  method SerializeError(e: ExecutorError) returns (failure: Json)
    ensures failure == Rendered(e) && !NamedLeaseExpired(failure)
    ensures e.text <= Message(e.text, e.causes)
    ensures forall i :: 0 <= i < |e.causes| ==> Contains(Message(e.text, e.causes), e.causes[i])
  {
    hide Contains, NamedLeaseExpired;
    MessageMentions(e.text, e.causes);
    RenderedHonest(e);
    var message := e.text;
    var next := 0;
    assert e.causes[0..] == e.causes;
    while next < |e.causes|
      invariant 0 <= next <= |e.causes|
      invariant Message(message, e.causes[next..]) == Message(e.text, e.causes)
    {
      var rendered := e.causes[next];
      assert e.causes[next..][0] == rendered && e.causes[next..][1..] == e.causes[next + 1..];
      if !Contains(message, rendered) {
        message := message + ": " + rendered;
      }
      next := next + 1;
    }
    failure := Payload(ErrorName(e.kind), message);
  }

  // ---- What an outcome claims about the tables ----

  function OutcomeOf(v: Verdict): ExecutionOutcome
    requires v != StillRunning
  {
    match v
    case RunCompleted => CompletedExecution
    case RunFailed => FailedExecution
    case RunCancelled => CancelledExecution
    case RunSuspended => SuspendedExecution
    case LeaseExpired => LeaseLostExecution
  }

  /** The outcome that supervision reports of the tables; None for a run that is running, pending or gone. */
  function Reported(db: Db, r: RunId): Option<ExecutionOutcome> {
    var verdict := VerdictOf(db, r);
    if verdict.None? || verdict == Some(StillRunning) then None else Some(OutcomeOf(verdict.value))
  }

  /** The report in terms of the rows. */
  lemma ReportedIff(db: Db, r: RunId)
    ensures r !in db.runs || db.runs[r].taskId !in db.tasks ==> Reported(db, r).None?
    ensures r in db.runs && db.runs[r].taskId in db.tasks ==>
      var run, cancelled, reported := db.runs[r], db.tasks[db.runs[r].taskId].state == Cancelled, Reported(db, r);
      var lost := run.failureReason.Some? && NamedLeaseExpired(run.failureReason.value);
      && (reported == Some(CancelledExecution) <==> cancelled || run.state == Cancelled)
      && (reported == Some(CompletedExecution) <==> !cancelled && run.state == Completed)
      && (reported == Some(SuspendedExecution) <==> !cancelled && run.state == Sleeping)
      && (reported == Some(LeaseLostExecution) <==> !cancelled && run.state == Failed && lost)
      && (reported == Some(FailedExecution) <==> !cancelled && run.state == Failed && !lost)
  {
    hide NamedLeaseExpired;
  }

  /** What an outcome says of the tables even where supervision would report something else. */
  predicate Agrees(db: Db, r: RunId, outcome: ExecutionOutcome, at: Time) {
    match outcome
    case FailedExecution => r in db.runs && db.runs[r].state == Failed
    case LeaseLostExecution => Reported(db, r) == Some(outcome) || (r in db.runs && Expired(db.runs[r], at))
    case _ => Reported(db, r) == Some(outcome)
  }

  /** The call that decided: a supervision, the loading of checkpoints, a completion or a failure. */
  datatype Stage = Observing | Loading | Completing | Failing

  /** How an attempt ended: by a call that took effect, without any, or by one that was refused. */
  datatype Answer = Established | Unregistered | Refused(stage: Stage, error: Error)

  /** The run is neither running nor pending, so supervision has a verdict on it. */
  predicate Settled(db: Db, r: RunId) {
    r in db.runs && db.runs[r].state != Running && db.runs[r].state != Pending
  }

  /** The run had failed already, of a lost lease or with its task cancelled. */
  predicate FailedOtherwise(db: Db, r: RunId) {
    && r in db.runs && db.runs[r].state == Failed && db.runs[r].taskId in db.tasks
    && (db.tasks[db.runs[r].taskId].state == Cancelled
        || (db.runs[r].failureReason.Some? && NamedLeaseExpired(db.runs[r].failureReason.value)))
  }

  /**
   * The tables before a refused call at which its counting parts from supervision. In every stage: an
   * expired lease that nobody has reaped, and a run that has meanwhile been completed or suspended.
   * Besides, a failed run, for the worker's own failure only if it failed of a lost lease or with its
   * task cancelled; and while checkpoints are loaded, a cancelled run.
   */
  predicate PartsAt(db: Db, r: RunId, stage: Stage, at: Time) {
    && r in db.runs
    && match db.runs[r].state
       case Running => Expired(db.runs[r], at)
       case Completed => true
       case Sleeping => true
       case Failed => stage != Failing || FailedOtherwise(db, r)
       case Cancelled => stage == Loading
       case Pending => false
  }

  /**
   * When counting and supervision part, in terms of the tables that the last call of the attempt found.
   * Supervision that raises has no verdict to part from, save when the lease is not positive.
   */
  predicate Differs(db: Db, r: RunId, lease: int, answer: Answer, at: Time) {
    match answer
    case Established => false
    case Unregistered => Settled(db, r)
    case Refused(stage, _) => if stage == Observing then lease <= 0 && Settled(db, r) else PartsAt(db, r, stage, at)
  }

  /** The whole claim about how an attempt is counted, None being unhandled. */
  ghost predicate Exact(db: Db, r: RunId, lease: int, outcome: Option<ExecutionOutcome>, answer: Answer, at: Time) {
    && (outcome.Some? ==> Agrees(db, r, outcome.value, at))
    && (outcome == Reported(db, r) <==> !Differs(db, r, lease, answer, at))
  }

  lemma VerdictExact(db: Db, r: RunId, lease: int, v: Verdict, at: Time)
    requires Inv(db) && v != StillRunning && VerdictOf(db, r) == Some(v)
    ensures Exact(db, r, lease, Some(OutcomeOf(v)), Established, at)
  {
    hide NamedLeaseExpired, Inv;
  }

  /** Supervision has a verdict exactly on the settled runs. */
  lemma SettledIff(db: Db, r: RunId)
    requires Inv(db)
    ensures Reported(db, r).Some? <==> Settled(db, r)
  {
    hide Inv, NamedLeaseExpired;
    if r in db.runs {
      RunTask(db, r);
    }
  }

  /** Supervision that raises has met a bad lease, or a run without a verdict. */
  lemma ObservingExact(db: Db, r: RunId, lease: int, renew: Option<int>, c: Clock, at: Time)
    requires Inv(db) && SupervisePlan(db, r, renew, c, 0).Raise? && (renew == None || renew == Some(lease))
    ensures Exact(db, r, lease, None, Refused(Observing, SupervisePlan(db, r, renew, c, 0).error), at)
    ensures renew.None? || lease > 0 ==> !Settled(db, r)
  {
    hide Inv, Do, CancellationDue, RetryDelay, NextAvailable, NamedLeaseExpired, LeaseExpiredReason, ReapPlan, Reported;
    SettledIff(db, r);
    if r in db.runs {
      RunTask(db, r);
      if Expired(db.runs[r], c[0]) {
        ReapOne(db, r, c, 1);
      }
    }
  }

  /** When the checks of a worker's call refuse it, in terms of the tables before the call. */
  lemma RefusedIff(db: Db, r: RunId, at: Time)
    requires Inv(db)
    ensures LockError(db, r, false, at) == Some(RunAlreadyFailed) <==> r in db.runs && db.runs[r].state == Failed
    ensures LockError(db, r, false, at) == Some(TaskCancelled) <==> r in db.runs && db.runs[r].state == Cancelled
    ensures LockError(db, r, false, at) == Some(LeaseLost) <==> r in db.runs && Expired(db.runs[r], at)
    ensures LockError(db, r, false, at) == Some(NotFound) <==> r !in db.runs
    ensures LockError(db, r, false, at) == Some(NotRunning) <==>
      r in db.runs && (db.runs[r].state == Completed || Waiting(db.runs[r].state))
    ensures LockError(db, r, false, at).None? <==>
      Held(db, r) && db.runs[r].claimExpiresAt.value > at
  {
    hide Inv;
    if r in db.runs {
      RunTask(db, r);
    }
  }

  /** What is counted when a call is refused. */
  function CountedRefusal(stage: Stage, e: Error): Option<ExecutionOutcome> {
    match e
    case LeaseLost => Some(LeaseLostExecution)
    case TaskCancelled => if stage == Loading then None else Some(CancelledExecution)
    case RunAlreadyFailed => if stage == Failing then Some(FailedExecution) else None
    case _ => None
  }

  /**
   * A call refused by its checks parts from supervision exactly at the tables of `PartsAt`, and what is
   * counted agrees with the tables all the same.
   */
  lemma RefusalDiffersIff(db: Db, r: RunId, stage: Stage, at: Time)
    requires Inv(db) && LockError(db, r, false, at).Some? && stage != Observing
    ensures var counted := CountedRefusal(stage, LockError(db, r, false, at).value);
      && (counted != Reported(db, r) <==> PartsAt(db, r, stage, at))
      && (counted.Some? ==> Agrees(db, r, counted.value, at))
  {
    hide Inv, LockError, NamedLeaseExpired;
    RefusedIff(db, r, at);
    SettledIff(db, r);
    if r in db.runs {
      RunTask(db, r);
      RunningUnreported(db, r);
    }
  }

  lemma RunningUnreported(db: Db, r: RunId)
    requires Inv(db) && r in db.runs
    ensures db.runs[r].state == Running ==> Reported(db, r) == None
  {
    RunTask(db, r);
  }

  /** A call that passes its checks and raises all the same leaves the run running, and unhandled. */
  lemma HeldExact(db: Db, r: RunId, lease: int, stage: Stage, e: Error, at: Time)
    requires Inv(db) && LockError(db, r, false, at).None? && stage != Observing
    requires e in {WrongTask, IntegerOutOfRange, InvalidStrategy, ConstraintViolation}
    ensures CountedRefusal(stage, e) == None && Exact(db, r, lease, None, Refused(stage, e), at)
  {
    hide Inv, LockError;
    RefusedIff(db, r, at);
    RunningUnreported(db, r);
  }

  /** What a call to `complete_run` establishes. */
  lemma CompleteExact(db: Db, r: RunId, lease: int, result: Json, c: Clock)
    requires Inv(db)
    ensures match CompletePlan(db, r, Some(result), c, 0)
      case Commit(done, db', _) =>
        Exact(db', r, lease, Some(if done then CompletedExecution else CancelledExecution), Established, c[0])
      case Raise(e) => Exact(db, r, lease, CountedRefusal(Completing, e), Refused(Completing, e), c[0])
  {
    hide Inv, CancellationDue, CancelRows, LockError, NamedLeaseExpired;
    var p := CompletePlan(db, r, Some(result), c, 0);
    if LockError(db, r, false, c[0]).Some? {
      RefusalDiffersIff(db, r, Completing, c[0]);
    } else {
      RefusedIff(db, r, c[0]);
      if p.Commit? && !p.value {
        CancelVerdict(db, r, Reading(c, 1));
      }
    }
  }

  /** What a call to `fail_run` establishes: a refusal, or an end of the run with the given reason. */
  lemma FailExact(db: Db, r: RunId, lease: int, reason: Json, c: Clock)
    requires Inv(db)
    ensures match FailPlan(db, r, Some(reason), false, c, 0)
      case Commit(_, db', _) => EndedWith(db', r, reason)
      case Raise(e) => Exact(db, r, lease, CountedRefusal(Failing, e), Refused(Failing, e), c[0])
  {
    hide Inv, CancellationDue, RetryDelay, NextAvailable, LeaseExpiredReason, NamedLeaseExpired, Do, LockError,
         Reported, Agrees, PartsAt;
    var p := FailPlan(db, r, Some(reason), false, c, 0);
    if LockError(db, r, false, c[0]).Some? {
      RefusalDiffersIff(db, r, Failing, c[0]);
    } else if p.Commit? {
      FailEnds(db, r, reason, c);
      EndingState(db, p.moves[0], r, reason);
    } else {
      HeldExact(db, r, lease, Failing, p.error, c[0]);
    }
  }

  /** What a refused loading of checkpoints establishes; it never has to do with headers. */
  lemma LoadExact(db: Db, t: TaskId, r: RunId, lease: int, c: Clock)
    requires Inv(db) && LoadCheckpointsPlan(db, t, r, c, 0).Raise?
    ensures var e := LoadCheckpointsPlan(db, t, r, c, 0).error;
      e != InvalidTaskHeaders && Exact(db, r, lease, CountedRefusal(Loading, e), Refused(Loading, e), c[0])
  {
    hide Inv, LockError, Reported, Agrees, PartsAt;
    LockNeverHeaders(db, r, c[0]);
    if LockError(db, r, false, c[0]).Some? {
      RefusalDiffersIff(db, r, Loading, c[0]);
    } else {
      HeldExact(db, r, lease, Loading, WrongTask, c[0]);
    }
  }

  lemma LockNeverHeaders(db: Db, r: RunId, at: Time)
    ensures LockError(db, r, false, at) != Some(InvalidTaskHeaders)
  {
  }

  /** The run has failed with this reason, or has been cancelled. */
  predicate EndedWith(db: Db, r: RunId, reason: Json) {
    && r in db.runs
    && (db.runs[r].state == Cancelled || (db.runs[r].state == Failed && db.runs[r].failureReason == Some(reason)))
  }

  lemma FailEnds(db: Db, r: RunId, reason: Json, c: Clock)
    requires FailPlan(db, r, Some(reason), false, c, 0).Commit?
    ensures var p := FailPlan(db, r, Some(reason), false, c, 0);
      && |p.moves| == 1 && Can(db, p.moves[0]) && p.db == Do(db, p.moves[0]) && Held(db, r) && Ends(db, p.moves[0], r)
      && (IsFailure(p.moves[0]) ==> p.moves[0].reason == reason)
  {
    hide CancellationDue, RetryDelay, NextAvailable, LeaseExpiredReason, Do;
  }

  lemma EndingState(db: Db, m: Move, r: RunId, reason: Json)
    requires Inv(db) && Can(db, m) && Held(db, r) && Ends(db, m, r) && (IsFailure(m) ==> m.reason == reason)
    ensures EndedWith(Do(db, m), r, reason)
  {
    hide Inv, CancellationDue, RetryDelay, NextAvailable, LeaseExpiredReason;
    FreshIds(db);
    Flat(db, m);
  }

  // ---- Finished runs stay as they are, whatever other sessions do ----

  ghost predicate KeepsFinished(db: Db, db': Db) {
    && db.nextId <= db'.nextId
    && (forall r :: r in db'.runs && r < db.nextId ==> r in db.runs)
    && (forall r :: r in db.runs && r in db'.runs && !Active(db.runs[r].state) ==> db'.runs[r] == db.runs[r])
  }

  lemma KeepsFinishedRefl(db: Db)
    ensures KeepsFinished(db, db)
  {
  }

  lemma KeepsFinishedTrans(a: Db, b: Db, c: Db)
    requires Inv(a) && KeepsFinished(a, b) && KeepsFinished(b, c)
    ensures KeepsFinished(a, c)
  {
    hide Inv;
    FreshIds(a);
  }

  lemma KeepsFinishedStep(db: Db, m: Move)
    requires Inv(db) && Can(db, m)
    ensures KeepsFinished(db, Do(db, m))
  {
    hide Inv, Do, Can;
    NextIdGrows(db, m);
    forall r | r in Do(db, m).runs && r < db.nextId ensures r in db.runs {
      RunsEvolve(db, m, r);
    }
    forall r | r in db.runs && r in Do(db, m).runs && !Active(db.runs[r].state)
      ensures Do(db, m).runs[r] == db.runs[r]
    {
      FinishedRunStep(db, m, r);
    }
  }

  lemma {:induction false} KeepsFinishedMoves(db: Db, ms: seq<Move>)
    requires Inv(db) && Enabled(db, ms)
    ensures KeepsFinished(db, DoAll(db, ms))
    decreases |ms|
  {
    hide Inv, Do, Can, KeepsFinished;
    if ms == [] {
      KeepsFinishedRefl(db);
    } else {
      KeepsFinishedStep(db, ms[0]);
      MoveInv(db, ms[0]);
      KeepsFinishedMoves(Do(db, ms[0]), ms[1..]);
      KeepsFinishedTrans(db, Do(db, ms[0]), DoAll(db, ms));
    }
  }

  lemma KeepsFinishedCall(db: Db, call: Call)
    requires Inv(db)
    ensures KeepsFinished(db, Perform(db, call).db)
  {
    hide Inv, Do, Can, KeepsFinished, Perform;
    CallReached(db, call);
    KeepsFinishedMoves(db, Perform(db, call).moves);
  }

  lemma {:induction false} KeepsFinishedHistory(db: Db, calls: seq<Call>)
    requires Inv(db)
    ensures Inv(Replay(db, calls)) && KeepsFinished(db, Replay(db, calls))
    decreases |calls|
  {
    hide Inv, KeepsFinished, Perform;
    if calls == [] {
      KeepsFinishedRefl(db);
    } else {
      var first := Perform(db, calls[0]).db;
      KeepsFinishedCall(db, calls[0]);
      CallInv(db, calls[0]);
      KeepsFinishedHistory(first, calls[1..]);
      KeepsFinishedTrans(db, first, Replay(db, calls));
    }
  }

  /** Supervision of a run that has ended with an honest reason: what is counted is what it reports. */
  lemma FailureConfirmed(ended: Db, db: Db, r: RunId, lease: int, reason: Json, c: Clock, at: Time)
    requires Inv(ended) && Inv(db) && KeepsFinished(ended, db) && EndedWith(ended, r, reason)
    ensures var p := SupervisePlan(db, r, None, c, 0);
      p.Commit? ==>
        var counted := if p.value == RunCancelled then CancelledExecution else FailedExecution;
        && p.db == db && Agrees(db, r, counted, at)
        && (!NamedLeaseExpired(reason) ==> Exact(db, r, lease, Some(counted), Established, at))
  {
    hide Inv, CancellationDue, NamedLeaseExpired, ReapPlan, Do, Can;
    VerdictAgrees(db, r, None, c, 0);
  }

  // ---- What an attempt comes to, with other sessions interfering before each of its calls ----

  datatype BodyResult = Output(value: Json) | Fault(error: ExecutorError) | Panicked(text: Text)

  /** What other sessions do, and then this call's clock. */
  datatype Turn = Turn(others: seq<Call>, clock: Clock)

  /** One attempt's surroundings: is the task registered, how supervision polls go, how the body ends. */
  datatype Surroundings = Surroundings(
    registered: bool, initial: Turn, loading: Turn, polls: seq<Turn>, body: BodyResult,
    checking: Turn, deciding: Turn, confirming: Turn, elapsed: nat)

  predicate IsControl(kind: ErrorKind) {
    kind.SuspendedError? || kind.CancelledError? || kind.FailedRunError? || kind.LeaseLostError?
  }

  /** How an attempt ends: what it is counted under, the error it returns, its last answer and when, and the tables. */
  datatype Conclusion = Conclusion(
    outcome: Option<ExecutionOutcome>, error: Option<Error>, answer: Answer, at: Time, db: Db)

  function ByVerdict(v: Verdict, at: Time, db: Db): Conclusion
    requires v != StillRunning
  {
    Conclusion(Some(OutcomeOf(v)), if v == LeaseExpired then Some(LeaseLost) else None, Established, at, db)
  }

  function Unobserved(e: Error, at: Time, db: Db): Conclusion {
    Conclusion(None, Some(e), Refused(Observing, e), at, db)
  }

  function ByRefusal(stage: Stage, e: Error, at: Time, db: Db): Conclusion {
    var counted := CountedRefusal(stage, e);
    var quiet := counted == Some(CancelledExecution) || counted == Some(FailedExecution);
    Conclusion(counted, if quiet then None else Some(e), Refused(stage, e), at, db)
  }

  /** The failure transition, and its confirmation when it took effect. */
  function FailureEnd(db: Db, r: RunId, failure: Json, deciding: Turn, confirming: Turn): Conclusion {
    var before, at := Replay(db, deciding.others), deciding.clock[0];
    match FailPlan(before, r, Some(failure), false, deciding.clock, 0)
    case Raise(e) => ByRefusal(Failing, e, at, before)
    case Commit(_, ended, _) =>
      var later := Replay(ended, confirming.others);
      match SupervisePlan(later, r, None, confirming.clock, 0)
      case Raise(e) => Unobserved(e, at, later)
      case Commit(v, db', _) =>
        Conclusion(Some(if v == RunCancelled then CancelledExecution else FailedExecution), None, Established, at, db')
  }

  function OutputEnd(db: Db, r: RunId, value: Json, deciding: Turn): Conclusion {
    var before, at := Replay(db, deciding.others), deciding.clock[0];
    match CompletePlan(before, r, Some(value), deciding.clock, 0)
    case Raise(e) => ByRefusal(Completing, e, at, before)
    case Commit(done, db', _) =>
      Conclusion(Some(if done then CompletedExecution else CancelledExecution), None, Established, at, db')
  }

  /** The body ended first. A control-shaped error counts only if the tables confirm it. */
  function BodyEnd(db: Db, r: RunId, s: Surroundings): Conclusion {
    match s.body
    case Output(value) => OutputEnd(db, r, value, s.deciding)
    case Panicked(text) => FailureEnd(db, r, Payload("Panic", "panic: " + text), s.deciding, s.confirming)
    case Fault(e) =>
      if !IsControl(e.kind) then FailureEnd(db, r, Rendered(e), s.deciding, s.confirming)
      else
        var before := Replay(db, s.checking.others);
        match SupervisePlan(before, r, None, s.checking.clock, 0)
        case Raise(error) => Unobserved(error, s.checking.clock[0], before)
        case Commit(v, db', _) =>
          if v != StillRunning then ByVerdict(v, s.checking.clock[0], db')
          else FailureEnd(db', r, Rendered(e), s.deciding, s.confirming)
  }

  /** The polls, until one raises or finds the run not running, or until the body has ended. */
  datatype Watch = Outlived(db: Db) | Stopped(verdict: Verdict, at: Time, db: Db) | Interrupted(error: Error, at: Time,
                            db: Db)

  function Polls(db: Db, r: RunId, lease: int, polls: seq<Turn>): (watch: Watch)
    ensures watch.Stopped? ==> watch.verdict != StillRunning
    decreases |polls|
  {
    if polls == [] then Outlived(db)
    else
      var before, at := Replay(db, polls[0].others), polls[0].clock[0];
      match SupervisePlan(before, r, Some(lease), polls[0].clock, 0)
      case Raise(e) => Interrupted(e, at, before)
      case Commit(v, db', _) => if v == StillRunning then Polls(db', r, lease, polls[1..]) else Stopped(v, at, db')
  }

  /** A whole attempt: first supervision, loading of checkpoints, polls, body. */
  function AttemptEnd(db: Db, t: TaskId, r: RunId, lease: int, s: Surroundings): Conclusion {
    if !s.registered then Conclusion(None, Some(UnsupportedState), Unregistered, s.initial.clock[0], db)
    else
      match Polls(db, r, lease, [s.initial])
      case Interrupted(e, at, db') => Unobserved(e, at, db')
      case Stopped(v, at, db') => ByVerdict(v, at, db')
      case Outlived(started) =>
        var before := Replay(started, s.loading.others);
        match LoadCheckpointsPlan(before, t, r, s.loading.clock, 0)
        case Raise(InvalidTaskHeaders) =>
          FailureEnd(before, r, Rendered(BAD_HEADERS), s.deciding, s.confirming)
        case Raise(e) => ByRefusal(Loading, e, s.loading.clock[0], before)
        case Commit(_, _, _) =>
          match Polls(before, r, lease, s.polls)
          case Interrupted(e, at, db') => Unobserved(e, at, db')
          case Stopped(v, at, db') => ByVerdict(v, at, db')
          case Outlived(db') => BodyEnd(db', r, s)
  }

  const BAD_HEADERS := ExecutorError(OtherError, "invalid task headers", [])

  // ---- How it is counted is what supervision reports, exactly when the tables say so ----

  /** The conclusion is counted exactly, and leaves tables that meet the invariant. */
  ghost predicate Truthful(k: Conclusion, r: RunId, lease: int) {
    Inv(k.db) && Exact(k.db, r, lease, k.outcome, k.answer, k.at)
  }

  lemma FailureEndTruthful(db: Db, r: RunId, lease: int, failure: Json, deciding: Turn, confirming: Turn)
    requires Inv(db)
    ensures var k := FailureEnd(db, r, failure, deciding, confirming);
      && Inv(k.db) && (k.outcome.Some? ==> Agrees(k.db, r, k.outcome.value, k.at))
      && (!NamedLeaseExpired(failure) ==> Truthful(k, r, lease))
  {
    hide Inv, FailPlan, SupervisePlan, KeepsFinished, NamedLeaseExpired, EndedWith, Agrees, Reported, Differs;
    var before, at := Replay(db, deciding.others), deciding.clock[0];
    KeepsFinishedHistory(db, deciding.others);
    FailExact(before, r, lease, failure, deciding.clock);
    FailKeepsInv(before, r, Some(failure), deciding.clock);
    var p := FailPlan(before, r, Some(failure), false, deciding.clock, 0);
    if p.Commit? {
      var later := Replay(p.db, confirming.others);
      KeepsFinishedHistory(p.db, confirming.others);
      FailureConfirmed(p.db, later, r, lease, failure, confirming.clock, at);
      if SupervisePlan(later, r, None, confirming.clock, 0).Raise? {
        ObservingExact(later, r, lease, None, confirming.clock, at);
      }
    }
  }

  lemma FailKeepsInv(db: Db, r: RunId, reason: Option<Json>, c: Clock)
    requires Inv(db)
    ensures FailPlan(db, r, reason, false, c, 0).Commit? ==> Inv(FailPlan(db, r, reason, false, c, 0).db)
  {
    hide Inv, FailPlan;
    CallInv(db, Call(Fail(r, reason), c));
  }

  lemma CompleteKeepsInv(db: Db, r: RunId, result: Option<Json>, c: Clock)
    requires Inv(db)
    ensures CompletePlan(db, r, result, c, 0).Commit? ==> Inv(CompletePlan(db, r, result, c, 0).db)
  {
    hide Inv, CompletePlan;
    CallInv(db, Call(Complete(r, result), c));
  }

  lemma SuperviseKeepsInv(db: Db, r: RunId, renew: Option<int>, c: Clock)
    requires Inv(db)
    ensures SupervisePlan(db, r, renew, c, 0).Commit? ==> Inv(SupervisePlan(db, r, renew, c, 0).db)
  {
    hide Inv, SupervisePlan;
    CallInv(db, Call(Supervise(r, renew), c));
  }

  lemma OutputEndTruthful(db: Db, r: RunId, lease: int, value: Json, deciding: Turn)
    requires Inv(db)
    ensures Truthful(OutputEnd(db, r, value, deciding), r, lease)
  {
    hide Inv, CompletePlan, KeepsFinished, Exact;
    var before := Replay(db, deciding.others);
    KeepsFinishedHistory(db, deciding.others);
    CompleteExact(before, r, lease, value, deciding.clock);
    CompleteKeepsInv(before, r, Some(value), deciding.clock);
  }

  /** One supervision: without a verdict the attempt is unhandled, with one it is counted under it. */
  lemma ObservedTruthful(db: Db, r: RunId, lease: int, renew: Option<int>, turn: Turn)
    requires Inv(db) && (renew == None || renew == Some(lease))
    ensures var before, at := Replay(db, turn.others), turn.clock[0];
      match SupervisePlan(before, r, renew, turn.clock, 0)
      case Raise(e) => Truthful(Unobserved(e, at, before), r, lease)
      case Commit(v, db', _) => Inv(db') && (v != StillRunning ==> Truthful(ByVerdict(v, at, db'), r, lease))
  {
    hide Inv, SupervisePlan, KeepsFinished, Exact, VerdictOf;
    var before, at := Replay(db, turn.others), turn.clock[0];
    KeepsFinishedHistory(db, turn.others);
    var p := SupervisePlan(before, r, renew, turn.clock, 0);
    SuperviseKeepsInv(before, r, renew, turn.clock);
    VerdictAgrees(before, r, renew, turn.clock, 0);
    if p.Raise? {
      ObservingExact(before, r, lease, renew, turn.clock, at);
    } else if p.value != StillRunning {
      VerdictExact(p.db, r, lease, p.value, at);
    }
  }

  lemma BodyEndTruthful(db: Db, r: RunId, lease: int, s: Surroundings)
    requires Inv(db)
    ensures Truthful(BodyEnd(db, r, s), r, lease)
  {
    hide Truthful, SupervisePlan, FailureEnd, OutputEnd, NamedLeaseExpired, Rendered, Payload, Inv;
    match s.body
    case Output(value) => OutputEndTruthful(db, r, lease, value, s.deciding);
    case Panicked(text) =>
      PayloadHonest("Panic", "panic: " + text);
      FailureEndTruthful(db, r, lease, Payload("Panic", "panic: " + text), s.deciding, s.confirming);
    case Fault(e) =>
      RenderedHonest(e);
      if IsControl(e.kind) {
        ObservedTruthful(db, r, lease, None, s.checking);
        var p := SupervisePlan(Replay(db, s.checking.others), r, None, s.checking.clock, 0);
        if p.Commit? && p.value == StillRunning {
          FailureEndTruthful(p.db, r, lease, Rendered(e), s.deciding, s.confirming);
        }
      } else {
        FailureEndTruthful(db, r, lease, Rendered(e), s.deciding, s.confirming);
      }
  }

  lemma {:induction false} PollsTruthful(db: Db, r: RunId, lease: int, polls: seq<Turn>)
    requires Inv(db)
    ensures match Polls(db, r, lease, polls)
      case Outlived(db') => Inv(db')
      case Interrupted(e, at, db') => Truthful(Unobserved(e, at, db'), r, lease)
      case Stopped(v, at, db') => Truthful(ByVerdict(v, at, db'), r, lease)
    decreases |polls|
  {
    hide Inv, Truthful, SupervisePlan;
    if polls != [] {
      ObservedTruthful(db, r, lease, Some(lease), polls[0]);
      var p := SupervisePlan(Replay(db, polls[0].others), r, Some(lease), polls[0].clock, 0);
      if p.Commit? && p.value == StillRunning {
        PollsTruthful(p.db, r, lease, polls[1..]);
      }
    }
  }

  /**
   * Every attempt, whatever other sessions do before each of its calls: it is counted as supervision
   * reports its run, a run without a verdict as unhandled, if and only if not `Differs`. That is a
   * condition on the tables that its last call found.
   */
  lemma AttemptTruthful(db: Db, t: TaskId, r: RunId, lease: int, s: Surroundings)
    requires Inv(db)
    ensures Truthful(AttemptEnd(db, t, r, lease, s), r, lease)
  {
    hide Inv, Truthful, Polls, BodyEnd, FailureEnd, LoadCheckpointsPlan, KeepsFinished, NamedLeaseExpired, Rendered;
    if !s.registered {
      UnregisteredTruthful(db, r, lease, s.initial.clock[0]);
    } else {
      PollsTruthful(db, r, lease, [s.initial]);
      var first := Polls(db, r, lease, [s.initial]);
      if first.Outlived? {
        var before := Replay(first.db, s.loading.others);
        KeepsFinishedHistory(first.db, s.loading.others);
        var p := LoadCheckpointsPlan(before, t, r, s.loading.clock, 0);
        if p.Raise? {
          LoadTruthful(before, t, r, lease, s.loading.clock);
        } else {
          PollsTruthful(before, r, lease, s.polls);
          var watch := Polls(before, r, lease, s.polls);
          if watch.Outlived? {
            BodyEndTruthful(watch.db, r, lease, s);
          }
        }
      }
    }
  }

  lemma LoadTruthful(db: Db, t: TaskId, r: RunId, lease: int, c: Clock)
    requires Inv(db) && LoadCheckpointsPlan(db, t, r, c, 0).Raise?
    ensures var e := LoadCheckpointsPlan(db, t, r, c, 0).error;
      e != InvalidTaskHeaders && Truthful(ByRefusal(Loading, e, c[0], db), r, lease)
  {
    hide Inv, LoadCheckpointsPlan, Exact;
    LoadExact(db, t, r, lease, c);
  }

  lemma UnregisteredTruthful(db: Db, r: RunId, lease: int, at: Time)
    requires Inv(db)
    ensures Truthful(Conclusion(None, Some(UnsupportedState), Unregistered, at, db), r, lease)
  {
    hide Inv, VerdictOf;
    SettledIff(db, r);
  }

  // ---- The executor carries it out ----

  /** Calls of other sessions, served between two calls of this one. */
  method Interfere(q: Q.QueueStorage, calls: seq<Call>)
    requires Inv(q.Snapshot())
    modifies q
    ensures q.Snapshot() == Replay(old(q.Snapshot()), calls) && Inv(q.Snapshot())
  {
    hide Inv, Perform;
    var i := 0;
    assert calls[0..] == calls;
    while i < |calls|
      invariant 0 <= i <= |calls|
      invariant Inv(q.Snapshot()) && Replay(q.Snapshot(), calls[i..]) == Replay(old(q.Snapshot()), calls)
    {
      assert calls[i..][0] == calls[i] && calls[i..][1..] == calls[i + 1..];
      Serve(q, calls[i]);
      i := i + 1;
    }
  }

  /** One supervision call after whatever others did. */
  method Observe(q: Q.QueueStorage, r: RunId, renew: Option<int>, turn: Turn) returns (res: Result<Verdict>)
    requires Inv(q.Snapshot())
    modifies q
    ensures var before := Replay(old(q.Snapshot()), turn.others);
      Q.Follows(SupervisePlan(before, r, renew, turn.clock, 0), before, q.Snapshot(), res)
    ensures Inv(q.Snapshot())
  {
    hide Inv, SupervisePlan;
    Interfere(q, turn.others);
    SuperviseKeepsInv(q.Snapshot(), r, renew, turn.clock);
    res := q.SuperviseRun(r, renew, turn.clock, 0);
  }

  /** The outcome, the error and the tables are those of the conclusion. */
  ghost predicate Concludes(k: Conclusion, outcome: Option<ExecutionOutcome>, error: Option<Error>, db: Db) {
    outcome == k.outcome && error == k.error && db == k.db
  }

  method FinishFailure(q: Q.QueueStorage, r: RunId, failure: Json, deciding: Turn, confirming: Turn)
    returns (outcome: Option<ExecutionOutcome>, error: Option<Error>)
    requires Inv(q.Snapshot())
    modifies q
    ensures Concludes(FailureEnd(old(q.Snapshot()), r, failure, deciding, confirming), outcome, error, q.Snapshot())
  {
    hide Inv, FailPlan, Q.FailEffect, SupervisePlan;
    Interfere(q, deciding.others);
    ghost var before := q.Snapshot();
    var failed := q.FailRun(r, Some(failure), false, deciding.clock, 0);
    Q.FailFollows(before, r, Some(failure), false, deciding.clock, 0, q.Snapshot(), failed);
    FailKeepsInv(before, r, Some(failure), deciding.clock);
    if failed.Ok? {
      var persisted := Observe(q, r, None, confirming);
      if persisted.Err? {
        return None, Some(persisted.error);
      }
      if persisted.value == RunCancelled {
        return Some(CancelledExecution), None;
      }
      return Some(FailedExecution), None;
    }
    match failed.error
    case TaskCancelled => return Some(CancelledExecution), None;
    case RunAlreadyFailed => return Some(FailedExecution), None;
    case LeaseLost => return Some(LeaseLostExecution), Some(LeaseLost);
    case e => return None, Some(e);
  }

  /** The end of an attempt whose body returned a value. */
  method FinishOutput(q: Q.QueueStorage, r: RunId, value: Json, deciding: Turn)
    returns (outcome: Option<ExecutionOutcome>, error: Option<Error>)
    requires Inv(q.Snapshot())
    modifies q
    ensures Concludes(OutputEnd(old(q.Snapshot()), r, value, deciding), outcome, error, q.Snapshot())
  {
    hide Inv, CompletePlan;
    Interfere(q, deciding.others);
    var completed := q.CompleteRun(r, Some(value), deciding.clock, 0);
    if completed.Ok? {
      return Some(if completed.value then CompletedExecution else CancelledExecution), None;
    }
    match completed.error
    case TaskCancelled => return Some(CancelledExecution), None;
    case LeaseLost => return Some(LeaseLostExecution), Some(LeaseLost);
    case e => return None, Some(e);
  }

  /** The end of an attempt whose body finished before supervision did. */
  method FinishBody(q: Q.QueueStorage, r: RunId, s: Surroundings)
    returns (outcome: Option<ExecutionOutcome>, error: Option<Error>)
    requires Inv(q.Snapshot())
    modifies q
    ensures Concludes(BodyEnd(old(q.Snapshot()), r, s), outcome, error, q.Snapshot())
  {
    hide Inv, FailureEnd, OutputEnd, SupervisePlan, Rendered;
    match s.body
    case Output(value) =>
      outcome, error := FinishOutput(q, r, value, s.deciding);
    case Fault(e) =>
      if IsControl(e.kind) {
        var verdict := Observe(q, r, None, s.checking);
        if verdict.Err? {
          return None, Some(verdict.error);
        }
        if verdict.value != StillRunning {
          var reported := OutcomeOf(verdict.value);
          return Some(reported), if reported == LeaseLostExecution then Some(LeaseLost) else None;
        }
      }
      var failure := SerializeError(e);
      outcome, error := FinishFailure(q, r, failure, s.deciding, s.confirming);
    case Panicked(text) =>
      outcome, error := FinishFailure(q, r, Payload("Panic", "panic: " + text), s.deciding, s.confirming);
  }

  /** Polls until the run is no longer running or the body ends; None when the body ends first. */
  method SuperviseExecution(q: Q.QueueStorage, r: RunId, lease: int, polls: seq<Turn>)
    returns (res: Result<Option<ExecutionOutcome>>)
    requires Inv(q.Snapshot())
    modifies q
    ensures Inv(q.Snapshot())
    ensures match Polls(old(q.Snapshot()), r, lease, polls)
      case Outlived(db) => res == Ok(None) && q.Snapshot() == db
      case Stopped(v, _, db) => res == Ok(Some(OutcomeOf(v))) && q.Snapshot() == db
      case Interrupted(e, _, db) => res == Err(e) && q.Snapshot() == db
  {
    hide Inv, SupervisePlan;
    var i := 0;
    assert polls[0..] == polls;
    while i < |polls|
      invariant 0 <= i <= |polls|
      invariant Inv(q.Snapshot())
      invariant Polls(q.Snapshot(), r, lease, polls[i..]) == Polls(old(q.Snapshot()), r, lease, polls)
    {
      assert polls[i..][0] == polls[i] && polls[i..][1..] == polls[i + 1..];
      var verdict := Observe(q, r, Some(lease), polls[i]);
      if verdict.Err? {
        return Err(verdict.error);
      }
      if verdict.value != StillRunning {
        return Ok(Some(OutcomeOf(verdict.value)));
      }
      i := i + 1;
    }
    return Ok(None);
  }

  /**
   * One execution attempt: it comes to its conclusion, on the tables and in what it returns, and is
   * counted exactly once, under the outcome of that conclusion. `AttemptTruthful` says what that means.
   */
  method ExecuteTask(q: Q.QueueStorage, metrics: QueueMetrics, t: TaskId, r: RunId, lease: int, s: Surroundings)
    returns (outcome: Option<ExecutionOutcome>, error: Option<Error>)
    requires Inv(q.Snapshot()) && metrics.Valid()
    modifies q, metrics
    ensures Concludes(AttemptEnd(old(q.Snapshot()), t, r, lease, s), outcome, error, q.Snapshot())
    ensures Truthful(AttemptEnd(old(q.Snapshot()), t, r, lease, s), r, lease)
    ensures metrics.Valid() && metrics.high == old(metrics.high)
    ensures metrics.truth == Ended(old(metrics.truth), outcome, s.elapsed)
  {
    hide Inv, Truthful, Ended, AttemptEnd;
    AttemptTruthful(q.Snapshot(), t, r, lease, s);
    var execution := new TaskExecution(metrics);
    outcome, error := Attempt(q, t, r, lease, s);
    if outcome.Some? {
      execution.Finish(outcome.value, s.elapsed);
    } else {
      execution.Drop(s.elapsed);
    }
  }

  /** The database side of an attempt, up to the outcome. */
  method Attempt(q: Q.QueueStorage, t: TaskId, r: RunId, lease: int, s: Surroundings)
    returns (outcome: Option<ExecutionOutcome>, error: Option<Error>)
    requires Inv(q.Snapshot())
    modifies q
    ensures Concludes(AttemptEnd(old(q.Snapshot()), t, r, lease, s), outcome, error, q.Snapshot())
  {
    hide Inv, Polls, BodyEnd, FailureEnd, LoadCheckpointsPlan, Rendered;
    if !s.registered {
      return None, Some(UnsupportedState);
    }
    var first := SuperviseExecution(q, r, lease, [s.initial]);
    if first.Err? {
      return None, Some(first.error);
    }
    if first.value.Some? {
      return first.value, if first.value == Some(LeaseLostExecution) then Some(LeaseLost) else None;
    }
    Interfere(q, s.loading.others);
    var context := TaskContext.New(q, t, r, s.loading.clock);
    if context.Err? {
      if context.error == InvalidTaskHeaders {
        var failure := SerializeError(BAD_HEADERS);
        outcome, error := FinishFailure(q, r, failure, s.deciding, s.confirming);
        return;
      }
      return if context.error == LeaseLost then Some(LeaseLostExecution) else None, Some(context.error);
    }
    var supervised := SuperviseExecution(q, r, lease, s.polls);
    if supervised.Err? {
      return None, Some(supervised.error);
    }
    if supervised.value.Some? {
      return supervised.value, if supervised.value == Some(LeaseLostExecution) then Some(LeaseLost) else None;
    }
    outcome, error := FinishBody(q, r, s);
  }

  // ---- Inputs at which counting and supervision part, each reached from an empty queue ----

  /** The reaper failed the run for good; the worker's own failure then counts as failed, not as a lost lease. */
  lemma ReapedCountsAsFailed(failure: Json)
    ensures var db := Leased(NoRetry, None, 1);
      && ReapPlan(db, 1, [1.0], 0).Commit?
      && var db' := ReapPlan(db, 1, [1.0], 0).db;
         && FailPlan(db', 1, Some(failure), false, [2.0], 0) == Raise(RunAlreadyFailed)
         && CountedRefusal(Failing, RunAlreadyFailed) == Some(FailedExecution)
         && VerdictOf(db', 1) == Some(LeaseExpired)
  {
    hide LeaseExpiredReason, NamedLeaseExpired;
    ReservedName(Leased(NoRetry, None, 1).runs[1]);
  }

  /** The reaper failed the run and cancelled its task; supervision reports the cancellation. */
  lemma CancelledCountsAsFailed(failure: Json)
    ensures var db := Leased(Fixed(10.0), Some(Policy(None, Some(5))), 1);
      && ReapPlan(db, 1, [1.0], 0).Commit?
      && var db' := ReapPlan(db, 1, [1.0], 0).db;
         && FailPlan(db', 1, Some(failure), false, [2.0], 0) == Raise(RunAlreadyFailed)
         && CountedRefusal(Failing, RunAlreadyFailed) == Some(FailedExecution)
         && VerdictOf(db', 1) == Some(RunCancelled)
  {
    hide LeaseExpiredReason, NamedLeaseExpired;
  }

  /** The lease has run out and nobody has reaped the run; supervision would do so. */
  lemma UnreapedCountsAsLost(result: Json)
    ensures var db := Leased(NoRetry, None, 1);
      && CompletePlan(db, 1, Some(result), [1.0], 0) == Raise(LeaseLost)
      && CountedRefusal(Completing, LeaseLost) == Some(LeaseLostExecution)
      && VerdictOf(db, 1) == Some(StillRunning)
  {
  }

  /** A client cancels while checkpoints are loaded: unhandled, though supervision reports the cancellation. */
  lemma CancelledWhileLoading()
    ensures var db := Leased(NoRetry, None, 10);
      && CancelPlan(db, 0, [1.0], 0).Commit?
      && var db' := CancelPlan(db, 0, [1.0], 0).db;
         && LoadCheckpointsPlan(db', 0, 1, [1.0], 0) == Raise(TaskCancelled)
         && CountedRefusal(Loading, TaskCancelled) == None
         && VerdictOf(db', 1) == Some(RunCancelled)
  {
  }

  /** The run is reaped before its result is published: unhandled, though supervision reports a lost lease. */
  lemma ReapedBeforeCompletion(result: Json)
    ensures var db := Leased(NoRetry, None, 1);
      && ReapPlan(db, 1, [1.0], 0).Commit?
      && var db' := ReapPlan(db, 1, [1.0], 0).db;
         && CompletePlan(db', 1, Some(result), [2.0], 0) == Raise(RunAlreadyFailed)
         && CountedRefusal(Completing, RunAlreadyFailed) == None
         && VerdictOf(db', 1) == Some(LeaseExpired)
  {
    hide LeaseExpiredReason, NamedLeaseExpired;
    ReservedName(Leased(NoRetry, None, 1).runs[1]);
  }

  /** Another holder of the run fails it first: unhandled, though supervision reports the failure. */
  lemma FailedByAnotherHolder(failure: Json, result: Json)
    requires !NamedLeaseExpired(failure)
    ensures var db := Leased(NoRetry, None, 10);
      && FailPlan(db, 1, Some(failure), false, [1.0], 0).Commit?
      && var db' := FailPlan(db, 1, Some(failure), false, [1.0], 0).db;
         && CompletePlan(db', 1, Some(result), [2.0], 0) == Raise(RunAlreadyFailed)
         && CountedRefusal(Completing, RunAlreadyFailed) == None
         && VerdictOf(db', 1) == Some(RunFailed)
  {
    hide LeaseExpiredReason, NamedLeaseExpired;
  }

  /** Another holder completes the run first: a failure is refused and unhandled, though the run is completed. */
  lemma CompletedByAnotherHolder(result: Json, failure: Json)
    ensures var db := Leased(NoRetry, None, 10);
      && CompletePlan(db, 1, Some(result), [1.0], 0).Commit?
      && var db' := CompletePlan(db, 1, Some(result), [1.0], 0).db;
         && FailPlan(db', 1, Some(failure), false, [2.0], 0) == Raise(NotRunning)
         && CountedRefusal(Failing, NotRunning) == None
         && VerdictOf(db', 1) == Some(RunCompleted)
  {
    hide LeaseExpiredReason, NamedLeaseExpired;
  }
}
