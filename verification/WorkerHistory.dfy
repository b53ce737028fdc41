/** A worker's run, with all that other sessions do, is one history of database calls. */
module WorkerHistory {
  import opened Basics
  import opened Storage
  import opened Plans
  import opened History
  import opened Metrics
  import opened Executor
  import opened Worker

  /** What others do, and then one call of this session. */
  function TurnCalls(turn: Turn, op: Op): seq<Call> {
    turn.others + [Call(op, turn.clock)]
  }

  lemma TurnLeads(db: Db, turn: Turn, op: Op)
    ensures Replay(db, TurnCalls(turn, op)) == Perform(Replay(db, turn.others), Call(op, turn.clock)).db
  {
    hide Perform;
    var call := Call(op, turn.clock);
    ReplayConcat(db, turn.others, [call]);
    var before := Replay(db, turn.others);
    assert [call][1..] == [];
    assert Replay(Perform(before, call).db, []) == Perform(before, call).db;
  }

  /** The calls of an attempt's end by failure: the failure, and its confirmation if it took effect. */
  function FailureCalls(db: Db, r: RunId, failure: Json, deciding: Turn, confirming: Turn): seq<Call> {
    var first := TurnCalls(deciding, Fail(r, Some(failure)));
    if FailPlan(Replay(db, deciding.others), r, Some(failure), false, deciding.clock, 0).Raise? then first
    else first + TurnCalls(confirming, Supervise(r, None))
  }

  function BodyCalls(db: Db, r: RunId, s: Surroundings): seq<Call> {
    match s.body
    case Output(value) => TurnCalls(s.deciding, Complete(r, Some(value)))
    case Panicked(text) => FailureCalls(db, r, Payload("Panic", "panic: " + text), s.deciding, s.confirming)
    case Fault(e) =>
      if !IsControl(e.kind) then FailureCalls(db, r, Rendered(e), s.deciding, s.confirming)
      else
        var check := TurnCalls(s.checking, Supervise(r, None));
        var p := SupervisePlan(Replay(db, s.checking.others), r, None, s.checking.clock, 0);
        if p.Raise? || p.value != StillRunning then check
        else check + FailureCalls(p.db, r, Rendered(e), s.deciding, s.confirming)
  }

  function PollCalls(db: Db, r: RunId, lease: int, polls: seq<Turn>): seq<Call>
    decreases |polls|
  {
    if polls == [] then []
    else
      var p := SupervisePlan(Replay(db, polls[0].others), r, Some(lease), polls[0].clock, 0);
      var poll := TurnCalls(polls[0], Supervise(r, Some(lease)));
      if p.Raise? || p.value != StillRunning then poll else poll + PollCalls(p.db, r, lease, polls[1..])
  }

  /** All calls of an attempt: first supervision, loading, polls until the body ends, and its end. */
  function AttemptCalls(db: Db, t: TaskId, r: RunId, lease: int, s: Surroundings): seq<Call> {
    if !s.registered then []
    else
      var first := PollCalls(db, r, lease, [s.initial]);
      match Polls(db, r, lease, [s.initial])
      case Outlived(started) =>
        var before := Replay(started, s.loading.others);
        var loaded := first + TurnCalls(s.loading, LoadCheckpoints(t, r));
        var p := LoadCheckpointsPlan(before, t, r, s.loading.clock, 0);
        if p.Raise? then
          if p.error == InvalidTaskHeaders then
            loaded + FailureCalls(before, r, Rendered(BAD_HEADERS), s.deciding, s.confirming)
          else loaded
        else
          var polled := loaded + PollCalls(before, r, lease, s.polls);
          (match Polls(before, r, lease, s.polls)
           case Outlived(db') => polled + BodyCalls(db', r, s)
           case _ => polled)
      case _ => first
  }

  lemma FailureLeads(db: Db, r: RunId, failure: Json, deciding: Turn, confirming: Turn)
    ensures Replay(db, FailureCalls(db, r, failure, deciding, confirming))
      == FailureEnd(db, r, failure, deciding, confirming).db
  {
    hide FailPlan, SupervisePlan, Replay, CountedRefusal;
    TurnLeads(db, deciding, Fail(r, Some(failure)));
    var p := FailPlan(Replay(db, deciding.others), r, Some(failure), false, deciding.clock, 0);
    if p.Commit? {
      TurnLeads(p.db, confirming, Supervise(r, None));
      ReplayConcat(db, TurnCalls(deciding, Fail(r, Some(failure))), TurnCalls(confirming, Supervise(r, None)));
    }
  }

  lemma BodyLeads(db: Db, r: RunId, s: Surroundings)
    ensures Replay(db, BodyCalls(db, r, s)) == BodyEnd(db, r, s).db
  {
    hide FailPlan, SupervisePlan, CompletePlan, Replay, CountedRefusal, Rendered, FailureEnd, FailureCalls, TurnCalls;
    match s.body
    case Output(value) => TurnLeads(db, s.deciding, Complete(r, Some(value)));
    case Panicked(text) => FailureLeads(db, r, Payload("Panic", "panic: " + text), s.deciding, s.confirming);
    case Fault(e) =>
      FailureLeads(db, r, Rendered(e), s.deciding, s.confirming);
      TurnLeads(db, s.checking, Supervise(r, None));
      var p := SupervisePlan(Replay(db, s.checking.others), r, None, s.checking.clock, 0);
      if p.Commit? {
        FailureLeads(p.db, r, Rendered(e), s.deciding, s.confirming);
        ReplayConcat(db, TurnCalls(s.checking, Supervise(r, None)),
                   FailureCalls(p.db, r, Rendered(e), s.deciding, s.confirming));
      }
  }

  lemma {:induction false} PollsLead(db: Db, r: RunId, lease: int, polls: seq<Turn>)
    ensures Replay(db, PollCalls(db, r, lease, polls)) == Polls(db, r, lease, polls).db
    decreases |polls|
  {
    hide SupervisePlan, TurnCalls;
    if polls != [] {
      TurnLeads(db, polls[0], Supervise(r, Some(lease)));
      var p := SupervisePlan(Replay(db, polls[0].others), r, Some(lease), polls[0].clock, 0);
      if p.Commit? && p.value == StillRunning {
        PollsLead(p.db, r, lease, polls[1..]);
        ReplayConcat(db, TurnCalls(polls[0], Supervise(r, Some(lease))), PollCalls(p.db, r, lease, polls[1..]));
      }
    }
  }

  /** Loading leaves the tables as they are. */
  lemma LoadingLeads(db: Db, first: seq<Call>, t: TaskId, r: RunId, turn: Turn)
    ensures Replay(db, first + TurnCalls(turn, LoadCheckpoints(t, r))) == Replay(Replay(db, first), turn.others)
  {
    hide Replay, LockError;
    ReplayConcat(db, first, TurnCalls(turn, LoadCheckpoints(t, r)));
    TurnLeads(Replay(db, first), turn, LoadCheckpoints(t, r));
  }

  /** The tables that an attempt leaves are those its calls lead to, with what others do in between. */
  lemma AttemptLeads(db: Db, t: TaskId, r: RunId, lease: int, s: Surroundings)
    ensures Replay(db, AttemptCalls(db, t, r, lease, s)) == AttemptEnd(db, t, r, lease, s).db
  {
    hide Replay, PollCalls, TurnCalls, Polls, LoadCheckpointsPlan, FailureCalls, FailureEnd, BodyCalls, BodyEnd,
         CountedRefusal, Rendered;
    if s.registered {
      var first, watch := PollCalls(db, r, lease, [s.initial]), Polls(db, r, lease, [s.initial]);
      PollsLead(db, r, lease, [s.initial]);
      if watch.Outlived? {
        var before := Replay(watch.db, s.loading.others);
        var loaded := first + TurnCalls(s.loading, LoadCheckpoints(t, r));
        LoadingLeads(db, first, t, r, s.loading);
        FailureLeads(before, r, Rendered(BAD_HEADERS), s.deciding, s.confirming);
        ReplayConcat(db, loaded, FailureCalls(before, r, Rendered(BAD_HEADERS), s.deciding, s.confirming));
        var polled, watch' := loaded + PollCalls(before, r, lease, s.polls), Polls(before, r, lease, s.polls);
        PollsLead(before, r, lease, s.polls);
        ReplayConcat(db, loaded, PollCalls(before, r, lease, s.polls));
        BodyLeads(watch'.db, r, s);
        ReplayConcat(db, polled, BodyCalls(watch'.db, r, s));
      }
    } else {
      NoCalls(db);
    }
  }

  lemma NoCalls(db: Db)
    ensures Replay(db, []) == db
  {
  }

  function StepCalls(a: Account, lease: int, step: Step): seq<Call> {
    match step
    case Ask(call, turn) => TurnCalls(turn, Claim(call))
    case Execute(x, Ran(surroundings)) => AttemptCalls(a.db, x.task, x.run, lease, surroundings)
    case _ => []
  }

  lemma StepLeads(a: Account, lease: int, step: Step)
    ensures Replay(a.db, StepCalls(a, lease, step)) == StepEnd(a, lease, step).db
  {
    hide Replay, AttemptCalls, AttemptEnd, ClaimPlan, TurnCalls, Ended;
    NoCalls(a.db);
    match step
    case Ask(call, turn) => TurnLeads(a.db, turn, Claim(call));
    case Execute(x, Ran(surroundings)) => AttemptLeads(a.db, x.task, x.run, lease, surroundings);
    case _ =>
  }

  /** All calls that a worker and the sessions around it make, in order. */
  function LogCalls(s: Session, log: seq<Step>): seq<Call>
    decreases |log|
  {
    if log == [] then []
    else
      var init, step := log[..|log| - 1], log[|log| - 1];
      LogCalls(s, init) + StepCalls(After(s, init), s.w.leaseSeconds, step)
  }

  /**
   * The tables a worker leaves are those its history leads to, so whatever is proved of every history
   * holds of every worker and everything that happens around it.
   */
  lemma {:induction false} WorkerIsHistory(s: Session, log: seq<Step>)
    ensures Replay(s.db, LogCalls(s, log)) == After(s, log).db
    decreases |log|
  {
    hide Replay, StepCalls, StepEnd;
    if log == [] {
      NoCalls(s.db);
    } else {
      var init, step := log[..|log| - 1], log[|log| - 1];
      WorkerIsHistory(s, init);
      StepLeads(After(s, init), s.w.leaseSeconds, step);
      ReplayConcat(s.db, LogCalls(s, init), StepCalls(After(s, init), s.w.leaseSeconds, step));
    }
  }
}
