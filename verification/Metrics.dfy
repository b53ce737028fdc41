/** Queue counters that saturate, and the guard that counts every execution attempt exactly once. */
module Metrics {
  import opened Basics

  datatype ExecutionOutcome =
    | CompletedExecution
    | FailedExecution
    | LeaseLostExecution
    | CancelledExecution
    | SuspendedExecution

  /** The values of all counters. */
  datatype Tally = Tally(
    claimed: nat, claimErrors: nat, executions: nat,
    completed: nat, failed: nat, leaseLost: nat, cancelled: nat, suspended: nat, unhandled: nat,
    nanoseconds: nat)

  const ZERO: Tally := Tally(0, 0, 0, 0, 0, 0, 0, 0, 0, 0)

  function Clamp(n: nat): nat {
    Min(n, U64_MAX)
  }

  /** The counters an unbounded tally shows when each stops at the largest 64-bit value. */
  function Shown(t: Tally): Tally {
    Tally(Clamp(t.claimed), Clamp(t.claimErrors), Clamp(t.executions), Clamp(t.completed), Clamp(t.failed),
          Clamp(t.leaseLost), Clamp(t.cancelled), Clamp(t.suspended), Clamp(t.unhandled), Clamp(t.nanoseconds))
  }

  /** Every execution has exactly one of the five outcomes, or none and is unhandled. */
  predicate Balanced(t: Tally) {
    t.executions == t.completed + t.failed + t.leaseLost + t.cancelled + t.suspended + t.unhandled
  }

  /** Claimed runs whose execution has not been counted. */
  function InFlight(t: Tally): int {
    t.claimed - t.executions
  }

  lemma ZeroShown()
    ensures Shown(ZERO) == ZERO && Balanced(ZERO) && InFlight(ZERO) == 0
  {
  }

  /** One more execution has ended. */
  function Ended(t: Tally, outcome: Option<ExecutionOutcome>, elapsed: nat): (t': Tally)
    ensures Balanced(t) ==> Balanced(t')
    ensures t'.executions == t.executions + 1 && t'.claimed == t.claimed && t'.claimErrors == t.claimErrors
    ensures t'.unhandled == t.unhandled + if outcome.None? then 1 else 0
  {
    var n := t.(executions := t.executions + 1, nanoseconds := t.nanoseconds + elapsed);
    match outcome
    case None => n.(unhandled := t.unhandled + 1)
    case Some(CompletedExecution) => n.(completed := t.completed + 1)
    case Some(FailedExecution) => n.(failed := t.failed + 1)
    case Some(LeaseLostExecution) => n.(leaseLost := t.leaseLost + 1)
    case Some(CancelledExecution) => n.(cancelled := t.cancelled + 1)
    case Some(SuspendedExecution) => n.(suspended := t.suspended + 1)
  }

  /** The shown counters balance for as long as the number of executions has not saturated. */
  lemma ShownBalance(t: Tally)
    requires Balanced(t)
    ensures t.executions <= U64_MAX ==> Balanced(Shown(t))
  {
  }

  class QueueMetrics {
    var claimedRuns: nat
    var claimErrors: nat
    var executions: nat
    var completedExecutions: nat
    var failedExecutions: nat
    var leaseLostExecutions: nat
    var cancelledExecutions: nat
    var suspendedExecutions: nat
    var unhandledExecutions: nat
    var executionDurationNanoseconds: nat
    /** What the counters would hold without saturation. */
    ghost var truth: Tally
    /** The most claimed runs that were ever waiting for their execution to be counted. */
    ghost var high: int

    function Counters(): Tally
      reads this
    {
      Tally(claimedRuns, claimErrors, executions, completedExecutions, failedExecutions, leaseLostExecutions,
            cancelledExecutions, suspendedExecutions, unhandledExecutions, executionDurationNanoseconds)
    }

    ghost predicate Valid()
      reads this
    {
      Counters() == Shown(truth) && Balanced(truth) && InFlight(truth) <= high
    }

    constructor ()
      ensures Valid() && truth == ZERO && high == 0
    {
      hide *;
      claimedRuns, claimErrors, executions := 0, 0, 0;
      completedExecutions, failedExecutions, leaseLostExecutions := 0, 0, 0;
      cancelledExecutions, suspendedExecutions, unhandledExecutions := 0, 0, 0;
      executionDurationNanoseconds := 0;
      truth, high := ZERO, 0;
      new;
      ZeroValid();
    }

    /** Nothing counted yet. */
    lemma ZeroValid()
      requires claimedRuns == claimErrors == executions == completedExecutions == failedExecutions == 0
      requires leaseLostExecutions == cancelledExecutions == suspendedExecutions == unhandledExecutions == 0
      requires executionDurationNanoseconds == 0 && truth == ZERO && high == 0
      ensures Valid()
    {
      hide Shown, Balanced;
      ZeroShown();
    }

    method RecordClaimed(count: nat)
      requires Valid()
      modifies this
      ensures Valid() && truth == old(truth).(claimed := old(truth).claimed + count)
      ensures high == Max(old(high), InFlight(truth))
    {
      hide Clamp, Plus;
      PlusShows(truth.claimed, count);
      claimedRuns := Plus(claimedRuns, Clamp(count));
      truth := truth.(claimed := truth.claimed + count);
      high := Max(high, InFlight(truth));
    }

    method RecordClaimError()
      requires Valid()
      modifies this
      ensures Valid() && truth == old(truth).(claimErrors := old(truth).claimErrors + 1) && high == old(high)
    {
      hide Clamp, Plus;
      PlusShows(truth.claimErrors, 1);
      claimErrors := Plus(claimErrors, 1);
      truth := truth.(claimErrors := truth.claimErrors + 1);
    }
  }

  /** 64-bit addition that stops at the largest value. */
  function Plus(current: nat, value: nat): nat {
    Min(current + value, U64_MAX)
  }

  /** Saturating addition shows the unbounded sum. */
  lemma PlusShows(truth: nat, more: nat)
    ensures Plus(Clamp(truth), Clamp(more)) == Clamp(truth + more)
    ensures more == 1 ==> Plus(Clamp(truth), 1) == Clamp(truth + 1)
  {
  }

  /** Tracks one execution attempt. */
  class TaskExecution {
    const metrics: QueueMetrics
    var finished: bool

    constructor (metrics: QueueMetrics)
      ensures this.metrics == metrics && !finished
    {
      this.metrics := metrics;
      finished := false;
    }

    /** Counts the outcome; dropping the guard afterwards adds nothing. */
    method Finish(outcome: ExecutionOutcome, elapsed: nat)
      requires metrics.Valid() && !finished
      modifies this, metrics
      ensures metrics.Valid() && finished && metrics.high == old(metrics.high)
      ensures metrics.truth == Ended(old(metrics.truth), Some(outcome), elapsed)
      ensures metrics.truth.completed == old(metrics.truth).completed + if outcome == CompletedExecution then 1 else 0
      ensures metrics.truth.failed == old(metrics.truth).failed + if outcome == FailedExecution then 1 else 0
      ensures metrics.truth.leaseLost == old(metrics.truth).leaseLost + if outcome == LeaseLostExecution then 1 else 0
      ensures metrics.truth.cancelled == old(metrics.truth).cancelled + if outcome == CancelledExecution then 1 else 0
      ensures metrics.truth.suspended == old(metrics.truth).suspended + if outcome == SuspendedExecution then 1 else 0
      ensures metrics.truth.nanoseconds == old(metrics.truth).nanoseconds + elapsed
    {
      Record(outcome, elapsed);
      finished := true;
      Drop(elapsed);
    }

    method Record(outcome: ExecutionOutcome, elapsed: nat)
      requires metrics.Valid()
      modifies metrics
      ensures metrics.Valid() && metrics.high == old(metrics.high)
      ensures metrics.truth == Ended(old(metrics.truth), Some(outcome), elapsed)
    {
      hide Clamp, Plus;
      ghost var t := metrics.truth;
      PlusShows(t.executions, 1);
      PlusShows(t.nanoseconds, elapsed);
      PlusShows(t.completed, 1);
      PlusShows(t.failed, 1);
      PlusShows(t.leaseLost, 1);
      PlusShows(t.cancelled, 1);
      PlusShows(t.suspended, 1);
      metrics.executions := Plus(metrics.executions, 1);
      match outcome {
        case CompletedExecution => metrics.completedExecutions := Plus(metrics.completedExecutions, 1);
        case FailedExecution => metrics.failedExecutions := Plus(metrics.failedExecutions, 1);
        case LeaseLostExecution => metrics.leaseLostExecutions := Plus(metrics.leaseLostExecutions, 1);
        case CancelledExecution => metrics.cancelledExecutions := Plus(metrics.cancelledExecutions, 1);
        case SuspendedExecution => metrics.suspendedExecutions := Plus(metrics.suspendedExecutions, 1);
      }
      metrics.executionDurationNanoseconds := Plus(metrics.executionDurationNanoseconds, Clamp(elapsed));
      metrics.truth := Ended(metrics.truth, Some(outcome), elapsed);
    }

    /** A guard dropped without an outcome counts as unhandled. */
    method Drop(elapsed: nat)
      requires metrics.Valid()
      modifies metrics
      ensures metrics.Valid() && metrics.high == old(metrics.high)
      ensures metrics.truth == if finished then old(metrics.truth) else Ended(old(metrics.truth), None, elapsed)
    {
      if !finished {
        hide Clamp, Plus;
        PlusShows(metrics.truth.executions, 1);
        PlusShows(metrics.truth.nanoseconds, elapsed);
        PlusShows(metrics.truth.unhandled, 1);
        metrics.executions := Plus(metrics.executions, 1);
        metrics.unhandledExecutions := Plus(metrics.unhandledExecutions, 1);
        metrics.executionDurationNanoseconds := Plus(metrics.executionDurationNanoseconds, Clamp(elapsed));
        metrics.truth := Ended(metrics.truth, None, elapsed);
      }
    }
  }
}
