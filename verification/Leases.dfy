/** Renewal arithmetic: a run polled every half lease never loses its lease, and polls rarely write. */
module Leases {
  import opened Basics
  import opened Policies
  import opened Selection
  import opened Storage
  import opened Invariant
  import opened Plans
  import opened Soundness
  import opened Sweeps
  import opened History
  import opened Supervision
  import opened Claiming
  import opened Witnesses

  predicate IsRunning(db: Db, r: RunId) {
    r in db.runs && db.runs[r].state == Running
  }

  /** The run is running and its lease outlasts the given time. */
  predicate LeasedBeyond(db: Db, r: RunId, bound: Time) {
    IsRunning(db, r) && db.runs[r].claimExpiresAt.Some? && db.runs[r].claimExpiresAt.value > bound
  }

  /** The run is running before, between and after all the transitions. */
  predicate StaysRunning(db: Db, ms: seq<Move>, r: RunId)
    requires Enabled(db, ms)
    decreases |ms|
  {
    IsRunning(db, r) && (ms == [] || StaysRunning(Do(db, ms[0]), ms[1..], r))
  }

  /** The uninterrupted stretch of running that is under way ends with the reaper failing the run. */
  predicate Lost(db: Db, ms: seq<Move>, r: RunId)
    requires Enabled(db, ms)
    decreases |ms|
  {
    ms != [] && IsRunning(db, r)
    && ((IsFailure(ms[0]) && ms[0].reaped && ms[0].run == r) || Lost(Do(db, ms[0]), ms[1..], r))
  }

  lemma {:induction false} StaysConcat(db: Db, a: seq<Move>, b: seq<Move>, r: RunId)
    requires Enabled(db, a) && Enabled(DoAll(db, a), b) && Enabled(db, a + b)
    ensures StaysRunning(db, a + b, r) <==> StaysRunning(db, a, r) && StaysRunning(DoAll(db, a), b, r)
    ensures Lost(db, a + b, r) <==> Lost(db, a, r) || (StaysRunning(db, a, r) && Lost(DoAll(db, a), b, r))
    decreases |a|
  {
    hide Do, Can;
    if a == [] {
      assert a + b == b;
    } else {
      assert (a + b)[0] == a[0] && (a + b)[1..] == a[1..] + b;
      StaysConcat(Do(db, a[0]), a[1..], b, r);
    }
  }

  /** While a lease is valid no transition can reap its run, and none shortens it. */
  lemma LeaseStep(db: Db, m: Move, r: RunId, bound: Time)
    requires Inv(db) && Can(db, m) && LeasedBeyond(db, r, bound)
    ensures m.at <= bound ==> !(IsFailure(m) && m.reaped && m.run == r)
    ensures IsRunning(Do(db, m), r) ==> LeasedBeyond(Do(db, m), r, bound)
    ensures IsRunning(Do(db, m), r) ==>
      Do(db, m).runs[r].claimExpiresAt.Some?
      && Do(db, m).runs[r].claimExpiresAt.value >= db.runs[r].claimExpiresAt.value
  {
    hide Inv, CancellationDue, RetryDelay, NextAvailable, LeaseExpiredReason;
    FreshIds(db);
    Flat(db, m);
  }

  lemma {:induction false} LeaseMoves(db: Db, ms: seq<Move>, r: RunId, bound: Time, lo: Time)
    requires Inv(db) && Enabled(db, ms) && Timely(lo, ms, bound) && LeasedBeyond(db, r, bound)
    ensures !Lost(db, ms, r)
    ensures StaysRunning(db, ms, r) ==> LeasedBeyond(DoAll(db, ms), r, bound)
    decreases |ms|
  {
    hide Inv, Do, Can;
    if ms != [] {
      TimelyBound(lo, ms, bound);
      LeaseStep(db, ms[0], r, bound);
      MoveInv(db, ms[0]);
      if IsRunning(Do(db, ms[0]), r) {
        LeaseMoves(Do(db, ms[0]), ms[1..], r, bound, ms[0].at);
      } else {
        assert !StaysRunning(Do(db, ms[0]), ms[1..], r);
      }
    }
  }

  predicate IsPoll(call: Call, r: RunId, lease: int) {
    call.op == Supervise(r, Some(lease))
  }

  /** When the run was last polled, `last` being the poll or claim before the calls. */
  function LastPoll(last: Time, calls: seq<Call>, r: RunId, lease: int): Time
    decreases |calls|
  {
    if calls == [] then last
    else LastPoll(if IsPoll(calls[0], r, lease) then Start(calls[0]) else last, calls[1..], r, lease)
  }

  /** On the database clock no call goes on for more than half a lease after the latest poll. */
  predicate Punctual(last: Time, calls: seq<Call>, r: RunId, lease: int)
    decreases |calls|
  {
    calls != [] ==>
      && End(calls[0]) <= last + lease as real / 2.0
      && Punctual(if IsPoll(calls[0], r, lease) then Start(calls[0]) else last, calls[1..], r, lease)
  }

  /** A poll before expiry leaves more than half a lease, whether or not it had to write. */
  lemma PollRefreshes(db: Db, r: RunId, lease: int, c: Clock, bound: Time)
    requires Inv(db) && lease > 0 && LeasedBeyond(db, r, bound) && c[0] <= bound
    ensures var db' := Settle(db, SupervisePlan(db, r, Some(lease), c, 0)).db;
      IsRunning(db', r) ==> LeasedBeyond(db', r, c[0] + lease as real / 2.0)
  {
    hide Inv, CancellationDue, ReapPlan, NamedLeaseExpired, CancelRows;
    RunningHeld(db, r);
    if TaskDue(TaskOfRun(db, r), c[0]) {
      Flat(db, CancelTask(db.runs[r].taskId, Reading(c, 1)));
    }
  }

  /** One call before the bound: the run is not lost, and a poll moves the bound on. */
  lemma LeaseCall(db: Db, call: Call, r: RunId, lease: int, last: Time)
    requires Inv(db) && lease > 0 && LeasedBeyond(db, r, last + lease as real / 2.0)
    requires End(call) <= last + lease as real / 2.0
    ensures Reached(db, Perform(db, call).db, Perform(db, call).moves, Start(call), End(call))
    ensures !Lost(db, Perform(db, call).moves, r)
    ensures StaysRunning(db, Perform(db, call).moves, r) ==>
      LeasedBeyond(Perform(db, call).db, r,
                   (if IsPoll(call, r, lease) then Start(call) else last) + lease as real / 2.0)
  {
    hide Inv, Do, Can, SupervisePlan;
    var bound := last + lease as real / 2.0;
    CallReached(db, call);
    ReachedWiden(db, Perform(db, call).db, Perform(db, call).moves, Start(call), Start(call), End(call), bound);
    LeaseMoves(db, Perform(db, call).moves, r, bound, Start(call));
    if StaysRunning(db, Perform(db, call).moves, r) && IsPoll(call, r, lease) {
      PollRefreshes(db, r, lease, call.clock, bound);
    }
  }

  /**
   * With punctual polls, in every history of any length, the current stretch of running never ends in a
   * lost lease; at its end more than half a lease remains after the latest poll.
   */
  lemma {:induction false} LeaseNeverLost(db: Db, now: Time, calls: seq<Call>, r: RunId, lease: int, last: Time)
    requires Inv(db) && Timed(now, calls) && lease > 0
    requires LeasedBeyond(db, r, last + lease as real / 2.0) && Punctual(last, calls, r, lease)
    ensures Enabled(db, Trace(db, calls)) && !Lost(db, Trace(db, calls), r)
    ensures StaysRunning(db, Trace(db, calls), r) ==>
      LeasedBeyond(Replay(db, calls), r, LastPoll(last, calls, r, lease) + lease as real / 2.0)
    decreases |calls|
  {
    hide Inv, Do, Can, Perform, LeasedBeyond, IsPoll;
    HistoryReached(db, now, calls);
    if calls != [] {
      var first, rest := Perform(db, calls[0]), calls[1..];
      LeaseCall(db, calls[0], r, lease, last);
      CallInv(db, calls[0]);
      HistoryReached(first.db, End(calls[0]), rest);
      StaysConcat(db, first.moves, Trace(first.db, rest), r);
      if StaysRunning(db, first.moves, r) {
        LeaseNeverLost(first.db, End(calls[0]), rest, r, lease,
                       if IsPoll(calls[0], r, lease) then Start(calls[0]) else last);
      }
    }
  }

  /** A claim starts the argument: right after it the whole lease lies ahead. */
  lemma ClaimedLease(db: Db, claim: ClaimCall, c: Clock, r: RunId)
    requires ClaimPlan(db, claim, c, 0).Commit? && r in Runs(ClaimPlan(db, claim, c, 0).value)
    ensures ValidClaim(claim)
    ensures LeasedBeyond(ClaimPlan(db, claim, c, 0).db, r, Reading(c, ClaimStart(claim, 0)) + claim.lease as real / 2.0)
  {
    hide ClaimPlan, MaintenancePlan, Claimable, IsPage, ValidClaim, Eligible, Touched;
    ClaimRefines(db, claim, c, 0);
    ClaimIsValid(claim);
  }

  lemma ClaimIsValid(claim: ClaimCall)
    requires ValidClaim(claim)
    ensures claim.lease > 0
  {
  }

  /** From a claim on: polls every half lease keep the lease for as long as the run keeps running. */
  lemma PolledClaimNeverLost(db: Db, claim: ClaimCall, c: Clock, r: RunId, calls: seq<Call>)
    requires Inv(db) && ClaimPlan(db, claim, c, 0).Commit? && r in Runs(ClaimPlan(db, claim, c, 0).value)
    requires ValidClaim(claim) && Timed(c[|c| - 1], calls)
    requires Punctual(Reading(c, ClaimStart(claim, 0)), calls, r, claim.lease)
    ensures var db' := ClaimPlan(db, claim, c, 0).db;
      Enabled(db', Trace(db', calls)) && !Lost(db', Trace(db', calls), r)
  {
    hide Inv, Do, Can, ClaimPlan, ValidClaim, Punctual, Lost;
    ClaimedLease(db, claim, c, r);
    ClaimIsValid(claim);
    var db' := ClaimPlan(db, claim, c, 0).db;
    assert Inv(db') by { CallInv(db, Call(Claim(claim), c)); }
    LeaseNeverLost(db', c[|c| - 1], calls, r, claim.lease, Reading(c, ClaimStart(claim, 0)));
  }

  // ---- Renewal writes ----

  /** Within a stretch of running the expiry of the lease only moves forward. */
  lemma {:induction false} NeverShortened(db: Db, ms: seq<Move>, r: RunId)
    requires Inv(db) && Enabled(db, ms) && StaysRunning(db, ms, r)
    ensures db.runs[r].claimExpiresAt.Some? && IsRunning(DoAll(db, ms), r) && DoAll(db, ms).runs[r].claimExpiresAt.Some?
    ensures db.runs[r].claimExpiresAt.value <= DoAll(db, ms).runs[r].claimExpiresAt.value
    decreases |ms|
  {
    hide Inv, Do, Can;
    RunningHeld(db, r);
    if ms != [] {
      LeaseStep(db, ms[0], r, db.runs[r].claimExpiresAt.value - 1.0);
      MoveInv(db, ms[0]);
      NeverShortened(Do(db, ms[0]), ms[1..], r);
    }
  }

  /** A poll that writes does so in the second half of the lease, and a full lease lies ahead of it. */
  lemma RenewalWindow(db: Db, r: RunId, lease: int, c: Clock)
    requires SupervisePlan(db, r, Some(lease), c, 0).Commit? && |SupervisePlan(db, r, Some(lease), c, 0).moves| == 1
    requires SupervisePlan(db, r, Some(lease), c, 0).moves[0].RenewLease?
    ensures r in db.runs && db.runs[r].claimExpiresAt.Some?
    ensures db.runs[r].claimExpiresAt.value <= c[0] + lease as real / 2.0
    ensures var db' := SupervisePlan(db, r, Some(lease), c, 0).db;
      r in db'.runs && db'.runs[r].claimExpiresAt.Some? && db'.runs[r].claimExpiresAt.value >= c[0] + lease as real
  {
    hide CancellationDue, ReapPlan, NamedLeaseExpired, CancelRows;
    ReapNeverRenews(db, r, c, 1);
  }

  lemma ReapNeverRenews(db: Db, r: RunId, c: Clock, k: nat)
    ensures ReapPlan(db, r, c, k).Commit? && |ReapPlan(db, r, c, k).moves| == 1 ==>
      !ReapPlan(db, r, c, k).moves[0].RenewLease?
  {
    hide Do, LeaseExpiredReason, CancellationDue, RetryDelay, NextAvailable;
  }

  /** Whatever happens in between, two renewal writes for one stretch of running are half a lease apart. */
  lemma RenewalsApart(db: Db, r: RunId, lease: int, c: Clock, calls: seq<Call>, later: Clock)
    requires Inv(db) && Timed(c[|c| - 1], calls)
    requires var p := SupervisePlan(db, r, Some(lease), c, 0); p.Commit? && |p.moves| == 1 && p.moves[0].RenewLease?
    requires var db' := SupervisePlan(db, r, Some(lease), c, 0).db;
      Enabled(db', Trace(db', calls)) && StaysRunning(db', Trace(db', calls), r)
    requires var p := SupervisePlan(Replay(SupervisePlan(db, r, Some(lease), c, 0).db, calls), r, Some(lease), later,
                                    0);
      p.Commit? && |p.moves| == 1 && p.moves[0].RenewLease?
    ensures later[0] - c[0] >= lease as real / 2.0
  {
    hide Inv, Do, Can, SupervisePlan;
    var db' := SupervisePlan(db, r, Some(lease), c, 0).db;
    assert Inv(db') by { CallInv(db, Call(Supervise(r, Some(lease)), c)); }
    HistoryReached(db', c[|c| - 1], calls);
    RenewalWindow(db, r, lease, c);
    NeverShortened(db', Trace(db', calls), r);
    RenewalWindow(Replay(db', calls), r, lease, later);
  }

  // ---- Half a lease is the exact bound ----

  /** A poll at the given time. */
  function Poll(r: RunId, lease: int, at: Time): Call {
    Call(Supervise(r, Some(lease)), [at])
  }

  /** A first poll so early that it finds more than half a lease, and so late that the lease ends within the gap. */
  function FirstPoll(lease: int, gap: Time): Time {
    LaterOf(0.0, lease as real - gap)
  }

  /** The polls of a worker that come too far apart. */
  function SlowPolls(lease: int, gap: Time): seq<Call> {
    [Poll(1, lease, FirstPoll(lease, gap)), Poll(1, lease, FirstPoll(lease, gap) + gap)]
  }

  lemma FirstPollIdle(lease: int, gap: Time)
    requires lease > 0 && gap > lease as real / 2.0
    ensures var db := Leased(NoRetry, None, lease); Perform(db, Poll(1, lease, FirstPoll(lease, gap))) == Change(db, [])
  {
  }

  lemma SecondPollReaps(lease: int, gap: Time)
    requires lease > 0 && gap > lease as real / 2.0
    ensures var ms := Perform(Leased(NoRetry, None, lease), Poll(1, lease, FirstPoll(lease, gap) + gap)).moves;
      |ms| == 1 && IsFailure(ms[0]) && ms[0].reaped && ms[0].run == 1
  {
    hide LeaseExpiredReason, NamedLeaseExpired, Do;
  }

  lemma TwoCalls(db: Db, a: Call, b: Call)
    requires Perform(db, a) == Change(db, []) && End(a) <= Start(b)
    ensures Trace(db, [a, b]) == Perform(db, b).moves
    ensures Timed(Start(a), [a, b])
  {
    hide Perform;
    var calls := [a, b];
    assert calls[1..] == [b] && [b][1..] == [];
    var last := Perform(db, b);
    assert Trace(last.db, []) == [];
    assert Trace(db, [b]) == last.moves + [];
    assert Timed(End(b), []) && Timed(End(a), [b]);
  }

  /**
   * Polls that are further apart than half a lease can lose it, by however little. From an empty queue:
   * a submission and a claim at 0, a poll that finds more than half a lease and does not write, and one
   * that comes too late.
   */
  lemma HalfLeaseTight(lease: int, gap: Time)
    requires lease > 0 && gap > lease as real / 2.0
    ensures var claimed, polls := LeasedHistory(NoRetry, None, lease), SlowPolls(lease, gap);
      var db := Replay(EMPTY, claimed);
      && Timed(0.0, claimed) && Timed(0.0, polls)
      && LeasedBeyond(db, 1, FirstPoll(lease, gap) + lease as real / 2.0)
      && Enabled(db, Trace(db, polls)) && Lost(db, Trace(db, polls), 1)
  {
    hide Inv, Perform, Do, Can, LeasedHistory;
    var db := Leased(NoRetry, None, lease);
    var first, second := SlowPolls(lease, gap)[0], SlowPolls(lease, gap)[1];
    LeasedReached(NoRetry, None, lease);
    FirstPollIdle(lease, gap);
    SecondPollReaps(lease, gap);
    TwoCalls(db, first, second);
    TimedEarlier(0.0, Start(first), [first, second]);
    HistoryReached(db, 0.0, [first, second]);
  }

  lemma TimedEarlier(now: Time, later: Time, calls: seq<Call>)
    requires Timed(later, calls) && now <= later
    ensures Timed(now, calls)
  {
  }

  // ---- The worker's cadence ----

  /** The worker's sleep between polls, in nanoseconds; a negative lease counts as one second. */
  function SupervisionInterval(lease: int): (nanos: nat)
    ensures lease > 0 ==> 0 < 2 * nanos <= lease * NANOS
    ensures nanos <= NANOS
  {
    Min((if lease < 0 then 1 else lease) * NANOS / 2, NANOS)
  }

  /** What a poll may take on top of the interval: time for the call, and delays of the worker. */
  function Slack(lease: int): (slack: real)
    requires lease > 0
    ensures 0.0 <= slack
    ensures slack == 0.0 <==> lease <= 2
    ensures lease >= 2 ==> slack == lease as real / 2.0 - 1.0
  {
    lease as real / 2.0 - SupervisionInterval(lease) as real / NANOS as real
  }

  /** Every call ends within one interval and the given latency after the latest poll. */
  predicate Cadenced(last: Time, calls: seq<Call>, r: RunId, lease: int, latency: real)
    decreases |calls|
  {
    calls != [] ==>
      && End(calls[0]) <= last + SupervisionInterval(lease) as real / NANOS as real + latency
      && Cadenced(if IsPoll(calls[0], r, lease) then Start(calls[0]) else last, calls[1..], r, lease, latency)
  }

  lemma {:induction false} CadencePunctual(last: Time, calls: seq<Call>, r: RunId, lease: int, latency: real)
    requires lease > 0 && latency <= Slack(lease) && Cadenced(last, calls, r, lease, latency)
    ensures Punctual(last, calls, r, lease)
    decreases |calls|
  {
    if calls != [] {
      CadencePunctual(if IsPoll(calls[0], r, lease) then Start(calls[0]) else last, calls[1..], r, lease, latency);
    }
  }

  /** The worker's own cadence keeps the lease for as long as no poll takes more than the slack on top. */
  lemma CadenceKeepsLease(db: Db, now: Time, calls: seq<Call>, r: RunId, lease: int, last: Time, latency: real)
    requires Inv(db) && Timed(now, calls) && lease > 0 && latency <= Slack(lease)
    requires LeasedBeyond(db, r, last + lease as real / 2.0) && Cadenced(last, calls, r, lease, latency)
    ensures Enabled(db, Trace(db, calls)) && !Lost(db, Trace(db, calls), r)
  {
    hide Inv, Do, Can, Perform, Cadenced, Punctual, Lost;
    CadencePunctual(last, calls, r, lease, latency);
    LeaseNeverLost(db, now, calls, r, lease, last);
  }

  lemma SlowPollsCadenced(lease: int, latency: real)
    requires lease > 0 && latency > Slack(lease)
    ensures var gap := SupervisionInterval(lease) as real / NANOS as real + latency;
      Cadenced(FirstPoll(lease, gap), SlowPolls(lease, gap), 1, lease, latency)
  {
    var gap := SupervisionInterval(lease) as real / NANOS as real + latency;
    var calls, first := SlowPolls(lease, gap), FirstPoll(lease, gap);
    assert calls[1..] == [calls[1]] && [calls[1]][1..] == [];
    assert Cadenced(first + gap, [], 1, lease, latency);
    assert Cadenced(first, [calls[1]], 1, lease, latency);
  }

  /**
   * More latency than the slack can lose the lease, though the polls keep the worker's cadence with that
   * latency; leases of one and two seconds have no slack at all.
   */
  lemma NoSlackLost(lease: int, latency: real)
    requires lease > 0 && latency > Slack(lease)
    ensures var gap := SupervisionInterval(lease) as real / NANOS as real + latency;
      var db, polls := Replay(EMPTY, LeasedHistory(NoRetry, None, lease)), SlowPolls(lease, gap);
      && Cadenced(0.0, polls, 1, lease, latency)
      && IsRunning(db, 1) && Enabled(db, Trace(db, polls)) && Lost(db, Trace(db, polls), 1)
  {
    hide Inv, Perform, Do, Can, Lost, LeasedHistory;
    var gap := SupervisionInterval(lease) as real / NANOS as real + latency;
    HalfLeaseTight(lease, gap);
    SlowPollsCadenced(lease, latency);
    FirstPollSoon(lease, gap);
    var polls := SlowPolls(lease, gap);
    assert Cadenced(FirstPoll(lease, gap), polls[1..], 1, lease, latency);
  }

  /** The first poll comes within a gap of the claim. */
  lemma FirstPollSoon(lease: int, gap: Time)
    requires lease > 0 && gap > lease as real / 2.0
    ensures 0.0 <= FirstPoll(lease, gap) <= gap
  {
  }
}
