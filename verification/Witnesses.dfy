/** Small histories from an empty queue that show a case to be possible. */
module Witnesses {
  import opened Basics
  import opened Policies
  import opened Selection
  import opened Storage
  import opened Invariant
  import opened Plans
  import opened History

  /** A submission of task "t" at time 0. */
  function Submit(retry: Strategy, cancellation: Option<Policy>, maxAttempts: int): Call {
    Call(Spawn("t", None, SpawnOptions(None, Some(maxAttempts), Some(retry), cancellation, None)), [0.0])
  }

  /** A claim of one run by worker "w". */
  function Take(lease: int, at: Time): Call {
    Call(Claim(ClaimCall("w", lease, 1, ["t"], {}, {}, {})), [at])
  }

  lemma NotBlank(s: Text)
    requires |s| == 1 && !IsSpace(s[0])
    ensures !Blank(s) && ValidName(s)
  {
  }

  lemma TakeValid(lease: int, at: Time)
    requires lease > 0
    ensures ValidClaim(Take(lease, at).op.call)
  {
    NotBlank("t");
    NotBlank("w");
  }

  lemma PageOne(keys: map<nat, Time>, r: nat)
    requires keys.Keys == {r}
    ensures Page(keys, 1) == [r]
  {
    assert |keys| == |keys.Keys| == 1;
    var ids := Page(keys, 1);
    assert ids[0] in ids && ids[0] in keys;
  }

  /** With nothing due and no lease expired, the maintenance of a claim does nothing. */
  lemma NoUpkeep(db: Db, lease: int, at: Time)
    requires lease > 0 && DueTasks(db, at, {}) == map[] && ExpiredRuns(db, at, {}) == map[]
    ensures var call := Take(lease, at).op.call;
      ValidClaim(call) && MaintenancePlan(db, call, [at], 0) == Commit(0, db, [])
  {
    hide DueTasks, ExpiredRuns, Blank;
    TakeValid(lease, at);
  }

  /** A claim then takes the only claimable run. */
  lemma TakeSole(db: Db, lease: int, at: Time, r: RunId)
    requires lease > 0 && DueTasks(db, at, {}) == map[] && ExpiredRuns(db, at, {}) == map[]
    requires Claimable(db, ["t"], at, {}).Keys == {r}
    ensures Perform(db, Take(lease, at)).db == ClaimAll(db, [r], "w", at + lease as real, at)
  {
    hide DueTasks, ExpiredRuns, Claimable, MaintenancePlan, ClaimAll, Page, Blank;
    NoUpkeep(db, lease, at);
    PageOne(Claimable(db, ["t"], at, {}), r);
  }

  /** The task just submitted: id 0, with its first run, id 1. */
  function Submitted(retry: Strategy, cancellation: Option<Policy>, maxAttempts: int): Db {
    var task := Task("t", JNull, None, retry, maxAttempts, maxAttempts, cancellation, 0.0, None, Pending, 1, 1, None,
                     None);
    Db(map[0 := task], map[1 := NewRun(0, 1, Pending, 0.0)], map[], 2)
  }

  /** The same task, claimed at time 0 with the given lease. */
  function Leased(retry: Strategy, cancellation: Option<Policy>, lease: int): Db {
    var task := Task("t", JNull, None, retry, 2, 2, cancellation, 0.0, Some(0.0), Running, 1, 1, None, None);
    var run := Run(0, 1, Running, Some("w"), Some(lease as real), 0.0, Some(0.0), None, None, None, None);
    Db(map[0 := task], map[1 := run], map[], 2)
  }

  lemma SubmittedReached(retry: Strategy, cancellation: Option<Policy>, maxAttempts: int)
    requires ValidStrategy(retry) && 1 <= maxAttempts <= INT_MAX
    requires cancellation.Some? ==> ValidPolicy(cancellation.value)
    ensures Perform(EMPTY, Submit(retry, cancellation, maxAttempts)).db == Submitted(retry, cancellation, maxAttempts)
  {
    hide ValidStrategy, ValidPolicy, Blank;
    NotBlank("t");
  }

  lemma SubmittedQuiet(retry: Strategy, cancellation: Option<Policy>, maxAttempts: int)
    requires cancellation.Some? ==> cancellation.value.maxDelay.None?
    ensures var db := Submitted(retry, cancellation, maxAttempts);
      && DueTasks(db, 0.0, {}) == map[] && ExpiredRuns(db, 0.0, {}) == map[]
      && Claimable(db, ["t"], 0.0, {}).Keys == {1}
  {
  }

  lemma SubmittedClaimed(retry: Strategy, cancellation: Option<Policy>, lease: int)
    ensures ClaimAll(Submitted(retry, cancellation, 2), [1], "w", lease as real, 0.0)
      == Leased(retry, cancellation, lease)
  {
    var after := ClaimAll(Submitted(retry, cancellation, 2), [1], "w", lease as real, 0.0);
    assert after.tasks == Leased(retry, cancellation, lease).tasks;
    assert after.runs == Leased(retry, cancellation, lease).runs;
  }

  lemma LeasedStep(retry: Strategy, cancellation: Option<Policy>, lease: int)
    requires lease > 0 && (cancellation.Some? ==> cancellation.value.maxDelay.None?)
    ensures Perform(Submitted(retry, cancellation, 2), Take(lease, 0.0)).db == Leased(retry, cancellation, lease)
  {
    hide Submitted, Leased, ClaimAll, Perform, DueTasks, ExpiredRuns, Claimable;
    SubmittedQuiet(retry, cancellation, 2);
    TakeSole(Submitted(retry, cancellation, 2), lease, 0.0, 1);
    SubmittedClaimed(retry, cancellation, lease);
    assert 0.0 + lease as real == lease as real;
  }

  /** The history that leads there: a submission and a claim. */
  function LeasedHistory(retry: Strategy, cancellation: Option<Policy>, lease: int): seq<Call> {
    [Submit(retry, cancellation, 2), Take(lease, 0.0)]
  }

  lemma TwoCallReplay(db: Db, a: Call, b: Call)
    requires End(a) <= Start(b)
    ensures Replay(db, [a, b]) == Perform(Perform(db, a).db, b).db && Timed(Start(a), [a, b])
  {
    hide Perform;
    var calls := [a, b];
    assert calls[1..] == [b] && [b][1..] == [];
    assert Replay(Perform(Perform(db, a).db, b).db, []) == Perform(Perform(db, a).db, b).db;
    assert Timed(End(b), []) && Timed(End(a), [b]);
  }

  /** A leased run is reached from an empty queue, and so meets the invariant. */
  lemma LeasedReached(retry: Strategy, cancellation: Option<Policy>, lease: int)
    requires lease > 0 && ValidStrategy(retry)
    requires cancellation.Some? ==> ValidPolicy(cancellation.value) && cancellation.value.maxDelay.None?
    ensures Timed(0.0, LeasedHistory(retry, cancellation, lease))
    ensures Replay(EMPTY, LeasedHistory(retry, cancellation, lease)) == Leased(retry, cancellation, lease)
    ensures Inv(Leased(retry, cancellation, lease)) && Held(Leased(retry, cancellation, lease), 1)
  {
    hide ValidStrategy, ValidPolicy, Perform, Inv;
    var submit, take := Submit(retry, cancellation, 2), Take(lease, 0.0);
    SubmittedReached(retry, cancellation, 2);
    LeasedStep(retry, cancellation, lease);
    TwoCallReplay(EMPTY, submit, take);
    EmptyInv();
    HistoryInv(EMPTY, [submit, take]);
  }
}
