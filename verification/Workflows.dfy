/**
 * Workflow contexts of any number of attempts, running interleaved over one queue: each caches the
 * checkpoints of its task, runs step bodies it finds no checkpoint for, and sleeps durably.
 */
module Workflows {
  import opened Basics
  import opened Policies
  import opened Storage
  import opened Invariant
  import opened Plans
  import opened History

  // ---- What database calls do to checkpoints and run ownership ----

  ghost predicate Submap(a: map<Text, Json>, b: map<Text, Json>) {
    forall n :: n in a ==> n in b && b[n] == a[n]
  }

  /** Checkpoints of retained tasks are never lost or changed; runs keep their task; ids are not reused. */
  ghost predicate Evolves(db: Db, db': Db) {
    && db.nextId <= db'.nextId
    && (forall t :: t in db'.tasks && t < db.nextId ==> t in db.tasks && Submap(Saved(db, t), Saved(db', t)))
    && (forall r :: r in db'.runs && r < db.nextId ==> r in db.runs && db'.runs[r].taskId == db.runs[r].taskId)
  }

  lemma EvolvesRefl(db: Db)
    ensures Evolves(db, db)
  {
  }

  lemma EvolvesTrans(a: Db, b: Db, c: Db)
    requires Evolves(a, b) && Evolves(b, c)
    ensures Evolves(a, c)
  {
  }

  lemma RunsEvolve(db: Db, m: Move, r: RunId)
    requires Inv(db) && Can(db, m) && r in Do(db, m).runs && r < db.nextId
    ensures r in db.runs && Do(db, m).runs[r].taskId == db.runs[r].taskId
  {
    hide Inv, CancellationDue, RetryDelay, NextAvailable, LeaseExpiredReason;
    Flat(db, m);
  }

  lemma TasksEvolve(db: Db, m: Move, t: TaskId)
    requires Inv(db) && Can(db, m) && t in Do(db, m).tasks && t < db.nextId
    ensures t in db.tasks && Submap(Saved(db, t), Saved(Do(db, m), t))
  {
    hide Inv, CancellationDue, RetryDelay, NextAvailable, LeaseExpiredReason;
    FreshIds(db);
    Flat(db, m);
  }

  lemma EvolvesStep(db: Db, m: Move)
    requires Inv(db) && Can(db, m)
    ensures Evolves(db, Do(db, m))
  {
    hide Inv, Do, Can, Submap, Saved;
    NextIdGrows(db, m);
    forall t | t in Do(db, m).tasks && t < db.nextId
      ensures t in db.tasks && Submap(Saved(db, t), Saved(Do(db, m), t))
    {
      TasksEvolve(db, m, t);
    }
    forall r | r in Do(db, m).runs && r < db.nextId
      ensures r in db.runs && Do(db, m).runs[r].taskId == db.runs[r].taskId
    {
      RunsEvolve(db, m, r);
    }
  }

  lemma {:induction false} EvolvesMoves(db: Db, ms: seq<Move>)
    requires Inv(db) && Enabled(db, ms)
    ensures Evolves(db, DoAll(db, ms))
    decreases |ms|
  {
    hide Inv, Do, Can, Evolves;
    if ms == [] {
      EvolvesRefl(db);
    } else {
      EvolvesStep(db, ms[0]);
      MoveInv(db, ms[0]);
      EvolvesMoves(Do(db, ms[0]), ms[1..]);
      EvolvesTrans(db, Do(db, ms[0]), DoAll(db, ms));
    }
  }

  /** After a durable suspension until `wake`: before that time the task sleeps, or has been cancelled or removed. */
  predicate RestsUntil(db: Db, t: TaskId, wake: Time, now: Time) {
    t < db.nextId &&
    (t in db.tasks && now < wake ==>
       || db.tasks[t].state == Cancelled
       || (&& db.tasks[t].state == Sleeping && db.tasks[t].lastAttemptRun in db.runs
           && db.runs[db.tasks[t].lastAttemptRun].availableAt >= wake))
  }

  lemma RestStep(db: Db, m: Move, t: TaskId, wake: Time, now: Time)
    requires Inv(db) && Can(db, m) && now <= m.at && RestsUntil(db, t, wake, now)
    ensures RestsUntil(Do(db, m), t, wake, m.at)
  {
    hide Inv, CancellationDue, RetryDelay, NextAvailable, LeaseExpiredReason;
    FreshIds(db);
    if m.CancelTask? || m.FailAndCancel? {
      Flat(db, m);
    }
    if t in db.tasks {
      LastRun(db, t);
    }
    if t != Target(db, m) {
      Frame(db, m, t);
    }
  }

  lemma {:induction false} RestMoves(db: Db, ms: seq<Move>, t: TaskId, wake: Time, now: Time, hi: Time)
    requires Inv(db) && Enabled(db, ms) && Timely(now, ms, hi) && RestsUntil(db, t, wake, now)
    ensures RestsUntil(DoAll(db, ms), t, wake, hi)
    decreases |ms|
  {
    hide Inv, Do, Can;
    if ms != [] {
      hide RestsUntil;
      RestStep(db, ms[0], t, wake, now);
      MoveInv(db, ms[0]);
      RestMoves(Do(db, ms[0]), ms[1..], t, wake, ms[0].at, hi);
    }
  }

  /** One call, seen by the contexts of the queue. */
  lemma CallEvolves(db: Db, call: Call)
    requires Inv(db)
    ensures Inv(Perform(db, call).db) && Evolves(db, Perform(db, call).db)
    ensures forall t, wake, now :: now <= Start(call) && RestsUntil(db, t, wake, now) ==>
      RestsUntil(Perform(db, call).db, t, wake, End(call))
  {
    hide Inv, Do, Can, Evolves, Perform, RestsUntil;
    CallReached(db, call);
    CallInv(db, call);
    var ms := Perform(db, call).moves;
    EvolvesMoves(db, ms);
    forall t, wake, now | now <= Start(call) && RestsUntil(db, t, wake, now)
      ensures RestsUntil(Perform(db, call).db, t, wake, End(call))
    {
      TimelyWiden(now, Start(call), ms, End(call), End(call));
      RestMoves(db, ms, t, wake, now, End(call));
    }
  }

  // ---- The interleaved machine ----

  /** One claimed attempt's context; clones of a context share it. */
  datatype Context = Context(task: TaskId, run: RunId, cache: map<Text, Json>)

  datatype Event =
    | Returned(task: TaskId, name: Text, value: Json)  // a step call succeeded with this value
    | Slept(task: TaskId, name: Text)                  // a sleep suspended the run
    | Awoke(task: TaskId, name: Text, at: Time)        // a sleep returned normally

  /** `record` keeps all values ever committed, also those of removed tasks. */
  datatype World = World(
    db: Db, record: map<TaskId, map<Text, Json>>, contexts: seq<Context>, log: seq<Event>, now: Time)

  datatype Action =
    | Outside(call: Call)                                              // any database call by anyone
    | Open(task: TaskId, run: RunId, clock: Clock)                     // a context loads its checkpoints
    | Recall(context: nat, name: Text)                                 // a step finds its checkpoint
    | Persist(context: nat, name: Text, value: Json, clock: Clock)     // a body has run: commit or adopt
    | Rest(context: nat, name: Text, clock: Clock)                     // a sleep schedules its checkpointed time

  function Past(record: map<TaskId, map<Text, Json>>, t: TaskId): map<Text, Json> {
    if t in record then record[t] else map[]
  }

  function EncodeTime(at: Time): Json {
    JNumber(at)
  }

  function DecodeTime(j: Json): Option<Time> {
    if j.JNumber? then Some(j.number) else None
  }

  /** A body runs only when its name is not cached, and per-name locks keep it that way until it persists. */
  predicate Legal(w: World, a: Action) {
    match a
    case Outside(call) => w.now <= Start(call)
    case Open(_, _, c) => w.now <= c[0]
    case Recall(i, name) => i < |w.contexts| && name in w.contexts[i].cache
    case Persist(i, name, _, c) => i < |w.contexts| && name !in w.contexts[i].cache && w.now <= c[0]
    case Rest(i, name, c) => i < |w.contexts| && name in w.contexts[i].cache && w.now <= c[0]
  }

  function Advance(w: World, call: Call): World {
    var db := Perform(w.db, call).db;
    w.(db := db, record := w.record + db.checkpoints, now := End(call))
  }

  function Log(w: World, e: Event): World {
    w.(log := w.log + [e])
  }

  function Act(w: World, a: Action): World
    requires Legal(w, a)
  {
    match a
    case Outside(call) => Advance(w, call)
    case Open(t, r, c) =>
      var w' := Advance(w, Call(LoadCheckpoints(t, r), c));
      (match LoadCheckpointsPlan(w.db, t, r, c, 0)
       case Raise(_) => w'
       case Commit(rows, _, _) => w'.(contexts := w'.contexts + [Context(t, r, rows)]))
    case Recall(i, name) =>
      Log(w, Returned(w.contexts[i].task, name, w.contexts[i].cache[name]))
    case Persist(i, name, value, c) =>
      var context := w.contexts[i];
      var w' := Advance(w, Call(Checkpoint(context.task, name, value, context.run), c));
      (match CheckpointPlan(w.db, context.task, name, value, context.run, c, 0)
       case Raise(_) => w'
       case Commit((stored, written), _, _) =>
         Log(w'.(contexts := w'.contexts[i := context.(cache := context.cache[name := stored])]),
             Returned(context.task, name, if written then value else stored)))
    case Rest(i, name, c) =>
      var context := w.contexts[i];
      (match DecodeTime(context.cache[name])
       case None => w
       case Some(wake) =>
         var w' := Advance(w, Call(Schedule(context.run, wake), c));
         match SchedulePlan(w.db, context.run, wake, c, 0)
         case Commit(Ready, _, _) => Log(w', Awoke(context.task, name, Reading(c, 0)))
         case Commit(Suspended, _, _) => Log(w', Slept(context.task, name))
         case _ => w')
  }

  // ---- Its invariant ----

  ghost predicate RecordOk(db: Db, record: map<TaskId, map<Text, Json>>) {
    && (forall t :: t in db.tasks ==> Past(record, t) == Saved(db, t))
    && (forall t :: t in record ==> t < db.nextId)
  }

  ghost predicate ContextOk(db: Db, record: map<TaskId, map<Text, Json>>, context: Context) {
    && Submap(context.cache, Past(record, context.task))
    && context.run < db.nextId
    && (context.run in db.runs ==> db.runs[context.run].taskId == context.task)
  }

  /** What a logged event says about the committed values. */
  ghost predicate EventOk(db: Db, record: map<TaskId, map<Text, Json>>, now: Time, e: Event) {
    && e.name in Past(record, e.task)
    && match e
       case Returned(t, name, value) => Past(record, t)[name] == value
       case Slept(t, name) =>
         DecodeTime(Past(record, t)[name]).Some? && RestsUntil(db, t, DecodeTime(Past(record, t)[name]).value, now)
       case Awoke(t, name, at) =>
         DecodeTime(Past(record, t)[name]).Some? && DecodeTime(Past(record, t)[name]).value <= at
  }

  ghost predicate SleepsOnce(log: seq<Event>) {
    forall i, j :: 0 <= i < j < |log| && log[i].Slept? && log[j].Slept? ==> log[i] != log[j]
  }

  ghost predicate Good(w: World) {
    && Inv(w.db) && RecordOk(w.db, w.record)
    && (forall i :: 0 <= i < |w.contexts| ==> ContextOk(w.db, w.record, w.contexts[i]))
    && (forall i :: 0 <= i < |w.log| ==> EventOk(w.db, w.record, w.now, w.log[i]))
    && SleepsOnce(w.log)
  }

  /** Absorbing new checkpoints keeps the record exact for retained tasks and only adds to it. */
  lemma RecordGrows(db: Db, db': Db, record: map<TaskId, map<Text, Json>>)
    requires Inv(db) && Inv(db') && Evolves(db, db') && RecordOk(db, record)
    ensures RecordOk(db', record + db'.checkpoints)
    ensures forall t :: Submap(Past(record, t), Past(record + db'.checkpoints, t))
  {
    hide RunOk, TaskOk, AttemptsUnique, AttemptsFull, KeysUnique;
    var record' := record + db'.checkpoints;
    FreshTaskIds(db');
    forall t | t in db'.tasks ensures Past(record', t) == Saved(db', t) {
      if t !in db'.checkpoints && t in record {
        assert Submap(Saved(db, t), Saved(db', t));
        assert Past(record, t) == map[];
      }
    }
    forall t ensures Submap(Past(record, t), Past(record', t)) {
      if t in db'.checkpoints && t in record {
        assert Submap(Saved(db, t), Saved(db', t));
      }
    }
  }

  lemma FreshTaskIds(db: Db)
    requires Inv(db)
    ensures forall t :: t in db.tasks ==> t < db.nextId
    ensures forall t :: t in db.checkpoints ==> t in db.tasks && t < db.nextId
  {
    hide RunOk, AttemptsUnique, AttemptsFull, KeysUnique;
    assert forall t :: t in db.tasks ==> TaskOk(db, t);
  }

  lemma EventStays(db: Db, db': Db, record: map<TaskId, map<Text, Json>>, record': map<TaskId, map<Text, Json>>,
                   now: Time, now': Time, e: Event)
    requires EventOk(db, record, now, e) && Submap(Past(record, e.task), Past(record', e.task))
    requires forall t, wake :: RestsUntil(db, t, wake, now) ==> RestsUntil(db', t, wake, now')
    ensures EventOk(db', record', now', e)
  {
    hide RestsUntil;
  }

  lemma ContextStays(db: Db, db': Db, record: map<TaskId, map<Text, Json>>, record': map<TaskId, map<Text, Json>>,
                     context: Context)
    requires ContextOk(db, record, context) && Evolves(db, db')
    requires Submap(Past(record, context.task), Past(record', context.task))
    ensures ContextOk(db', record', context)
  {
    hide Saved;
  }

  /** Any database call keeps the machine's invariant. */
  lemma AdvanceGood(w: World, call: Call)
    requires Good(w) && w.now <= Start(call)
    ensures Good(Advance(w, call))
    ensures forall t :: Submap(Past(w.record, t), Past(Advance(w, call).record, t))
    ensures Evolves(w.db, Advance(w, call).db)
  {
    hide Inv, Perform, Evolves, RecordOk, ContextOk, EventOk, RestsUntil, Past, Submap;
    var w' := Advance(w, call);
    CallEvolves(w.db, call);
    RecordGrows(w.db, w'.db, w.record);
    forall i | 0 <= i < |w'.contexts| ensures ContextOk(w'.db, w'.record, w'.contexts[i]) {
      ContextStays(w.db, w'.db, w.record, w'.record, w.contexts[i]);
    }
    forall i | 0 <= i < |w'.log| ensures EventOk(w'.db, w'.record, w'.now, w'.log[i]) {
      EventStays(w.db, w'.db, w.record, w'.record, w.now, w'.now, w.log[i]);
    }
  }

  lemma LogGood(w: World, e: Event)
    requires Good(w) && EventOk(w.db, w.record, w.now, e)
    requires e.Slept? ==> forall i :: 0 <= i < |w.log| ==> w.log[i] != e
    ensures Good(Log(w, e))
  {
    hide Inv, RecordOk, ContextOk, EventOk;
  }

  lemma OpenGood(w: World, a: Action)
    requires Good(w) && Legal(w, a) && a.Open?
    ensures Good(Act(w, a))
  {
    hide Inv, RecordOk, ContextOk, EventOk, Evolves, LockError;
    var call := Call(LoadCheckpoints(a.task, a.run), a.clock);
    AdvanceGood(w, call);
    var p := LoadCheckpointsPlan(w.db, a.task, a.run, a.clock, 0);
    if p.Commit? {
      LoadedContext(w.db, Advance(w, call).record, a.task, a.run, a.clock);
    }
  }

  /** A context starts with all checkpoints of its task. */
  lemma LoadedContext(db: Db, record: map<TaskId, map<Text, Json>>, t: TaskId, r: RunId, c: Clock)
    requires Inv(db) && RecordOk(db, record) && LoadCheckpointsPlan(db, t, r, c, 0).Commit?
    ensures t in db.tasks && LoadCheckpointsPlan(db, t, r, c, 0).value == Saved(db, t) == Past(record, t)
    ensures ContextOk(db, record, Context(t, r, Saved(db, t)))
  {
    hide Inv;
    FreshIds(db);
  }

  /** The value a commit answers with is the one that is stored from then on. */
  lemma CommittedValue(db: Db, t: TaskId, name: Text, value: Json, r: RunId, c: Clock)
    requires CheckpointPlan(db, t, name, value, r, c, 0).Commit?
    ensures var p := CheckpointPlan(db, t, name, value, r, c, 0);
      && t in p.db.tasks && name in Saved(p.db, t) && Saved(p.db, t)[name] == p.value.0
      && (p.value.1 <==> name !in Saved(db, t)) && (p.value.1 ==> p.value.0 == value)
  {
    hide TaskDue, ValidName;
  }

  lemma PersistGood(w: World, a: Action)
    requires Good(w) && Legal(w, a) && a.Persist?
    ensures Good(Act(w, a))
  {
    hide Inv, RecordOk, ContextOk, EventOk, Evolves, CheckpointPlan;
    var context := w.contexts[a.context];
    var call := Call(Checkpoint(context.task, a.name, a.value, context.run), a.clock);
    AdvanceGood(w, call);
    var p := CheckpointPlan(w.db, context.task, a.name, a.value, context.run, a.clock, 0);
    if p.Commit? {
      var w' := Advance(w, call);
      CommittedValue(w.db, context.task, a.name, a.value, context.run, a.clock);
      Adopted(w'.db, w'.record, w'.now, context, a.name, p.value.0);
      LogGood(w'.(contexts := w'.contexts[a.context := context.(cache := context.cache[a.name := p.value.0])]),
              Returned(context.task, a.name, p.value.0));
    }
  }

  lemma Adopted(db: Db, record: map<TaskId, map<Text, Json>>, now: Time, context: Context, name: Text, value: Json)
    requires RecordOk(db, record) && ContextOk(db, record, context)
    requires context.task in db.tasks && name in Saved(db, context.task) && Saved(db, context.task)[name] == value
    ensures ContextOk(db, record, context.(cache := context.cache[name := value]))
    ensures EventOk(db, record, now, Returned(context.task, name, value))
  {
  }

  /** What scheduling a wake time tells: it has come, or the run sleeps until it. */
  lemma Scheduled(db: Db, r: RunId, wake: Time, c: Clock)
    requires Inv(db) && SchedulePlan(db, r, wake, c, 0).Commit?
    ensures var p := SchedulePlan(db, r, wake, c, 0);
      && r in db.runs && db.runs[r].taskId in db.tasks && db.tasks[db.runs[r].taskId].state == Running
      && (p.value == Ready ==> wake <= Reading(c, 0))
      && (p.value == Suspended ==> wake > Reading(c, 0) && forall now :: RestsUntil(p.db, db.runs[r].taskId, wake, now))
  {
    hide Inv, TaskDue, CancelRows;
    FreshIds(db);
  }

  lemma RestGood(w: World, a: Action)
    requires Good(w) && Legal(w, a) && a.Rest?
    ensures Good(Act(w, a))
  {
    hide Inv, RecordOk, Evolves, SchedulePlan, RestsUntil;
    var context := w.contexts[a.context];
    assert ContextOk(w.db, w.record, context);
    if DecodeTime(context.cache[a.name]).Some? {
      var wake := DecodeTime(context.cache[a.name]).value;
      var call := Call(Schedule(context.run, wake), a.clock);
      var p := SchedulePlan(w.db, context.run, wake, a.clock, 0);
      var w' := Advance(w, call);
      AdvanceGood(w, call);
      if p.Commit? {
        Scheduled(w.db, context.run, wake, a.clock);
        assert Submap(Past(w.record, context.task), Past(w'.record, context.task));
        if p.value == Ready {
          LogGood(w', Awoke(context.task, a.name, Reading(a.clock, 0)));
        } else if p.value == Suspended {
          NeverBefore(w, context, a.name, wake, a.clock);
          LogGood(w', Slept(context.task, a.name));
        }
      }
    }
  }

  /** A sleep that suspends a running task now cannot have suspended it before. */
  lemma NeverBefore(w: World, context: Context, name: Text, wake: Time, c: Clock)
    requires Good(w) && ContextOk(w.db, w.record, context) && name in context.cache
    requires DecodeTime(context.cache[name]) == Some(wake)
    requires context.task in w.db.tasks && w.db.tasks[context.task].state == Running && w.now <= c[0]
    requires Reading(c, 0) < wake
    ensures forall i :: 0 <= i < |w.log| ==> w.log[i] != Slept(context.task, name)
  {
    hide Inv, RecordOk, SleepsOnce;
    forall i | 0 <= i < |w.log| ensures w.log[i] != Slept(context.task, name) {
      assert EventOk(w.db, w.record, w.now, w.log[i]);
    }
  }

  lemma ActGood(w: World, a: Action)
    requires Good(w) && Legal(w, a)
    ensures Good(Act(w, a))
  {
    hide Good, Act, Legal;
    match a
    case Outside(call) => OutsideGood(w, a);
    case Open(_, _, _) => OpenGood(w, a);
    case Recall(_, _) => RecallGood(w, a);
    case Persist(_, _, _, _) => PersistGood(w, a);
    case Rest(_, _, _) => RestGood(w, a);
  }

  lemma OutsideGood(w: World, a: Action)
    requires Good(w) && Legal(w, a) && a.Outside?
    ensures Good(Act(w, a))
  {
    hide Good, Advance;
    AdvanceGood(w, a.call);
  }

  lemma RecallGood(w: World, a: Action)
    requires Good(w) && Legal(w, a) && a.Recall?
    ensures Good(Act(w, a))
  {
    hide Inv, RecordOk, SleepsOnce, RestsUntil;
    var context := w.contexts[a.context];
    assert ContextOk(w.db, w.record, context);
    LogGood(w, Returned(context.task, a.name, context.cache[a.name]));
  }

  // ---- Whole runs ----

  predicate LegalRun(w: World, actions: seq<Action>)
    decreases |actions|
  {
    actions == [] || (Legal(w, actions[0]) && LegalRun(Act(w, actions[0]), actions[1..]))
  }

  function Play(w: World, actions: seq<Action>): World
    requires LegalRun(w, actions)
    decreases |actions|
  {
    if actions == [] then w else Play(Act(w, actions[0]), actions[1..])
  }

  const NOTHING: World := World(EMPTY, map[], [], [], 0.0)

  lemma NothingGood(now: Time)
    ensures Good(NOTHING.(now := now))
  {
  }

  /** Every interleaving of contexts and database calls keeps the invariant. */
  lemma {:induction false} PlayGood(w: World, actions: seq<Action>)
    requires Good(w) && LegalRun(w, actions)
    ensures Good(Play(w, actions))
    decreases |actions|
  {
    hide Good, Act, Legal;
    if actions != [] {
      ActGood(w, actions[0]);
      PlayGood(Act(w, actions[0]), actions[1..]);
    }
  }

  /** Two successful calls of one step of one task. */
  predicate SameStep(a: Event, b: Event) {
    a.Returned? && b.Returned? && a.task == b.task && a.name == b.name
  }

  /** Two contexts of one task that both have a value for the name. */
  predicate BothCache(a: Context, b: Context, name: Text) {
    a.task == b.task && name in a.cache && name in b.cache
  }

  /**
   * Checkpoint agreement: in every run, each cache is part of the durable checkpoints while the task is
   * retained, the caches of one task agree, and two successful step calls for one task and name have the
   * same stored value, whatever their contexts and attempts.
   */
  lemma CheckpointAgreement(now: Time, actions: seq<Action>)
    requires LegalRun(NOTHING.(now := now), actions)
    ensures var w := Play(NOTHING.(now := now), actions);
      && (forall i :: 0 <= i < |w.contexts| && w.contexts[i].task in w.db.tasks ==>
            Submap(w.contexts[i].cache, Saved(w.db, w.contexts[i].task)))
      && (forall i, j, n | 0 <= i < |w.contexts| && 0 <= j < |w.contexts| ::
            BothCache(w.contexts[i], w.contexts[j], n) ==> w.contexts[i].cache[n] == w.contexts[j].cache[n])
      && (forall i, j :: 0 <= i < |w.log| && 0 <= j < |w.log| && SameStep(w.log[i], w.log[j]) ==>
            w.log[i].value == w.log[j].value)
  {
    hide Inv, Act, Legal, SleepsOnce, RestsUntil;
    NothingGood(now);
    PlayGood(NOTHING.(now := now), actions);
    var w := Play(NOTHING.(now := now), actions);
    assert forall i :: 0 <= i < |w.contexts| ==> ContextOk(w.db, w.record, w.contexts[i]);
    forall i | 0 <= i < |w.log| ensures EventOk(w.db, w.record, w.now, w.log[i]) {
    }
  }

  /**
   * Durable sleep: in every run each sleep identity suspends its task at most once, across attempts,
   * claims and requested times, and a sleep returns normally only once the first committed time has come.
   */
  lemma DurableSleep(now: Time, actions: seq<Action>)
    requires LegalRun(NOTHING.(now := now), actions)
    ensures var w := Play(NOTHING.(now := now), actions);
      && SleepsOnce(w.log)
      && (forall i :: 0 <= i < |w.log| && w.log[i].Awoke? ==>
            && w.log[i].name in Past(w.record, w.log[i].task)
            && DecodeTime(Past(w.record, w.log[i].task)[w.log[i].name]).Some?
            && DecodeTime(Past(w.record, w.log[i].task)[w.log[i].name]).value <= w.log[i].at)
  {
    hide Inv, Act, Legal, SleepsOnce, RestsUntil;
    NothingGood(now);
    PlayGood(NOTHING.(now := now), actions);
    var w := Play(NOTHING.(now := now), actions);
    forall i | 0 <= i < |w.log| ensures EventOk(w.db, w.record, w.now, w.log[i]) {
    }
  }

  // ---- Replay without running the body ----

  /** Contexts stay, and their caches only grow. */
  lemma CacheGrows(w: World, a: Action, i: nat, name: Text)
    requires Legal(w, a) && i < |w.contexts| && name in w.contexts[i].cache
    ensures i < |Act(w, a).contexts| && name in Act(w, a).contexts[i].cache
  {
    hide Perform, CheckpointPlan, LoadCheckpointsPlan, SchedulePlan;
  }

  lemma {:induction false} CacheStays(w: World, actions: seq<Action>, i: nat, name: Text)
    requires LegalRun(w, actions) && i < |w.contexts| && name in w.contexts[i].cache
    ensures i < |Play(w, actions).contexts| && name in Play(w, actions).contexts[i].cache
    decreases |actions|
  {
    hide Act, Legal;
    if actions != [] {
      CacheGrows(w, actions[0], i, name);
      CacheStays(Act(w, actions[0]), actions[1..], i, name);
    }
  }

  /**
   * A context opened after a commit never runs that body: however the run goes on, persisting a result
   * under that name from that context stays impossible, and recalling the checkpoint stays possible.
   */
  lemma LateContextReplays(w: World, a: Action, actions: seq<Action>, name: Text, value: Json, c: Clock)
    requires Good(w) && Legal(w, a) && a.Open? && LoadCheckpointsPlan(w.db, a.task, a.run, a.clock, 0).Commit?
    requires name in Past(w.record, a.task) && LegalRun(Act(w, a), actions)
    ensures var w', i := Play(Act(w, a), actions), |w.contexts|;
      !Legal(w', Persist(i, name, value, c)) && Legal(w', Recall(i, name))
  {
    hide Inv, RecordOk, LockError, Perform;
    var i := |w.contexts|;
    LoadedContext(w.db, w.record, a.task, a.run, a.clock);
    assert i < |Act(w, a).contexts| && name in Act(w, a).contexts[i].cache;
    CacheStays(Act(w, a), actions, i, name);
  }

  // ---- The log only grows, so agreement also joins calls made at different times ----

  lemma LogGrows(w: World, a: Action)
    requires Legal(w, a)
    ensures w.log <= Act(w, a).log
  {
    hide Perform, CheckpointPlan, LoadCheckpointsPlan, SchedulePlan;
  }

  lemma {:induction false} LogKept(w: World, actions: seq<Action>)
    requires LegalRun(w, actions)
    ensures w.log <= Play(w, actions).log
    decreases |actions|
  {
    hide Act, Legal;
    if actions != [] {
      LogGrows(w, actions[0]);
      LogKept(Act(w, actions[0]), actions[1..]);
    }
  }

  /** The latest event is a successful step call. */
  predicate JustReturned(w: World, t: TaskId, name: Text, value: Json) {
    w.log != [] && w.log[|w.log| - 1] == Returned(t, name, value)
  }

  /** Two successful calls of one step, however far apart, return the same value. */
  lemma LaterCallAgrees(w: World, actions: seq<Action>, t: TaskId, name: Text, value: Json, value': Json)
    requires Good(w) && LegalRun(w, actions)
    requires JustReturned(w, t, name, value) && JustReturned(Play(w, actions), t, name, value')
    ensures value == value'
  {
    hide Inv, Act, Legal, SleepsOnce, RestsUntil, RecordOk;
    PlayGood(w, actions);
    LogKept(w, actions);
    var w' := Play(w, actions);
    assert EventOk(w'.db, w'.record, w'.now, w'.log[|w.log| - 1]);
    assert EventOk(w'.db, w'.record, w'.now, w'.log[|w'.log| - 1]);
  }
}
