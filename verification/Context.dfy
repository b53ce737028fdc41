/** The context of one claimed attempt: its checkpoint cache, durable steps and durable sleeps. */
module Context {
  import opened Basics
  import opened Policies
  import opened Storage
  import opened Plans
  import opened Names
  import W = Workflows
  import Q = QueueStorage

  /** A serializer and deserializer of step results. */
  datatype Codec<!V> = Codec(encode: V -> Json, decode: Json -> Option<V>)

  ghost predicate Lawful<V(!new)>(codec: Codec<V>) {
    forall v :: codec.decode(codec.encode(v)) == Some(v)
  }

  class TaskContext {
    const storage: Q.QueueStorage
    const task: TaskId
    const run: RunId
    var cache: map<Text, Json>

    constructor (storage: Q.QueueStorage, task: TaskId, run: RunId, rows: map<Text, Json>)
      ensures this.storage == storage && this.task == task && this.run == run && cache == rows
    {
      this.storage, this.task, this.run, cache := storage, task, run, rows;
    }

    /** Loads the committed checkpoints; the new context starts from all of them. */
    static method New(storage: Q.QueueStorage, task: TaskId, run: RunId, c: Clock) returns (res: Result<TaskContext>)
      ensures res.Ok? <==> LoadCheckpointsPlan(storage.Snapshot(), task, run, c, 0).Commit?
      ensures res.Err? ==> LoadCheckpointsPlan(storage.Snapshot(), task, run, c, 0) == Raise(res.error)
      ensures res.Ok? ==>
        fresh(res.value) && res.value.storage == storage && res.value.task == task && res.value.run == run
      ensures res.Ok? ==> res.value.cache == Saved(storage.Snapshot(), task)
    {
      hide LockError;
      var rows := storage.GetTaskCheckpointStates(task, run, c, 0);
      if rows.Err? {
        return Err(rows.error);
      }
      var context := new TaskContext(storage, task, run, rows.value);
      return Ok(context);
    }

    /** Commits a value, or adopts the one that is already stored, and caches the stored one. */
    method PersistCheckpoint(name: Text, value: Json, c: Clock) returns (res: Result<(Json, bool)>)
      modifies this`cache, storage
      ensures Q.Follows(CheckpointPlan(old(storage.Snapshot()), task, name, value, run, c, 0), old(storage.Snapshot()),
                        storage.Snapshot(), res)
      ensures cache == if res.Ok? then old(cache)[name := res.value.0] else old(cache)
      ensures res.Ok? ==>
        task in storage.tasks && name in Saved(storage.Snapshot(), task)
        && Saved(storage.Snapshot(), task)[name] == res.value.0
      ensures res.Ok? && res.value.1 ==> res.value.0 == value
    {
      hide CheckpointPlan;
      ghost var db := storage.Snapshot();
      res := storage.SetTaskCheckpointState(task, name, value, run, c, 0);
      if res.Ok? {
        W.CommittedValue(db, task, name, value, run, c);
        cache := cache[name := res.value.0];
      }
    }

    ghost function View(): W.Context
      reads this
    {
      W.Context(task, run, cache)
    }

    /** The i-th context of the interleaved machine is this one, over the same tables. */
    ghost predicate Mirrors(w: W.World, i: nat)
      reads this, storage
    {
      i < |w.contexts| && w.contexts[i] == View() && w.db == storage.Snapshot()
    }

    /**
     * A typed durable step, as one action of the interleaved machine: it recalls its checkpoint, or runs
     * its body and persists. The value it returns is the decoding of the value the machine logs.
     */
    method Step<V(!new)>(codec: Codec<V>, step: Text, body: Result<V>, c: Clock, ghost w: W.World, ghost i: nat)
      returns (res: Result<V>, ran: bool, ghost w': W.World)
      requires Lawful(codec) && Mirrors(w, i) && w.now <= c[0]
      modifies this`cache, storage
      ensures Mirrors(w', i)
      ensures var name := WorkflowName(STEP, step);
        if name.Err? then res == Err(name.error) && !ran && w' == w
        else
          && (ran <==> name.value !in old(cache))
          && (!ran ==> W.Legal(w, W.Recall(i, name.value)) && w' == W.Act(w, W.Recall(i, name.value)))
          && (ran && body.Err? ==> res == Err(body.error) && w' == w)
          && (ran && body.Ok? ==>
                var a := W.Persist(i, name.value, codec.encode(body.value), c); W.Legal(w, a) && w' == W.Act(w, a))
          && (res.Ok? ==> exists value ::
                W.JustReturned(w', task, name.value, value) && codec.decode(value) == Some(res.value))
    {
      hide CheckpointPlan, W.Act, TrimsEmpty;
      w' := w;
      var name := WorkflowName(STEP, step);
      if name.Err? {
        return Err(name.error), false, w';
      }
      res, ran, w' := this.Checkpoint(codec, name.value, body, c, w, i);
    }

    /**
     * One checkpoint; `body` is what running the step's own code would give. A cached value is decoded
     * and nothing else happens; otherwise the body runs and its value is committed, unless another
     * attempt got there first. Either way the result is the decoding of the stored value.
     */
    method Checkpoint<V(!new)>(codec: Codec<V>, name: Text, body: Result<V>, c: Clock, ghost w: W.World, ghost i: nat)
      returns (res: Result<V>, ran: bool, ghost w': W.World)
      requires Lawful(codec) && Mirrors(w, i) && w.now <= c[0]
      modifies this`cache, storage
      ensures Mirrors(w', i)
      ensures ran <==> name !in old(cache)
      ensures !ran || body.Err? ==> cache == old(cache) && storage.Snapshot() == old(storage.Snapshot())
      ensures res.Ok? ==> name in cache && codec.decode(cache[name]) == Some(res.value)
      ensures res.Ok? && ran ==>
        task in storage.tasks && name in Saved(storage.Snapshot(), task)
        && Saved(storage.Snapshot(), task)[name] == cache[name]
      ensures forall n :: n in old(cache) ==> n in cache && cache[n] == old(cache)[n]
      ensures !ran ==> W.Legal(w, W.Recall(i, name)) && w' == W.Act(w, W.Recall(i, name))
      ensures ran && body.Err? ==> res == Err(body.error) && w' == w
      ensures ran && body.Ok? ==>
        var a := W.Persist(i, name, codec.encode(body.value), c); W.Legal(w, a) && w' == W.Act(w, a)
      ensures res.Ok? ==>
        exists value :: W.JustReturned(w', task, name, value) && codec.decode(value) == Some(res.value)
    {
      hide CheckpointPlan, W.Act;
      w' := w;
      ran := name !in cache;
      if !ran {
        var decoded := codec.decode(cache[name]);
        res := if decoded.Some? then Ok(decoded.value) else Err(UndecodableValue);
        RecallRealized(w, i, name);
        w' := W.Act(w, W.Recall(i, name));
        assert W.JustReturned(w', task, name, cache[name]);
        return;
      }
      if body.Err? {
        return Err(body.error), ran, w';
      }
      ghost var db := storage.Snapshot();
      var value := codec.encode(body.value);
      var stored := PersistCheckpoint(name, value, c);
      PersistRealized(w, i, name, value, c, storage.Snapshot(), stored);
      w' := W.Act(w, W.Persist(i, name, value, c));
      if stored.Err? {
        return Err(stored.error), ran, w';
      }
      assert W.JustReturned(w', task, name, if stored.value.1 then value else stored.value.0);
      if stored.value.1 {
        return Ok(body.value), ran, w';
      }
      var decoded := codec.decode(stored.value.0);
      res := if decoded.Some? then Ok(decoded.value) else Err(UndecodableValue);
    }

    /**
     * A durable sleep, as actions of the interleaved machine. The wake time is the first one committed
     * under the name; a first call commits the requested one. Normal return means that it has come; suspension means that
     * the run now sleeps until exactly then.
     */
    method SleepUntil(sleep: Text, wakeAt: Time, c: Clock, c': Clock, ghost w: W.World, ghost i: nat)
      returns (res: Result<()>, ghost w': W.World, ghost actions: seq<W.Action>)
      requires Mirrors(w, i) && w.now <= c[0] && c[|c| - 1] <= c'[0]
      modifies this`cache, storage
      ensures Mirrors(w', i) && W.LegalRun(w, actions) && w' == W.Play(w, actions)
      ensures var name := WorkflowName(SLEEP, sleep);
        && (name.Err? ==>
              res == Err(name.error) && actions == [] && cache == old(cache)
              && storage.Snapshot() == old(storage.Snapshot()))
        && (res.Ok? || res == Err(TaskSuspended) ==>
              name.Ok? && name.value in cache && W.DecodeTime(cache[name.value]).Some?)
        && (res.Ok? ==>
              && W.DecodeTime(cache[name.value]).value <= Reading(c', 0)
              && w'.log != [] && w'.log[|w'.log| - 1] == W.Awoke(task, name.value, Reading(c', 0)))
        && (res == Err(TaskSuspended) ==>
              && W.DecodeTime(cache[name.value]).value > Reading(c', 0)
              && run in storage.runs && storage.runs[run].state == Sleeping
              && storage.runs[run].availableAt == W.DecodeTime(cache[name.value]).value
              && w'.log != [] && w'.log[|w'.log| - 1] == W.Slept(task, name.value))
        && (name.Ok? && name.value in old(cache) ==>
              cache == old(cache) && (actions == [] || actions == [W.Rest(i, name.value, c')]))
        && (name.Ok? && name.value !in old(cache) ==>
              actions != [] && actions[0] == W.Persist(i, name.value, W.EncodeTime(wakeAt), c))
        && ((res.Ok? || res == Err(TaskSuspended))
            && name.value !in old(cache) && name.value !in Saved(old(storage.Snapshot()), task) ==>
              W.DecodeTime(cache[name.value]) == Some(wakeAt))
    {
      hide CheckpointPlan, SchedulePlan, W.Act, TrimsEmpty;
      w', actions := w, [];
      var name := WorkflowName(SLEEP, sleep);
      if name.Err? {
        return Err(name.error), w', actions;
      }
      if name.value !in cache {
        ghost var db := storage.Snapshot();
        var stored := PersistCheckpoint(name.value, W.EncodeTime(wakeAt), c);
        PersistRealized(w, i, name.value, W.EncodeTime(wakeAt), c, storage.Snapshot(), stored);
        OneAction(w, W.Persist(i, name.value, W.EncodeTime(wakeAt), c));
        actions := [W.Persist(i, name.value, W.EncodeTime(wakeAt), c)];
        w' := W.Play(w, actions);
        if stored.Err? {
          LockErrorsOnly(db, task, name.value, W.EncodeTime(wakeAt), run, c);
          return Err(stored.error), w', actions;
        }
        FirstStored(db, task, name.value, W.EncodeTime(wakeAt), run, c);
      }
      var wake := W.DecodeTime(cache[name.value]);
      if wake.None? {
        return Err(UndecodableValue), w', actions;
      }
      ghost var before := w';
      ghost var tables := storage.Snapshot();
      var scheduled := storage.ScheduleRun(run, wake.value, c', 0);
      RestRealized(before, i, name.value, c', wake.value, storage.Snapshot(), scheduled);
      ScheduleSays(tables, run, wake.value, c');
      OneMore(w, actions, W.Rest(i, name.value, c'));
      actions := actions + [W.Rest(i, name.value, c')];
      w' := W.Play(w, actions);
      if scheduled.Err? {
        return Err(scheduled.error), w', actions;
      }
      match scheduled.value
      case Ready => return Ok(()), w', actions;
      case Suspended => return Err(TaskSuspended), w', actions;
      case CancelledInstead => return Err(TaskCancelled), w', actions;
    }
  }

  // ---- The methods realize the actions of the interleaved machine ----

  lemma OneAction(w: W.World, a: W.Action)
    requires W.Legal(w, a)
    ensures W.LegalRun(w, [a]) && W.Play(w, [a]) == W.Act(w, a)
  {
    hide W.Act, W.Legal;
    assert [a][1..] == [];
    assert W.LegalRun(W.Act(w, a), []) && W.Play(W.Act(w, a), []) == W.Act(w, a);
  }

  lemma {:induction false} OneMore(w: W.World, actions: seq<W.Action>, a: W.Action)
    requires W.LegalRun(w, actions) && W.Legal(W.Play(w, actions), a)
    ensures W.LegalRun(w, actions + [a]) && W.Play(w, actions + [a]) == W.Act(W.Play(w, actions), a)
    decreases |actions|
  {
    hide W.Act, W.Legal;
    if actions == [] {
      assert actions + [a] == [a];
      OneAction(w, a);
    } else {
      OneMore(W.Act(w, actions[0]), actions[1..], a);
      assert (actions + [a])[1..] == actions[1..] + [a];
    }
  }

  lemma RecallRealized(w: W.World, i: nat, name: Text)
    requires i < |w.contexts| && name in w.contexts[i].cache
    ensures W.Legal(w, W.Recall(i, name))
    ensures W.Act(w, W.Recall(i, name))
      == w.(log := w.log + [W.Returned(w.contexts[i].task, name, w.contexts[i].cache[name])])
  {
  }

  /** Committing through the database function is the machine's persist action. */
  lemma PersistRealized(w: W.World, i: nat, name: Text, value: Json, c: Clock, after: Db, res: Result<(Json, bool)>)
    requires i < |w.contexts| && name !in w.contexts[i].cache && w.now <= c[0]
    requires Q.Follows(CheckpointPlan(w.db, w.contexts[i].task, name, value, w.contexts[i].run, c, 0), w.db, after, res)
    ensures W.Legal(w, W.Persist(i, name, value, c))
    ensures var w', context := W.Act(w, W.Persist(i, name, value, c)), w.contexts[i];
      && w'.db == after && |w'.contexts| == |w.contexts| && w'.now == c[|c| - 1]
      && w'.contexts[i] == (if res.Ok? then context.(cache := context.cache[name := res.value.0]) else context)
      && (res.Ok? ==>
            w'.log == w.log + [W.Returned(context.task, name, if res.value.1 then value else res.value.0)])
  {
    hide CheckpointPlan;
  }

  /** Scheduling the checkpointed time through the database function is the machine's rest action. */
  lemma RestRealized(w: W.World, i: nat, name: Text, c: Clock, wake: Time, after: Db, res: Result<ScheduleOutcome>)
    requires i < |w.contexts| && name in w.contexts[i].cache && w.now <= c[0]
    requires W.DecodeTime(w.contexts[i].cache[name]) == Some(wake)
    requires Q.Follows(SchedulePlan(w.db, w.contexts[i].run, wake, c, 0), w.db, after, res)
    ensures W.Legal(w, W.Rest(i, name, c))
    ensures var w', context := W.Act(w, W.Rest(i, name, c)), w.contexts[i];
      && w'.db == after && w'.contexts == w.contexts
      && (res == Ok(Ready) ==> w'.log == w.log + [W.Awoke(context.task, name, Reading(c, 0))])
      && (res == Ok(Suspended) ==> w'.log == w.log + [W.Slept(context.task, name)])
  {
    hide SchedulePlan;
  }

  lemma ScheduleSays(db: Db, r: RunId, wake: Time, c: Clock)
    ensures match SchedulePlan(db, r, wake, c, 0)
      case Raise(e) => e != TaskSuspended
      case Commit(Ready, _, _) => wake <= Reading(c, 0)
      case Commit(Suspended, db', _) =>
        wake > Reading(c, 0) && r in db'.runs && db'.runs[r].state == Sleeping && db'.runs[r].availableAt == wake
      case Commit(_, _, _) => true
  {
    hide CancellationDue, CancelRows;
  }

  /**
   * Typed agreement: in every run, two successful calls of one typed step of one task, by any contexts of
   * any attempts, return the same value. Each call returns the decoding of the value that it logs.
   */
  lemma TypedAgreement<V>(w: W.World, actions: seq<W.Action>, codec: Codec<V>, t: TaskId, name: Text,
                          stored: Json, v: V, stored': Json, v': V)
    requires W.Good(w) && W.LegalRun(w, actions)
    requires W.JustReturned(w, t, name, stored) && codec.decode(stored) == Some(v)
    requires W.JustReturned(W.Play(w, actions), t, name, stored') && codec.decode(stored') == Some(v')
    ensures v == v'
  {
    hide W.Good, W.Act, W.Legal;
    W.LaterCallAgrees(w, actions, t, name, stored, stored');
  }

  /** The first value under a name is stored as it is given. */
  lemma FirstStored(db: Db, t: TaskId, name: Text, value: Json, r: RunId, c: Clock)
    ensures var p := CheckpointPlan(db, t, name, value, r, c, 0);
      p.Commit? && name !in Saved(db, t) ==> p.value == (value, true)
  {
    hide Do, TaskDue, ValidName, LockError;
  }

  /** A refused checkpoint is never reported as a suspension. */
  lemma LockErrorsOnly(db: Db, t: TaskId, name: Text, value: Json, r: RunId, c: Clock)
    ensures CheckpointPlan(db, t, name, value, r, c, 0) != Raise(TaskSuspended)
  {
    hide Do, TaskDue, ValidName;
  }
}
