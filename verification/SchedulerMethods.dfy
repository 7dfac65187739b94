/** The scheduler as it runs: methods that update the run queues, blocked lists, pools
    and semaphores in place, while other threads interfere. */
module SchedulerMethods {
  import opened Basics
  import opened SchedulerModel
  import opened SchedulerInvariant
  import opened SchedulerRuns
  import opened SchedulerPermits
  import opened SchedulerMutex
  import opened SchedulerTeardown
  import Model = SchedulerModel

  class Runtime {
    var ctxs: seq<Ctx>
    var tasks: seq<Task>
    var sems: seq<Sem>
    var queues: map<Slot, seq<nat>>
    var workers: map<Slot, Option<nat>>
    var pools: map<Slot, seq<nat>>
    var index: map<Slot, map<nat, nat>>

    constructor ()
      ensures State() == INITIAL
    {
      ctxs, tasks, sems := [], [], [];
      queues, workers, pools, index := map[], map[], map[], map[];
    }

    function State(): Sys
      reads this
    {
      Sys(ctxs, tasks, sems, queues, workers, pools, index)
    }

    // ---------- run queues and pools ----------

    /** `Scheduler::push`: the task comes last in the queue of its partition. */
    method Push(t: nat)
      requires TaskOk(State(), t)
      modifies this`queues, this`tasks
      ensures queues.Keys == old(queues).Keys && queues[old(tasks)[t].home] == old(queues)[old(tasks)[t].home] + [t]
      ensures forall slot | slot in queues && slot != old(tasks)[t].home :: queues[slot] == old(queues)[slot]
      ensures State() == Model.Push(old(State()), t)
    {
      var home := tasks[t].home;
      queues := queues[home := queues[home] + [t]];
      tasks := tasks[t := tasks[t].(place := Queued)];
    }

    /** `Scheduler::pop`. */
    method Pop(slot: Slot) returns (task: Option<nat>)
      requires slot in queues && (queues[slot] != [] ==> queues[slot][0] < |tasks|)
      modifies this`queues, this`tasks
      ensures task == if old(queues)[slot] == [] then None else Some(old(queues)[slot][0])
      ensures State() == if task == None then old(State()) else PopFirst(old(State()), slot)
    {
      if queues[slot] == [] {
        return None;
      }
      var t := queues[slot][0];
      queues := queues[slot := queues[slot][1..]];
      tasks := tasks[t := tasks[t].(place := Moving)];
      task := Some(t);
    }

    /** `Allocator::create`: the new task, in the hands of `create_scheduled`. */
    method Emplace(home: Slot, id: nat) returns (t: nat)
      requires home in pools && home in index
      modifies this`tasks, this`pools, this`index
      ensures t == |old(tasks)| && tasks == old(tasks) + [Task(home, id, Moving, None, None, None)]
      ensures pools == old(pools)[home := old(pools)[home] + [t]]
      ensures index == old(index)[home := Indexed(old(index)[home], id, t)]
    {
      t := |tasks|;
      tasks := tasks + [Task(home, id, Moving, None, None, None)];
      pools := pools[home := pools[home] + [t]];
      index := index[home := Indexed(index[home], id, t)];
    }

    /** `create_scheduled`: the task gets the context's next id, and comes last in the
        queue and in the pool of partition `id % n`. */
    method CreateScheduled(c: nat)
      requires Enabled(State(), Spawn(c))
      modifies this
      ensures var id := old(ctxs)[c].nextId;
        var t, home := |old(tasks)|, Slot(c, id % old(ctxs)[c].parts);
        && ctxs == old(ctxs)[c := old(ctxs)[c].(nextId := id + 1)]
        && tasks == old(tasks) + [Task(home, id, Queued, None, None, None)]
        && queues == old(queues)[home := old(queues)[home] + [t]] && pools == old(pools)[home := old(pools)[home] + [t]]
      ensures State() == Next(old(State()), Spawn(c))
    {
      var id := ctxs[c].nextId;
      ctxs := ctxs[c := ctxs[c].(nextId := id + 1)];
      var t := Emplace(Slot(c, id % ctxs[c].parts), id);
      assert ctxs[c].parts == old(ctxs)[c].parts;
      Push(t);
      assert tasks == Create(old(State()), c).tasks;
    }

    /** `Allocator::destroy`. */
    method DestroyTask(t: nat)
      requires TaskOk(State(), t)
      modifies this`tasks, this`pools, this`index
      ensures State() == Retire(old(State()), t)
    {
      var home, id := tasks[t].home, tasks[t].id;
      pools := pools[home := Without(pools[home], t)];
      index := index[home := index[home] - {id}];
      tasks := tasks[t := tasks[t].(place := Finished)];
    }

    // ---------- conditions and semaphores ----------

    /** `Condition::_schedule_from_this`. */
    method ScheduleFromThis(s: nat)
      requires s < |sems| && (sems[s].blocked != [] ==> TaskOk(State(), sems[s].blocked[0]))
      modifies this`sems, this`tasks, this`queues
      ensures State() == Wake(old(State()), s)
    {
      var sem := sems[s];
      if sem.blocked == [] {
        return;
      }
      var t := sem.blocked[0];
      sems := sems[s := sem.(blocked := sem.blocked[1..], scheduled := Some(tasks[t].home.ctx), woken := sem.woken + {t})];
      tasks := tasks[t := tasks[t].(place := Moving)];
      Push(t);
    }

    /** `Condition::notify`, and the end of `Semaphore::release`. */
    method NotifyAndUnlock(s: nat)
      requires Enabled(State(), Notify(s))
      modifies this`sems, this`tasks, this`queues
      ensures State() == NotifyOne(old(State()), s)
    {
      ScheduleFromThis(s);
      sems := sems[s := sems[s].(mtx := Free)];
    }

    /** `Semaphore::release`: add a permit and notify.  The semaphore's lock is held
        from one to the other, and others interfere in between. */
    method ReleaseSem(s: nat) returns (ghost steps: seq<Step>)
      requires Inv(State()) && s < |sems| && sems[s].mtx == Free
      modifies this
      ensures Ran(old(State()), steps, State())
      ensures |steps| >= 2 && steps[0] == Release(s) && steps[|steps| - 1] == Notify(s)
      ensures forall i | 0 < i < |steps| - 1 :: steps[i] != Notify(s)
    {
      ghost var w0 := State();
      var sem := sems[s];
      sems := sems[s := sem.(vacant := sem.vacant + 1, released := sem.released + 1, mtx := ByReleaser)];
      ghost var w1 := State();
      ReleaseRuns(w0, s, w1);
      ghost var more := Interfere((step: Step) => step != Notify(s));
      RunAppends(w0, [Release(s)], w1, more, State());
      LockStaysWithReleaser(w1, more, s);
      ghost var w2 := State();
      NotifyEnabled(w2, s);
      NotifyAndUnlock(s);
      NotifyRuns(w2, s, State());
      RunAppends(w0, [Release(s)] + more, w2, [Notify(s)], State());
      steps := [Release(s)] + more + [Notify(s)];
    }

    /** The task leaves the list it is in. */
    method Unlist(s: nat, t: nat)
      requires TaskOk(State(), t) && s < |sems|
      modifies this`sems, this`queues, this`tasks
      ensures State() == Destroy(old(State()), s, t)
    {
      var x := tasks[t];
      var sem := sems[s];
      sems := sems[s := sem.(blocked := Without(sem.blocked, t), woken := sem.woken - {t})];
      queues := queues[x.home := Without(queues[x.home], t)];
      tasks := tasks[t := x.(place := Destroyed, waiting := None, resume := None)];
    }

    /** `Condition::_remove` and the destruction of the task's frames. */
    method RemoveTask(t: nat)
      requires Enabled(State(), Remove(t))
      modifies this
      ensures State() == Next(old(State()), Remove(t))
    {
      hide Destroy, Wake;
      var x := tasks[t];
      var s := x.waiting.value;
      var sem := sems[s];
      Unlist(s, t);
      if sem.scheduled == None || sem.scheduled == Some(x.home.ctx) {
        if sems[s].blocked != [] {
          WithoutElement(sem.blocked, t, sems[s].blocked[0]);
        }
        ScheduleFromThis(s);
      }
    }

    // ---------- interference ----------

    /** Any steps of the threads that share the state, among those allowed, and without
        those that task `absent` takes itself. */
    method Interfere(allowed: Step -> bool, absent: Option<nat> := None) returns (ghost steps: seq<Step>)
      requires Inv(State())
      modifies this
      ensures Ran(old(State()), steps, State())
      ensures forall i | 0 <= i < |steps| :: allowed(steps[i])
      ensures absent.Some? ==> ActedAs(old(State()), steps, absent.value, [])
    {
      hide Inv, Enabled, Next, Ran, ActedAs, IsOwn;
      steps := [];
      EmptyRun(State());
      NothingDone(State());
      var n: nat := *;
      while n > 0
        invariant Ran(old(State()), steps, State())
        invariant forall i | 0 <= i < |steps| :: allowed(steps[i])
        invariant absent.Some? ==> ActedAs(old(State()), steps, absent.value, [])
      {
        var step: Step := *;
        if allowed(step) && Enabled(State(), step) && (absent.Some? ==> !IsOwn(State(), step, absent.value)) {
          ghost var w := State();
          if absent.Some? {
            AnothersStep(old(State()), steps, w, step, absent.value);
          }
          var v := Next(State(), step);
          ctxs, tasks, sems, queues, workers, pools, index := v.ctxs, v.tasks, v.sems, v.queues, v.workers, v.pools, v.index;
          RunGrows(old(State()), steps, w, step);
          steps := steps + [step];
        }
        n := n - 1;
      }
    }

    // ---------- teardown ----------

    /** One round of the loop of `final_schedule`: between the check and its removal
        others may wake the task, but it goes on waiting for the condition. */
    method DrainOne(slot: Slot, pool: seq<nat>, i: nat) returns (ghost steps: seq<Step>)
      requires i < |pool| && Inv(State()) && DrainedUpTo(State(), slot, pool, i)
      modifies this
      ensures Ran(old(State()), steps, State()) && DrainedUpTo(State(), slot, pool, i + 1)
    {
      hide Inv, Ran, Enabled, Next, DrainedUpTo;
      var t := pool[i];
      var others := (step: Step) => step.Remove? ==> step.task !in pool;
      ghost var w0 := State();
      steps := Interfere(others);
      ghost var w1 := State();
      RunKeepsDrained(w0, steps, w1, slot, pool, i);
      PooledIsOfStopped(w1, slot, pool, i);
      if tasks[t].waiting == None {
        SkippedIsDrained(w1, slot, pool, i);
        return;
      }
      RanKeepsInv(w0, steps, w1);
      ghost var more := Interfere(others);
      ghost var w2 := State();
      RunKeepsDrained(w1, more, w2, slot, pool, i);
      RunKeepsWaiting(w1, more, w2, t);
      RanKeepsInv(w1, more, w2);
      WaitingIsRemovable(w2, t);
      RemoveTask(t);
      RemovedIsDrained(w2, slot, pool, i);
      SingleRun(w2, Remove(t));
      RunAppends(w0, steps, w1, more, w2);
      RunAppends(w0, steps + more, w2, [Remove(t)], State());
      steps := steps + more + [Remove(t)];
    }

    /** `final_schedule` for one partition, while other partitions are drained too and
        other contexts run on. */
    method FinalSchedule(slot: Slot) returns (ghost steps: seq<Step>)
      requires Inv(State()) && slot in pools && StoppedAt(State(), slot.ctx)
      modifies this
      ensures Ran(old(State()), steps, State()) && Drained(State(), slot)
    {
      hide Inv, Ran, Enabled, Next, Drained, DrainedUpTo;
      var pool := pools[slot];
      EmptyRun(State());
      PoolHoldsAll(State(), slot);
      steps := [];
      var i := 0;
      while i < |pool|
        invariant 0 <= i <= |pool|
        invariant Inv(State()) && Ran(old(State()), steps, State()) && DrainedUpTo(State(), slot, pool, i)
      {
        ghost var w := State();
        ghost var more := DrainOne(slot, pool, i);
        RanKeepsInv(w, more, State());
        RunAppends(old(State()), steps, w, more, State());
        steps := steps + more;
        i := i + 1;
      }
      AllDrained(State(), slot, pool);
    }

    // ---------- acquiring a semaphore ----------

    /** Lock the semaphore; after a wake-up this also clears `_scheduled_ctx`. */
    method LockFor(s: nat, t: nat)
      requires s < |sems| && t < |tasks|
      modifies this`sems, this`tasks
      ensures State() == LockSem(old(State()), s, t)
    {
      var sem := sems[s];
      sems := sems[s := sem.(mtx := ByTask(t))];
      if tasks[t].resume != None {
        sems := sems[s := sems[s].(scheduled := None, woken := sem.woken - {t})];
      }
      tasks := tasks[t := tasks[t].(holds := Some(s), resume := None)];
    }

    /** One round of the loop of `aquire`, the lock being held: take a permit and
        unlock, or wait on the condition, which unlocks. */
    method TryPermit(worker: Slot, s: nat, t: nat) returns (taken: bool)
      requires Enabled(State(), Attempt(worker)) && Current(State(), worker) == t && tasks[t].holds == Some(s)
      modifies this`sems, this`tasks, this`workers
      ensures taken == (old(sems)[s].vacant > 0)
      ensures State() == Next(old(State()), Attempt(worker))
    {
      var sem := sems[s];
      if sem.vacant > 0 {
        sems := sems[s := sem.(vacant := sem.vacant - 1, acquired := sem.acquired + 1, mtx := Free)];
        tasks := tasks[t := tasks[t].(holds := None)];
        return true;
      }
      workers := workers[worker := None];
      sems := sems[s := sem.(blocked := sem.blocked + [t], mtx := Free)];
      tasks := tasks[t := tasks[t].(place := Moving)];
      tasks := tasks[t := tasks[t].(holds := None, place := Blocked(s), waiting := Some(s), resume := Some(s))];
      taken := false;
    }

    /** With the lock in hand, others interfering, one round. */
    method TryOnce(at: Slot, s: nat, t: nat, ghost w0: Sys, ghost sofar: seq<Step>, ghost acts: seq<Act>)
      returns (taken: bool, ghost before: Sys, ghost steps: seq<Step>)
      requires Ran(w0, sofar, State()) && HoldsLock(State(), at, s, t) && ActedAs(w0, sofar, t, acts)
      modifies this
      ensures Ran(w0, steps, State()) && ActedAs(w0, steps, t, acts + [Act(Attempt(at), taken)])
      ensures if taken then GrantedLast(w0, steps, before, at, s, t) else IsSuspended(State(), s, t)
    {
      hide Inv, Ran, Enabled, Next, GrantedLast, HoldsLock, ActedAs, IsSuspended;
      ghost var w1 := State();
      RanKeepsInv(w0, sofar, w1);
      ghost var more := Interfere((step: Step) => step != Attempt(at), Some(t));
      before := State();
      RunKeepsLock(w1, more, before, at, s, t);
      RunAppends(w0, sofar, w1, more, before);
      OthersAct(w0, sofar, w1, more, before, t, acts);
      steps := sofar + more;
      AttemptReady(before, at, s, t);
      RunGrows(w0, steps, before, Attempt(at));
      taken := TryPermit(at, s, t);
      AttemptActs(w0, steps, before, at, s, t, acts);
      if taken {
        GrantIsLast(w0, steps, before, at, s, t);
      } else {
        SuspendedStill(before, at, s, t);
      }
      steps := steps + [Attempt(at)];
    }

    /** The task is suspended inside `Condition::wait`; once it has been woken and runs
        again it locks the semaphore. */
    method LockAgain(s: nat, t: nat, ghost w0: Sys, ghost before: seq<Step>, ghost acts: seq<Act>)
      returns (resumed: bool, at: Slot, ghost steps: seq<Step>)
      requires Ran(w0, before, State()) && ActedAs(w0, before, t, acts) && IsSuspended(State(), s, t)
      modifies this
      ensures Ran(w0, steps, State())
      ensures resumed ==> HoldsLock(State(), at, s, t) && ActedAs(w0, steps, t, acts + [Act(Retry(at), false)])
      ensures !resumed ==> IsSuspended(State(), s, t) && ActedAs(w0, steps, t, acts)
    {
      hide Inv, Ran, Enabled, Next, HoldsLock, MayRetry, ActedAs, IsSuspended;
      ghost var w2 := State();
      RanKeepsInv(w0, before, w2);
      ghost var more := Interfere((step: Step) => true, Some(t));
      ghost var w3 := State();
      RunKeepsSuspended(w2, more, w3, s, t);
      RunAppends(w0, before, w2, more, w3);
      OthersAct(w0, before, w2, more, w3, t, acts);
      steps := before + more;
      resumed, at := false, Slot(0, 0);
      if t >= |tasks| || s >= |sems| || !tasks[t].place.Running? || tasks[t].resume != Some(s) || sems[s].mtx != Free {
        return;
      }
      resumed, at := true, tasks[t].place.worker;
      RanKeepsInv(w2, more, w3);
      RetryReady(w3, at, s, t);
      LockFor(s, t);
      RetryRuns(w3, at, s, t, State());
      RunAppends(w0, steps, w3, [Retry(at)], State());
      RetryActs(w0, steps, w3, at, s, t, acts);
      steps := steps + [Retry(at)];
    }

    /** `Semaphore::aquire` by the task that `worker` runs.  `returned` is false when
        the call has not returned: the task is suspended in it, or has been destroyed.  All
        that the task does in the run is to lock, to try, and to lock and try again; a
        call that returns has been granted one permit, by its last step: in state
        `before`, on worker `at`.  One that has not has been granted none. */
    method Aquire(worker: Slot, s: nat)
      returns (returned: bool, at: Slot, ghost steps: seq<Step>, ghost before: Sys, ghost acts: seq<Act>)
      requires Inv(State()) && Enabled(State(), Acquire(worker, s))
      modifies this
      ensures Ran(old(State()), steps, State())
      ensures ActedAs(old(State()), steps, Current(old(State()), worker), acts) && TriesUntilGranted(acts, worker, s, returned)
      ensures returned ==> GrantedLast(old(State()), steps, before, at, s, Current(old(State()), worker))
      ensures !returned ==> IsSuspended(State(), s, Current(old(State()), worker))
    {
      hide Inv, Ran, Enabled, Next, GrantedLast, HoldsLock, MayRetry, ActedAs, Tries, TriesUntilGranted, IsSuspended;
      ghost var w0 := State();
      HasCurrent(w0, worker, s);
      var t := workers[worker].value;
      LockFor(s, t);
      at := worker;
      AcquireRuns(w0, worker, s, State());
      steps := [Acquire(worker, s)];
      FirstLock(w0, worker, s, t);
      acts := [Act(Acquire(worker, s), false)];
      before := w0;
      returned := false;
      var n: nat := *;
      while true
        invariant Ran(w0, steps, State()) && HoldsLock(State(), at, s, t)
        invariant ActedAs(w0, steps, t, acts) && Tries(acts, worker, s) && |acts| % 2 == 1
        decreases n
      {
        returned, before, steps := TryOnce(at, s, t, w0, steps, acts);
        TriesGrow(acts, worker, s, Attempt(at));
        if returned {
          GrantEnds(acts, worker, s, at);
          acts := acts + [Act(Attempt(at), true)];
          return;
        }
        acts := acts + [Act(Attempt(at), false)];
        NotGranted(acts, worker, s);
        if n == 0 {
          return;
        }
        var resumed;
        resumed, at, steps := LockAgain(s, t, w0, steps, acts);
        if !resumed {
          return;
        }
        TriesGrow(acts, worker, s, Retry(at));
        acts := acts + [Act(Retry(at), false)];
        n := n - 1;
      }
    }

    // ---------- workers ----------

    /** `_execute` makes the task the worker's current one. */
    method Begin(worker: Slot, t: nat)
      requires t < |tasks|
      modifies this`workers, this`tasks
      ensures State() == Enter(old(State()), worker, t)
    {
      tasks := tasks[t := tasks[t].(place := Running(worker), waiting := None)];
      workers := workers[worker := Some(t)];
    }

    /** `_execute` gives the current task away: destroyed if it is done, pushed if it
        yielded.  (`TryPermit` has the third way, to suspend.) */
    method Conclude(worker: Slot, done: bool)
      requires Enabled(State(), Yield(worker))
      modifies this
      ensures State() == Next(old(State()), if done then Finish(worker) else Yield(worker))
    {
      var t := workers[worker].value;
      workers := workers[worker := None];
      tasks := tasks[t := tasks[t].(place := Moving)];
      if done {
        DestroyTask(t);
      } else {
        Push(t);
      }
    }

    /** One `pop` of `run_scheduled` and, if it finds a task, its `_execute`, which has
        not `returned` while the task still runs. */
    method Serve(worker: Slot, part: nat) returns (found: bool, returned: bool, ghost steps: seq<Step>)
      requires Inv(State()) && Waits(State(), worker) && part < ctxs[worker.ctx].parts
      modifies this
      ensures Ran(old(State()), steps, State()) && Serving(State(), worker)
      ensures returned <==> Waits(State(), worker)
      ensures ctxs[worker.ctx].parts == old(ctxs)[worker.ctx].parts
      ensures PopsOf(worker, steps) == if found then [part] else []
      ensures !found ==> returned && IsEmpty(State(), Slot(worker.ctx, part))
    {
      hide Inv, Ran, Enabled, Next, PopsOf;
      ghost var w0 := State();
      var others := (step: Step) => OfOthers(step, worker);
      steps := Interfere(others);
      ghost var w1 := State();
      RunKeepsServing(w0, steps, w1, worker);
      RanKeepsInv(w0, steps, w1);
      QueueReady(w1, Slot(worker.ctx, part));
      found, returned := false, true;
      var task := Pop(Slot(worker.ctx, part));
      if task == None {
        return;
      }
      Begin(worker, task.value);
      found := true;
      ghost var w2 := State();
      PopRuns(w1, worker, part, w2);
      RunAppends(w0, steps, w1, [SchedulerModel.Pop(worker, part)], w2);
      PopsAppend(worker, steps, [SchedulerModel.Pop(worker, part)]);
      steps := steps + [SchedulerModel.Pop(worker, part)];
      RanKeepsInv(w0, steps, w2);
      ghost var more := Interfere(others);
      ghost var w3 := State();
      RunKeepsServing(w2, more, w3, worker);
      PopsAppend(worker, steps, more);
      RunAppends(w0, steps, w2, more, w3);
      steps := steps + more;
      returned := workers[worker] == None;
    }

    /** The first loop of `run_scheduled`: the worker's own queue. */
    method ServeOwn(worker: Slot, batch: nat) returns (returned: bool, count: nat, ghost steps: seq<Step>)
      requires Inv(State()) && Waits(State(), worker)
      modifies this
      ensures Ran(old(State()), steps, State()) && Inv(State()) && (returned <==> Waits(State(), worker))
      ensures count <= batch && PopsOf(worker, steps) == Repeat(worker.part, count)
      ensures returned ==> ctxs[worker.ctx].parts == old(ctxs)[worker.ctx].parts
      ensures returned && count < batch ==> IsEmpty(State(), worker)
    {
      hide Inv, Ran, Enabled, Next, PopsOf;
      ghost var w0 := State();
      EmptyRun(w0);
      EmptyPops(worker);
      count, steps, returned := 0, [], true;
      while count < batch
        invariant Inv(State()) && Ran(w0, steps, State()) && Waits(State(), worker)
        invariant count <= batch && returned && ctxs[worker.ctx].parts == old(ctxs)[worker.ctx].parts
        invariant PopsOf(worker, steps) == Repeat(worker.part, count)
      {
        ghost var w := State();
        var found;
        ghost var more;
        found, returned, more := Serve(worker, worker.part);
        RanKeepsInv(w, more, State());
        RunAppends(w0, steps, w, more, State());
        PopsAppend(worker, steps, more);
        steps := steps + more;
        if !found {
          return;
        }
        count := count + 1;
        if !returned {
          return;
        }
      }
    }

    /** Its second loop: one task from each partition in turn, beginning with its own. */
    method Steal(worker: Slot, batch: nat) returns (returned: bool, stolen: seq<nat>, ghost steps: seq<Step>)
      requires Inv(State()) && Waits(State(), worker) && batch > 0
      modifies this
      ensures Ran(old(State()), steps, State()) && (returned <==> Waits(State(), worker))
      ensures |stolen| <= batch && Ascending(stolen, old(ctxs)[worker.ctx].parts)
      ensures PopsOf(worker, steps) == Partitions(worker.part, stolen, old(ctxs)[worker.ctx].parts)
      ensures SkippedEmpty(old(State()), steps, worker, stolen, old(ctxs)[worker.ctx].parts,
                           Tried(returned && |stolen| < batch, stolen, old(ctxs)[worker.ctx].parts))
    {
      hide Inv, Ran, Enabled, Next, PopsOf, Partitions, Repeat, Around, SeenEmpty, IsEmpty, SkippedEmpty, Ascending;
      ghost var w0 := State();
      var n := ctxs[worker.ctx].parts;
      NoPartitions(worker.part, n);
      EmptyRun(w0);
      EmptyPops(worker);
      NothingSkipped(w0, worker, n);
      NothingStolen();
      stolen, steps, returned := [], [], true;
      var i := 0;
      while i < n
        invariant 0 <= i <= n && Inv(State()) && Ran(w0, steps, State()) && Waits(State(), worker)
        invariant |stolen| < batch && returned && ctxs[worker.ctx].parts == n
        invariant PopsOf(worker, steps) == Partitions(worker.part, stolen, n)
        invariant Ascending(stolen, i)
        invariant SkippedEmpty(w0, steps, worker, stolen, n, i)
      {
        ghost var w := State();
        var found;
        ghost var more;
        found, returned, more := Serve(worker, Around(worker.part, i, n));
        RanKeepsInv(w, more, State());
        RunAppends(w0, steps, w, more, State());
        PopsAppend(worker, steps, more);
        SkipsGrow(w0, steps, more, worker, stolen, n, i);
        steps := steps + more;
        if found {
          PartitionsAppend(worker.part, stolen, i, n);
          SkipsServed(w0, steps, worker, stolen, n, i);
          StolenNext(stolen, i, n);
          stolen := stolen + [i];
          if !returned || |stolen| == batch {
            return;
          }
        } else {
          SkipsEmpty(w0, steps, State(), worker, stolen, n, i);
          StolenWithin(stolen, i, i + 1);
        }
        i := i + 1;
      }
    }

    /** `run_scheduled`: at most `batch` tasks, `own` of them from the worker's own
        queue and then at most one from each partition in turn, at the distances
        `stolen` from its own.  It turns to the others, after `turn` steps, only when its
        own queue is empty, and passes over a partition only when that is empty. */
    method RunScheduled(worker: Slot, batch: nat)
      returns (returned: bool, count: nat, own: nat, stolen: seq<nat>, ghost steps: seq<Step>, ghost turn: nat)
      requires Inv(State()) && Waits(State(), worker)
      modifies this
      ensures Ran(old(State()), steps, State()) && (returned <==> Waits(State(), worker))
      ensures count == own + |stolen| <= batch && Ascending(stolen, old(ctxs)[worker.ctx].parts)
      ensures PopsOf(worker, steps) == Repeat(worker.part, own) + Partitions(worker.part, stolen, old(ctxs)[worker.ctx].parts)
      ensures turn <= |steps| && PopsOf(worker, steps[..turn]) == Repeat(worker.part, own)
      ensures stolen != [] || (returned && count < batch) ==>
        && EmptyAfter(old(State()), steps[..turn], worker)
        && SkippedEmpty(old(State()), steps, worker, stolen, old(ctxs)[worker.ctx].parts,
                        Tried(returned && count < batch, stolen, old(ctxs)[worker.ctx].parts))
    {
      hide Inv, Ran, Enabled, Next, PopsOf, SeenEmpty, IsEmpty, SkippedEmpty, EmptyAfter;
      ghost var w0 := State();
      returned, own, steps := ServeOwn(worker, batch);
      count, stolen, turn := own, [], |steps|;
      assert steps[..turn] == steps;
      if !returned || count == batch {
        return;
      }
      ghost var w1 := State();
      EmptyNow(w0, steps, w1, worker);
      ghost var more;
      returned, stolen, more := Steal(worker, batch - count);
      RunAppends(w0, steps, w1, more, State());
      PopsAppend(worker, steps, more);
      SkipsShift(w0, steps, w1, more, worker, stolen, old(ctxs)[worker.ctx].parts,
                 Tried(returned && |stolen| < batch - count, stolen, old(ctxs)[worker.ctx].parts));
      assert (steps + more)[..turn] == steps;
      steps := steps + more;
      count := count + |stolen|;
    }
  }

  // ---------- runs ----------

  /** The steps lead from one state that satisfies the invariant to another. */
  ghost predicate Ran(w: Sys, steps: seq<Step>, v: Sys) {
    Inv(w) && Inv(v) && Valid(w, steps) && Execute(w, steps) == v
  }

  lemma EmptyRun(w: Sys)
    requires Inv(w)
    ensures Ran(w, [], w)
  {
    hide Inv;
  }

  lemma SingleRun(w: Sys, step: Step)
    requires Inv(w) && Enabled(w, step)
    ensures Ran(w, [step], Next(w, step))
  {
    hide Inv, Enabled, Next;
    NextKeepsInv(w, step);
    OneStep(w, step);
  }

  lemma RunAppends(w: Sys, first: seq<Step>, u: Sys, second: seq<Step>, v: Sys)
    requires Ran(w, first, u) && Ran(u, second, v)
    ensures Ran(w, first + second, v)
  {
    hide Inv, Valid, Execute;
    ValidConcat(w, first, second);
  }

  lemma RunGrows(w: Sys, steps: seq<Step>, u: Sys, step: Step)
    requires Ran(w, steps, u) && Enabled(u, step)
    ensures Ran(w, steps + [step], Next(u, step))
  {
    hide Inv, Enabled, Next, Ran;
    RanKeepsInv(w, steps, u);
    SingleRun(u, step);
    RunAppends(w, steps, u, [step], Next(u, step));
  }

  lemma RanKeepsInv(w: Sys, steps: seq<Step>, v: Sys)
    requires Ran(w, steps, v)
    ensures Inv(w) && Inv(v)
  {
    hide Inv;
  }

  // ---------- what one task does in a run ----------

  /** The step is one that the task takes itself, on the worker that runs it. */
  predicate IsOwn(w: Sys, step: Step, t: nat) {
    && (step.Yield? || step.Finish? || step.Acquire? || step.Retry? || step.Attempt?)
    && step.worker in w.workers && w.workers[step.worker] == Some(t)
  }

  /** One of its steps, and whether it was granted a permit. */
  datatype Act = Act(step: Step, granted: bool)

  predicate Grants(w: Sys, step: Step)
    requires Enabled(w, step)
  {
    step.Attempt? && w.sems[w.tasks[Current(w, step.worker)].holds.value].vacant > 0
  }

  function ActOf(w: Sys, step: Step, t: nat): seq<Act>
    requires Enabled(w, step)
  {
    if IsOwn(w, step, t) then [Act(step, Grants(w, step))] else []
  }

  /** All that the task does in the run, in order. */
  function ActsOf(w: Sys, steps: seq<Step>, t: nat): seq<Act>
    requires Valid(w, steps)
    decreases |steps|
  {
    if steps == [] then [] else ActOf(w, steps[0], t) + ActsOf(Next(w, steps[0]), steps[1..], t)
  }

  ghost predicate ActedAs(w: Sys, steps: seq<Step>, t: nat, acts: seq<Act>) {
    Valid(w, steps) && ActsOf(w, steps, t) == acts
  }

  lemma NothingDone(w: Sys)
    ensures forall t :: ActedAs(w, [], t, [])
  {
  }

  lemma ActsCons(w: Sys, steps: seq<Step>, t: nat)
    requires Valid(w, steps) && steps != []
    ensures Enabled(w, steps[0]) && Valid(Next(w, steps[0]), steps[1..])
    ensures ActsOf(w, steps, t) == ActOf(w, steps[0], t) + ActsOf(Next(w, steps[0]), steps[1..], t)
    ensures Execute(w, steps) == Execute(Next(w, steps[0]), steps[1..])
  {
    hide Enabled, Next, ActOf;
  }

  lemma NoActs(w: Sys, t: nat)
    ensures Valid(w, []) && Execute(w, []) == w && ActsOf(w, [], t) == []
  {
  }

  lemma {:induction false} ActsAppend(w: Sys, first: seq<Step>, u: Sys, second: seq<Step>, t: nat)
    requires Valid(w, first) && Execute(w, first) == u && Valid(u, second)
    ensures Valid(w, first + second) && ActsOf(w, first + second, t) == ActsOf(w, first, t) + ActsOf(u, second, t)
    decreases |first|
  {
    hide Enabled, Next, ActOf, Valid, Execute, ActsOf;
    ValidConcat(w, first, second);
    if first == [] {
      assert first + second == second;
      NoActs(w, t);
    } else {
      ActsCons(w, first, t);
      ActsCons(w, first + second, t);
      assert (first + second)[1..] == first[1..] + second && (first + second)[0] == first[0];
      ActsAppend(Next(w, first[0]), first[1..], u, second, t);
    }
  }

  lemma ActsOfOne(w: Sys, step: Step, t: nat)
    requires Enabled(w, step)
    ensures Valid(w, [step]) && ActsOf(w, [step], t) == ActOf(w, step, t)
  {
    hide Enabled, Next, ActOf;
    OneStep(w, step);
    assert [step][1..] == [];
    assert ActsOf(w, [step], t) == ActOf(w, step, t) + ActsOf(Next(w, step), [], t);
  }

  lemma AnothersStep(w: Sys, steps: seq<Step>, u: Sys, step: Step, t: nat)
    requires Ran(w, steps, u) && Enabled(u, step) && !IsOwn(u, step, t) && ActedAs(w, steps, t, [])
    ensures ActedAs(w, steps + [step], t, [])
  {
    hide Inv, Enabled, Next, Valid, Execute, ActsOf, IsOwn, Grants;
    ActsOfOne(u, step, t);
    ActsAppend(w, steps, u, [step], t);
  }

  lemma OthersAct(w: Sys, steps: seq<Step>, u: Sys, more: seq<Step>, v: Sys, t: nat, acts: seq<Act>)
    requires Ran(w, steps, u) && Ran(u, more, v) && ActedAs(w, steps, t, acts) && ActedAs(u, more, t, [])
    ensures ActedAs(w, steps + more, t, acts)
  {
    hide Inv, Valid, Execute, ActsOf;
    ActsAppend(w, steps, u, more, t);
  }

  lemma StepActs(w: Sys, steps: seq<Step>, u: Sys, step: Step, t: nat, acts: seq<Act>)
    requires Ran(w, steps, u) && Enabled(u, step) && ActedAs(w, steps, t, acts)
    ensures ActedAs(w, steps + [step], t, acts + ActOf(u, step, t))
  {
    hide Inv, Enabled, Next, Valid, Execute, ActsOf, ActOf;
    ActsOfOne(u, step, t);
    ActsAppend(w, steps, u, [step], t);
  }

  lemma FirstLock(w: Sys, worker: Slot, s: nat, t: nat)
    requires Enabled(w, Acquire(worker, s)) && Current(w, worker) == t
    ensures ActedAs(w, [Acquire(worker, s)], t, [Act(Acquire(worker, s), false)])
    ensures Tries([Act(Acquire(worker, s), false)], worker, s)
  {
    hide Next, Valid, ActsOf;
    ActsOfOne(w, Acquire(worker, s), t);
  }

  lemma AttemptActs(w: Sys, steps: seq<Step>, u: Sys, at: Slot, s: nat, t: nat, acts: seq<Act>)
    requires Ran(w, steps, u) && Enabled(u, Attempt(at)) && Current(u, at) == t && ActedAs(w, steps, t, acts)
    requires u.tasks[t].holds == Some(s) && s < |u.sems|
    ensures ActedAs(w, steps + [Attempt(at)], t, acts + [Act(Attempt(at), u.sems[s].vacant > 0)])
  {
    hide Ran, Next, ActedAs;
    StepActs(w, steps, u, Attempt(at), t, acts);
  }

  lemma RetryActs(w: Sys, steps: seq<Step>, u: Sys, at: Slot, s: nat, t: nat, acts: seq<Act>)
    requires Ran(w, steps, u) && Enabled(u, Retry(at)) && Current(u, at) == t && ActedAs(w, steps, t, acts)
    ensures ActedAs(w, steps + [Retry(at)], t, acts + [Act(Retry(at), false)])
  {
    hide Ran, Next, ActedAs;
    StepActs(w, steps, u, Retry(at), t, acts);
  }

  /** The task locks the semaphore, and then tries and locks in turn, in vain. */
  predicate Tries(acts: seq<Act>, worker: Slot, s: nat) {
    && acts != [] && acts[0] == Act(Acquire(worker, s), false)
    && (forall i | 0 < i < |acts| :: if i % 2 == 1 then acts[i].step.Attempt? else acts[i].step.Retry?)
    && (forall i | 0 <= i < |acts| :: !acts[i].granted)
  }

  /** It does so until a try is granted, which is then its last step. */
  predicate TriesUntilGranted(acts: seq<Act>, worker: Slot, s: nat, granted: bool) {
    if granted then
      && acts != [] && Tries(acts[..|acts| - 1], worker, s) && |acts| % 2 == 0
      && acts[|acts| - 1].step.Attempt? && acts[|acts| - 1].granted
    else Tries(acts, worker, s)
  }

  lemma TriesGrow(acts: seq<Act>, worker: Slot, s: nat, step: Step)
    requires Tries(acts, worker, s) && (if |acts| % 2 == 1 then step.Attempt? else step.Retry?)
    ensures Tries(acts + [Act(step, false)], worker, s)
  {
  }

  lemma GrantEnds(acts: seq<Act>, worker: Slot, s: nat, at: Slot)
    requires Tries(acts, worker, s) && |acts| % 2 == 1
    ensures TriesUntilGranted(acts + [Act(Attempt(at), true)], worker, s, true)
  {
    hide Tries;
    assert (acts + [Act(Attempt(at), true)])[..|acts|] == acts;
  }

  lemma NotGranted(acts: seq<Act>, worker: Slot, s: nat)
    requires Tries(acts, worker, s)
    ensures TriesUntilGranted(acts, worker, s, false)
  {
  }

  /** The task is suspended inside `aquire`, or it is no more. */
  predicate IsSuspended(w: Sys, s: nat, t: nat) {
    t < |w.tasks| && (w.tasks[t].resume == Some(s) || w.tasks[t].place == Destroyed)
  }

  lemma SuspendedStill(w: Sys, at: Slot, s: nat, t: nat)
    requires Enabled(w, Attempt(at)) && Current(w, at) == t && w.tasks[t].holds == Some(s) && w.sems[s].vacant == 0
    ensures IsSuspended(Next(w, Attempt(at)), s, t)
  {
  }

  lemma WakeKeepsResume(w: Sys, r: nat, t: nat)
    requires r < |w.sems| && t < |w.tasks| && Loose(w)
    ensures w.sems[r].blocked != [] ==> TaskOk(w, w.sems[r].blocked[0])
    ensures t < |Wake(w, r).tasks| && Wake(w, r).tasks[t].resume == w.tasks[t].resume
    ensures w.tasks[t].place == Destroyed ==> Wake(w, r).tasks[t].place == Destroyed
  {
    hide SlotsOk, TasksOk, QueuesOk, WorkersOk, BlockedOk, PoolsOk, IndexOk, IdsUnique, SemsOk;
    if w.sems[r].blocked != [] {
      HeadIsBlocked(w, r);
    }
  }

  lemma RemovalKeepsSuspended(w: Sys, u: nat, s: nat, t: nat)
    requires Inv(w) && Enabled(w, Remove(u)) && IsSuspended(w, s, t)
    ensures IsSuspended(Next(w, Remove(u)), s, t)
  {
    hide SlotsOk, TasksOk, QueuesOk, WorkersOk, RestOk, Wake;
    var r := w.tasks[u].waiting.value;
    WaitingIsQueuedOrBlocked(w, u);
    DestroyKeeps(w, r, u);
    WakeKeepsResume(Destroy(w, r, u), r, t);
  }

  lemma NotifyKeepsSuspended(w: Sys, r: nat, s: nat, t: nat)
    requires Inv(w) && Enabled(w, Notify(r)) && IsSuspended(w, s, t)
    ensures IsSuspended(Next(w, Notify(r)), s, t)
  {
    hide Inv, Loose, Wake;
    InvIsLoose(w);
    WakeKeepsResume(w, r, t);
  }

  lemma PopKeepsSuspended(w: Sys, step: Step, s: nat, t: nat)
    requires Inv(w) && Enabled(w, step) && step.Pop? && IsSuspended(w, s, t)
    ensures IsSuspended(Next(w, step), s, t)
  {
    hide Inv;
    QueuedFirst(w, Slot(step.worker.ctx, step.part));
  }

  lemma QueuedFirst(w: Sys, slot: Slot)
    requires Inv(w) && slot in w.queues && w.queues[slot] != []
    ensures QueuedAt(w, w.queues[slot][0], slot)
  {
    HeadIsQueued(w, slot);
  }

  lemma AnothersStepKeepsTask(w: Sys, step: Step, t: nat)
    requires Enabled(w, step) && t < |w.tasks| && !IsOwn(w, step, t)
    requires step.Yield? || step.Finish? || step.Acquire? || step.Retry? || step.Attempt?
    ensures t < |Next(w, step).tasks| && Next(w, step).tasks[t] == w.tasks[t]
  {
    hide Push, Retire;
    match step
    case Yield(other) => PushLeavesOthers(Leave(w, other, Current(w, other)), Current(w, other));
    case Finish(other) => RetireLeavesOthers(Leave(w, other, Current(w, other)), Current(w, other));
    case _ =>
  }

  lemma OtherStepKeepsTask(w: Sys, step: Step, t: nat)
    requires Enabled(w, step) && t < |w.tasks|
    requires step.NewContext? || step.NewSemaphore? || step.Spawn? || step.Release? || step.Stop?
    ensures t < |Next(w, step).tasks| && Next(w, step).tasks[t] == w.tasks[t]
  {
  }

  /** Whatever others do, a suspended task stays in its call until it is destroyed. */
  lemma StepKeepsSuspended(w: Sys, step: Step, s: nat, t: nat)
    requires Inv(w) && Enabled(w, step) && !IsOwn(w, step, t) && IsSuspended(w, s, t)
    ensures IsSuspended(Next(w, step), s, t)
  {
    hide Inv, Enabled, Next, IsOwn;
    match step
    case Remove(u) => RemovalKeepsSuspended(w, u, s, t);
    case Notify(r) => NotifyKeepsSuspended(w, r, s, t);
    case Pop(_, _) => PopKeepsSuspended(w, step, s, t);
    case Yield(_) => AnothersStepKeepsTask(w, step, t);
    case Finish(_) => AnothersStepKeepsTask(w, step, t);
    case Acquire(_, _) => AnothersStepKeepsTask(w, step, t);
    case Retry(_) => AnothersStepKeepsTask(w, step, t);
    case Attempt(_) => AnothersStepKeepsTask(w, step, t);
    case _ => OtherStepKeepsTask(w, step, t);
  }

  lemma {:induction false} StepsKeepSuspended(w: Sys, steps: seq<Step>, s: nat, t: nat)
    requires Inv(w) && ActedAs(w, steps, t, []) && IsSuspended(w, s, t)
    ensures Valid(w, steps) && IsSuspended(Execute(w, steps), s, t)
    decreases |steps|
  {
    hide Inv, Enabled, Next, IsSuspended, IsOwn, Grants;
    if steps != [] {
      assert ActsOf(w, steps, t) == ActOf(w, steps[0], t) + ActsOf(Next(w, steps[0]), steps[1..], t);
      assert !IsOwn(w, steps[0], t);
      NextKeepsInv(w, steps[0]);
      StepKeepsSuspended(w, steps[0], s, t);
      StepsKeepSuspended(Next(w, steps[0]), steps[1..], s, t);
    }
  }

  lemma RunKeepsSuspended(w: Sys, steps: seq<Step>, v: Sys, s: nat, t: nat)
    requires Ran(w, steps, v) && ActedAs(w, steps, t, []) && IsSuspended(w, s, t)
    ensures IsSuspended(v, s, t)
  {
    hide Inv, Valid, Execute, ActsOf;
    StepsKeepSuspended(w, steps, s, t);
  }

  // ---------- release ----------

  lemma ReleaseRuns(w: Sys, s: nat, v: Sys)
    requires Inv(w) && s < |w.sems| && w.sems[s].mtx == Free && v == AddPermit(w, s)
    ensures Ran(w, [Release(s)], v)
  {
    hide Inv, Ran, AddPermit;
    SingleRun(w, Release(s));
  }

  lemma NotifyRuns(w: Sys, s: nat, v: Sys)
    requires Inv(w) && Enabled(w, Notify(s)) && v == NotifyOne(w, s)
    ensures Ran(w, [Notify(s)], v)
  {
    hide Inv, Ran, NotifyOne;
    SingleRun(w, Notify(s));
  }

  lemma NotifyEnabled(w: Sys, s: nat)
    requires Inv(w) && s < |w.sems| && w.sems[s].mtx == ByReleaser
    ensures Enabled(w, Notify(s))
  {
    hide Inv;
    BlockedAreTasks(w, s);
  }

  /** Only the thread that releases gives its lock back. */
  lemma StepLeavesReleaser(w: Sys, step: Step, s: nat)
    requires Inv(w) && Enabled(w, step) && step != Notify(s) && s < |w.sems| && w.sems[s].mtx == ByReleaser
    ensures s < |Next(w, step).sems| && Next(w, step).sems[s].mtx == ByReleaser
  {
    hide Inv, Next;
    NextFollows(w, step, s);
    StepCanChange(w, step, s);
  }

  lemma {:induction false} LockStaysWithReleaser(w: Sys, steps: seq<Step>, s: nat)
    requires Inv(w) && Valid(w, steps) && s < |w.sems| && w.sems[s].mtx == ByReleaser
    requires forall i | 0 <= i < |steps| :: steps[i] != Notify(s)
    ensures var v := Execute(w, steps); s < |v.sems| && v.sems[s].mtx == ByReleaser
    decreases |steps|
  {
    if steps != [] {
      hide Inv, Enabled, Next;
      NextKeepsInv(w, steps[0]);
      StepLeavesReleaser(w, steps[0], s);
      LockStaysWithReleaser(Next(w, steps[0]), steps[1..], s);
    }
  }

  // ---------- final_schedule ----------

  /** The first `i` tasks of the pool have been seen to.  The pool holds every task of
      the partition that is left. */
  ghost predicate DrainedUpTo(w: Sys, slot: Slot, pool: seq<nat>, i: nat) {
    && StoppedAt(w, slot.ctx) && i <= |pool|
    && (forall t | t in pool :: t < |w.tasks| && w.tasks[t].home == slot)
    && (forall t: nat | Unfinished(w, t) && w.tasks[t].home == slot ::
          t in pool && (t in pool[..i] ==> w.tasks[t].waiting == None))
  }

  lemma PoolHoldsAll(w: Sys, slot: Slot)
    requires Inv(w) && slot in w.pools && StoppedAt(w, slot.ctx)
    ensures DrainedUpTo(w, slot, w.pools[slot], 0)
  {
    assert PoolExact(w, slot, w.pools[slot]);
    assert forall t: nat :: t in w.pools[slot] <==> PooledAt(w, t, slot);
  }

  lemma AllDrained(w: Sys, slot: Slot, pool: seq<nat>)
    requires DrainedUpTo(w, slot, pool, |pool|)
    ensures Drained(w, slot)
  {
    assert pool[..|pool|] == pool;
  }

  lemma PooledIsOfStopped(w: Sys, slot: Slot, pool: seq<nat>, i: nat)
    requires DrainedUpTo(w, slot, pool, i) && i < |pool|
    ensures OfStopped(w, pool[i])
  {
    assert pool[i] in pool;
  }

  lemma SkippedIsDrained(w: Sys, slot: Slot, pool: seq<nat>, i: nat)
    requires DrainedUpTo(w, slot, pool, i) && i < |pool| && OfStopped(w, pool[i])
    requires w.tasks[pool[i]].waiting == None || !Unfinished(w, pool[i])
    ensures DrainedUpTo(w, slot, pool, i + 1)
  {
    assert pool[..i + 1] == pool[..i] + [pool[i]];
  }

  lemma StepKeepsDrained(w: Sys, step: Step, slot: Slot, pool: seq<nat>, i: nat)
    requires Inv(w) && Enabled(w, step) && DrainedUpTo(w, slot, pool, i)
    ensures DrainedUpTo(Next(w, step), slot, pool, i)
  {
    hide Inv, Enabled, Next;
    var v := Next(w, step);
    StopIsForEver(w, step, slot.ctx);
    HomesAreFixed(w, step);
    forall t: nat | Unfinished(v, t) && v.tasks[t].home == slot
      ensures t in pool && (t in pool[..i] ==> v.tasks[t].waiting == None)
    {
      if t < |w.tasks| {
        NextFreezes(w, step, t);
        assert Unfinished(w, t);
      } else {
        SpawnedIsLive(w, step, t);
      }
    }
  }

  lemma {:induction false} StepsKeepDrained(w: Sys, steps: seq<Step>, slot: Slot, pool: seq<nat>, i: nat)
    requires Inv(w) && Valid(w, steps) && DrainedUpTo(w, slot, pool, i)
    ensures DrainedUpTo(Execute(w, steps), slot, pool, i)
    decreases |steps|
  {
    hide Inv, Enabled, Next, DrainedUpTo;
    if steps != [] {
      NextKeepsInv(w, steps[0]);
      StepKeepsDrained(w, steps[0], slot, pool, i);
      StepsKeepDrained(Next(w, steps[0]), steps[1..], slot, pool, i);
    }
  }

  lemma RunKeepsDrained(w: Sys, steps: seq<Step>, v: Sys, slot: Slot, pool: seq<nat>, i: nat)
    requires Ran(w, steps, v) && DrainedUpTo(w, slot, pool, i)
    ensures DrainedUpTo(v, slot, pool, i)
  {
    hide Inv, Valid, Execute, DrainedUpTo;
    StepsKeepDrained(w, steps, slot, pool, i);
  }

  lemma {:induction false} StepsKeepWaiting(w: Sys, steps: seq<Step>, t: nat)
    requires Inv(w) && Valid(w, steps) && OfStopped(w, t) && Remove(t) !in steps
    ensures OfStopped(Execute(w, steps), t) && Execute(w, steps).tasks[t].waiting == w.tasks[t].waiting
    decreases |steps|
  {
    hide Inv, Enabled, Next;
    if steps != [] {
      NextKeepsInv(w, steps[0]);
      NextFreezes(w, steps[0], t);
      StepsKeepWaiting(Next(w, steps[0]), steps[1..], t);
    }
  }

  lemma RunKeepsWaiting(w: Sys, steps: seq<Step>, v: Sys, t: nat)
    requires Ran(w, steps, v) && OfStopped(w, t) && Remove(t) !in steps
    ensures OfStopped(v, t) && v.tasks[t].waiting == w.tasks[t].waiting
  {
    hide Inv, Valid, Execute;
    StepsKeepWaiting(w, steps, t);
  }

  lemma WaitingIsRemovable(w: Sys, t: nat)
    requires Inv(w) && OfStopped(w, t) && w.tasks[t].waiting.Some?
    ensures Enabled(w, Remove(t))
  {
    hide Inv;
    WaitingIsQueuedOrBlocked(w, t);
    InvHasHome(w, t);
    BlockedAreTasks(w, w.tasks[t].waiting.value);
  }

  lemma InvHasHome(w: Sys, t: nat)
    requires Inv(w) && t < |w.tasks|
    ensures TaskOk(w, t)
  {
    TaskHasHome(w, t);
  }

  lemma RemovedIsDrained(w: Sys, slot: Slot, pool: seq<nat>, i: nat)
    requires Inv(w) && DrainedUpTo(w, slot, pool, i) && i < |pool| && Enabled(w, Remove(pool[i]))
    ensures DrainedUpTo(Next(w, Remove(pool[i])), slot, pool, i + 1)
  {
    hide Inv, Enabled, Next;
    var v := Next(w, Remove(pool[i]));
    PooledIsOfStopped(w, slot, pool, i);
    StepKeepsDrained(w, Remove(pool[i]), slot, pool, i);
    NextFreezes(w, Remove(pool[i]), pool[i]);
    PooledIsOfStopped(v, slot, pool, i);
    SkippedIsDrained(v, slot, pool, i);
  }

  // ---------- aquire ----------

  /** The task runs on the worker, inside the critical section of the semaphore. */
  ghost predicate HoldsLock(w: Sys, worker: Slot, s: nat, t: nat) {
    && s < |w.sems| && t < |w.tasks| && Runs(w, worker) && Current(w, worker) == t
    && w.tasks[t].holds == Some(s)
  }

  /** The run ends with a permit granted to the task. */
  ghost predicate GrantedLast(w: Sys, steps: seq<Step>, before: Sys, at: Slot, s: nat, t: nat) {
    && steps != [] && steps[|steps| - 1] == Attempt(at) && Ran(w, steps[..|steps| - 1], before)
    && Enabled(before, Attempt(at)) && Current(before, at) == t && s < |before.sems|
    && ChangeOf(before, Attempt(at), s) == Granted
  }

  lemma HasCurrent(w: Sys, worker: Slot, s: nat)
    requires Enabled(w, Acquire(worker, s))
    ensures Runs(w, worker) && s < |w.sems| && w.sems[s].mtx == Free && w.tasks[Current(w, worker)].holds == None
    ensures w.tasks[Current(w, worker)].resume == None
  {
  }

  lemma AcquireRuns(w: Sys, worker: Slot, s: nat, v: Sys)
    requires Inv(w) && Enabled(w, Acquire(worker, s)) && Runs(w, worker) && s < |w.sems|
    requires v == LockSem(w, s, Current(w, worker))
    ensures Ran(w, [Acquire(worker, s)], v) && HoldsLock(v, worker, s, Current(w, worker))
  {
    hide Inv, Ran;
    SingleRun(w, Acquire(worker, s));
  }

  /** The task runs on the worker, woken, and the semaphore's lock is free. */
  ghost predicate MayRetry(w: Sys, worker: Slot, s: nat, t: nat) {
    && s < |w.sems| && t < |w.tasks| && Runs(w, worker) && Current(w, worker) == t
    && w.tasks[t].resume == Some(s) && w.sems[s].mtx == Free
  }

  lemma RetryReady(w: Sys, worker: Slot, s: nat, t: nat)
    requires Inv(w) && s < |w.sems| && t < |w.tasks| && w.tasks[t].place == Running(worker)
    requires w.tasks[t].resume == Some(s) && w.sems[s].mtx == Free
    ensures MayRetry(w, worker, s, t)
  {
    hide Inv;
    RunningIsCurrent(w, t);
  }

  lemma RetryRuns(w: Sys, worker: Slot, s: nat, t: nat, v: Sys)
    requires Inv(w) && MayRetry(w, worker, s, t) && v == LockSem(w, s, t)
    ensures Enabled(w, Retry(worker)) && Current(w, worker) == t
    ensures Ran(w, [Retry(worker)], v) && HoldsLock(v, worker, s, t)
  {
    hide Inv, Ran;
    SingleRun(w, Retry(worker));
  }

  lemma AttemptReady(w: Sys, worker: Slot, s: nat, t: nat)
    requires HoldsLock(w, worker, s, t)
    ensures Enabled(w, Attempt(worker)) && Current(w, worker) == t && s < |w.sems| && w.tasks[t].holds == Some(s)
  {
  }

  lemma GrantIsLast(w0: Sys, steps: seq<Step>, w: Sys, worker: Slot, s: nat, t: nat)
    requires Ran(w0, steps, w) && HoldsLock(w, worker, s, t) && w.sems[s].vacant > 0
    ensures GrantedLast(w0, steps + [Attempt(worker)], w, worker, s, t)
  {
    hide Ran;
    assert (steps + [Attempt(worker)])[..|steps|] == steps;
  }

  lemma OthersRunOthers(w: Sys, worker: Slot, s: nat, t: nat, other: Slot)
    requires Inv(w) && HoldsLock(w, worker, s, t) && Runs(w, other) && Current(w, other) == t
    ensures other == worker && w.tasks[t].resume == None
  {
    CurrentIsRunning(w, worker);
    CurrentIsRunning(w, other);
  }

  lemma PoppedIsAnother(w: Sys, worker: Slot, s: nat, t: nat, slot: Slot)
    requires slot in w.queues && w.queues[slot] != [] && Inv(w) && HoldsLock(w, worker, s, t)
    ensures w.queues[slot][0] != t
  {
    CurrentIsRunning(w, worker);
    HeadIsQueued(w, slot);
  }

  /** A task taken from a blocked list, or removed, is another one. */
  lemma RemovalKeepsLock(w: Sys, u: nat, worker: Slot, s: nat, t: nat)
    requires Enabled(w, Remove(u)) && HoldsLock(w, worker, s, t)
    ensures HoldsLock(Next(w, Remove(u)), worker, s, t)
  {
    hide Enabled, Next;
    RemoveFrame(w, u);
  }

  lemma NotifyKeepsLock(w: Sys, r: nat, worker: Slot, s: nat, t: nat)
    requires Enabled(w, Notify(r)) && HoldsLock(w, worker, s, t)
    ensures HoldsLock(Next(w, Notify(r)), worker, s, t)
  {
    hide Wake;
    WakeFrame(w, r);
  }

  /** While a task is in a critical section nobody else moves it. */
  lemma PopKeepsLock(w: Sys, step: Step, worker: Slot, s: nat, t: nat)
    requires Inv(w) && Enabled(w, step) && step.Pop? && HoldsLock(w, worker, s, t)
    ensures HoldsLock(Next(w, step), worker, s, t)
  {
    hide Inv;
    PoppedIsAnother(w, worker, s, t, Slot(step.worker.ctx, step.part));
  }

  lemma OtherStepKeepsLock(w: Sys, step: Step, worker: Slot, s: nat, t: nat)
    requires Enabled(w, step) && HoldsLock(w, worker, s, t)
    requires step.NewContext? || step.NewSemaphore? || step.Spawn? || step.Release? || step.Stop?
    ensures HoldsLock(Next(w, step), worker, s, t)
  {
  }

  lemma StepKeepsLock(w: Sys, step: Step, worker: Slot, s: nat, t: nat)
    requires Inv(w) && Enabled(w, step) && step != Attempt(worker) && HoldsLock(w, worker, s, t)
    ensures HoldsLock(Next(w, step), worker, s, t)
  {
    hide Inv, Enabled, Next, HoldsLock;
    match step
    case Remove(u) => RemovalKeepsLock(w, u, worker, s, t);
    case Notify(r) => NotifyKeepsLock(w, r, worker, s, t);
    case Pop(_, _) => PopKeepsLock(w, step, worker, s, t);
    case Yield(_) => WorkerStepKeepsLock(w, step, worker, s, t);
    case Finish(_) => WorkerStepKeepsLock(w, step, worker, s, t);
    case Acquire(_, _) => WorkerStepKeepsLock(w, step, worker, s, t);
    case Retry(_) => WorkerStepKeepsLock(w, step, worker, s, t);
    case Attempt(_) => WorkerStepKeepsLock(w, step, worker, s, t);
    case _ => OtherStepKeepsLock(w, step, worker, s, t);
  }

  lemma AnothersStepKeepsLock(w: Sys, step: Step, worker: Slot, s: nat, t: nat)
    requires Enabled(w, step) && HoldsLock(w, worker, s, t)
    requires step.Yield? || step.Finish? || step.Acquire? || step.Retry? || step.Attempt?
    requires Current(w, step.worker) != t
    ensures HoldsLock(Next(w, step), worker, s, t)
  {
    hide Push, Retire;
    match step
    case Yield(other) => PushLeavesOthers(Leave(w, other, Current(w, other)), Current(w, other));
    case Finish(other) => RetireLeavesOthers(Leave(w, other, Current(w, other)), Current(w, other));
    case _ =>
  }

  lemma PushLeavesOthers(w: Sys, t: nat)
    requires TaskOk(w, t)
    ensures var v := Push(w, t);
      && v.workers == w.workers && v.ctxs == w.ctxs && v.sems == w.sems
      && v.pools == w.pools && v.index == w.index && v.queues.Keys == w.queues.Keys
      && |v.tasks| == |w.tasks| && forall u | 0 <= u < |w.tasks| && u != t :: v.tasks[u] == w.tasks[u]
  {
  }

  lemma RetireLeavesOthers(w: Sys, t: nat)
    requires TaskOk(w, t)
    ensures var v := Retire(w, t);
      && v.workers == w.workers && v.ctxs == w.ctxs && v.sems == w.sems
      && v.queues == w.queues && v.index.Keys == w.index.Keys && v.pools.Keys == w.pools.Keys
      && |v.tasks| == |w.tasks| && forall u | 0 <= u < |w.tasks| && u != t :: v.tasks[u] == w.tasks[u]
  {
  }

  lemma WorkerStepKeepsLock(w: Sys, step: Step, worker: Slot, s: nat, t: nat)
    requires Inv(w) && Enabled(w, step) && step != Attempt(worker) && HoldsLock(w, worker, s, t)
    requires step.Yield? || step.Finish? || step.Acquire? || step.Retry? || step.Attempt?
    ensures HoldsLock(Next(w, step), worker, s, t)
  {
    hide Inv, Next;
    if Current(w, step.worker) == t {
      OthersRunOthers(w, worker, s, t, step.worker);
    }
    AnothersStepKeepsLock(w, step, worker, s, t);
  }

  lemma {:induction false} StepsKeepLock(w: Sys, steps: seq<Step>, worker: Slot, s: nat, t: nat)
    requires Inv(w) && Valid(w, steps) && HoldsLock(w, worker, s, t) && Attempt(worker) !in steps
    ensures HoldsLock(Execute(w, steps), worker, s, t)
    decreases |steps|
  {
    hide Inv, Enabled, Next, HoldsLock;
    if steps != [] {
      NextKeepsInv(w, steps[0]);
      StepKeepsLock(w, steps[0], worker, s, t);
      StepsKeepLock(Next(w, steps[0]), steps[1..], worker, s, t);
    }
  }

  lemma RunKeepsLock(w: Sys, steps: seq<Step>, v: Sys, worker: Slot, s: nat, t: nat)
    requires Ran(w, steps, v) && HoldsLock(w, worker, s, t) && Attempt(worker) !in steps
    ensures HoldsLock(v, worker, s, t)
  {
    hide Inv, Valid, Execute, HoldsLock;
    StepsKeepLock(w, steps, worker, s, t);
  }

  // ---------- run_scheduled ----------

  /** The worker's thread is in `run_scheduled`, its context alive. */
  predicate Serving(w: Sys, worker: Slot) {
    SlotOk(w, worker) && !w.ctxs[worker.ctx].stopped
  }

  /** It is between two tasks. */
  predicate Waits(w: Sys, worker: Slot) {
    Serving(w, worker) && w.workers[worker] == None
  }

  /** The partitions whose queues the worker popped, in order. */
  function PopsOf(worker: Slot, steps: seq<Step>): seq<nat>
  {
    if steps == [] then []
    else (if steps[0].Pop? && steps[0].worker == worker then [steps[0].part] else []) + PopsOf(worker, steps[1..])
  }

  function Repeat(part: nat, times: nat): seq<nat> {
    if times == 0 then [] else Repeat(part, times - 1) + [part]
  }

  function Around(part: nat, distance: nat, n: nat): (p: nat)
    requires n > 0
    ensures p < n
  {
    (part + distance) % n
  }

  /** The partitions at these distances from the worker's own. */
  function Partitions(part: nat, offsets: seq<nat>, n: nat): seq<nat>
    requires n > 0
  {
    if offsets == [] then []
    else Partitions(part, offsets[..|offsets| - 1], n) + [Around(part, offsets[|offsets| - 1], n)]
  }

  lemma PartitionsAppend(part: nat, offsets: seq<nat>, i: nat, n: nat)
    requires n > 0
    ensures Partitions(part, offsets + [i], n) == Partitions(part, offsets, n) + [Around(part, i, n)]
  {
    assert (offsets + [i])[..|offsets|] == offsets;
  }

  lemma NoPartitions(part: nat, n: nat)
    requires n > 0
    ensures Partitions(part, [], n) == []
  {
  }

  predicate Ascending(offsets: seq<nat>, n: nat) {
    && (forall i | 0 <= i < |offsets| :: offsets[i] < n)
    && (forall i, j | 0 <= i < j < |offsets| :: offsets[i] < offsets[j])
  }

  lemma NothingStolen()
    ensures Ascending([], 0)
  {
  }

  lemma StolenWithin(offsets: seq<nat>, i: nat, n: nat)
    requires Ascending(offsets, i) && i <= n
    ensures Ascending(offsets, n)
  {
  }

  lemma StolenNext(offsets: seq<nat>, i: nat, n: nat)
    requires Ascending(offsets, i) && i < n
    ensures Ascending(offsets + [i], i + 1) && Ascending(offsets + [i], n)
  {
  }

  lemma EmptyPops(worker: Slot)
    ensures PopsOf(worker, []) == []
  {
  }

  lemma PopsCons(worker: Slot, steps: seq<Step>)
    requires steps != []
    ensures PopsOf(worker, steps) == PopsOf(worker, [steps[0]]) + PopsOf(worker, steps[1..])
  {
    assert [steps[0]][1..] == [];
  }

  lemma {:induction false} PopsAppend(worker: Slot, first: seq<Step>, second: seq<Step>)
    ensures PopsOf(worker, first + second) == PopsOf(worker, first) + PopsOf(worker, second)
  {
    hide PopsOf;
    EmptyPops(worker);
    if first == [] {
      assert first + second == second;
    } else {
      PopsAppend(worker, first[1..], second);
      assert (first + second)[1..] == first[1..] + second;
      PopsCons(worker, first);
      PopsCons(worker, first + second);
    }
  }

  lemma {:induction false} NoPops(worker: Slot, steps: seq<Step>)
    requires forall i | 0 <= i < |steps| :: !(steps[i].Pop? && steps[i].worker == worker)
    ensures PopsOf(worker, steps) == []
  {
    if steps != [] {
      NoPops(worker, steps[1..]);
    }
  }

  lemma QueueReady(w: Sys, slot: Slot)
    requires Inv(w) && slot.ctx < |w.ctxs| && slot.part < w.ctxs[slot.ctx].parts
    ensures slot in w.queues && (w.queues[slot] != [] ==> TaskOk(w, w.queues[slot][0]) && w.queues[slot][0] < |w.tasks|)
  {
    if w.queues[slot] != [] {
      HeadIsQueued(w, slot);
      TaskHasHome(w, w.queues[slot][0]);
    }
  }

  lemma PopRuns(w: Sys, worker: Slot, part: nat, v: Sys)
    requires Slot(worker.ctx, part) in w.queues && w.queues[Slot(worker.ctx, part)] != []
    requires w.queues[Slot(worker.ctx, part)][0] < |w.tasks|
    requires Waits(w, worker) && part < w.ctxs[worker.ctx].parts
    requires v == Enter(PopFirst(w, Slot(worker.ctx, part)), worker, w.queues[Slot(worker.ctx, part)][0])
    requires Inv(w)
    ensures Ran(w, [Pop(worker, part)], v) && Serving(v, worker) && v.ctxs == w.ctxs
    ensures PopsOf(worker, [Pop(worker, part)]) == [part]
  {
    hide Inv, Ran;
    QueueReady(w, Slot(worker.ctx, part));
    PartsExist(w, worker.ctx, part);
    SingleRun(w, Pop(worker, part));
  }

  lemma PartsExist(w: Sys, c: nat, part: nat)
    requires Inv(w) && c < |w.ctxs| && part < w.ctxs[c].parts
    ensures SlotOk(w, Slot(c, part))
  {
  }

  /** Any step but those that the worker's own thread takes: to pop a task, or to arrive
      at the end barrier, without which the context does not stop. */
  predicate OfOthers(step: Step, worker: Slot) {
    !(step.Pop? && step.worker == worker) && step != Stop(worker.ctx)
  }

  lemma StepKeepsServing(w: Sys, step: Step, worker: Slot)
    requires Inv(w) && Enabled(w, step) && Serving(w, worker) && OfOthers(step, worker)
    ensures Serving(Next(w, step), worker)
    ensures Next(w, step).ctxs[worker.ctx].parts == w.ctxs[worker.ctx].parts
    ensures Waits(w, worker) ==> Waits(Next(w, step), worker)
  {
    hide Inv, Wake, Teardown;
    match step
    case Remove(t) => RemoveFrame(w, t);
    case Notify(s) => WakeFrame(w, s);
    case _ =>
  }

  lemma {:induction false} StepsKeepServing(w: Sys, steps: seq<Step>, worker: Slot)
    requires Inv(w) && Valid(w, steps) && Serving(w, worker)
    requires forall i | 0 <= i < |steps| :: OfOthers(steps[i], worker)
    ensures var v := Execute(w, steps);
      Serving(v, worker) && v.ctxs[worker.ctx].parts == w.ctxs[worker.ctx].parts && (Waits(w, worker) ==> Waits(v, worker))
    decreases |steps|
  {
    hide Inv, Enabled, Next;
    if steps != [] {
      NextKeepsInv(w, steps[0]);
      StepKeepsServing(w, steps[0], worker);
      StepsKeepServing(Next(w, steps[0]), steps[1..], worker);
    }
  }

  lemma RunKeepsServing(w: Sys, steps: seq<Step>, v: Sys, worker: Slot)
    requires Ran(w, steps, v) && Serving(w, worker) && forall i | 0 <= i < |steps| :: OfOthers(steps[i], worker)
    ensures Serving(v, worker) && v.ctxs[worker.ctx].parts == w.ctxs[worker.ctx].parts
    ensures Waits(w, worker) ==> Waits(v, worker)
    ensures PopsOf(worker, steps) == []
  {
    hide Inv, Valid, Execute, PopsOf;
    StepsKeepServing(w, steps, worker);
    NoPops(worker, steps);
  }

  // ---------- empty queues ----------

  predicate IsEmpty(w: Sys, slot: Slot) {
    slot in w.queues && w.queues[slot] == []
  }

  /** After this run the queue is empty. */
  ghost predicate EmptyAfter(w: Sys, steps: seq<Step>, slot: Slot) {
    exists u: Sys :: Ran(w, steps, u) && IsEmpty(u, slot)
  }

  /** Somewhere on this run the queue is empty. */
  ghost predicate SeenEmpty(w: Sys, steps: seq<Step>, slot: Slot) {
    exists k: nat :: k <= |steps| && EmptyAfter(w, steps[..k], slot)
  }

  /** How many partitions have been tried: all of them, unless the batch was full, or a
      task has not come back. */
  function Tried(all: bool, stolen: seq<nat>, n: nat): nat {
    if all || stolen == [] then n else stolen[|stolen| - 1]
  }

  /** Each of the first `tried` partitions from which no task was taken was empty. */
  ghost predicate SkippedEmpty(w: Sys, steps: seq<Step>, worker: Slot, stolen: seq<nat>, n: nat, tried: nat)
    requires n > 0
  {
    forall d: nat | d < tried && d !in stolen :: SeenEmpty(w, steps, Slot(worker.ctx, Around(worker.part, d, n)))
  }

  lemma EmptyNow(w: Sys, steps: seq<Step>, u: Sys, slot: Slot)
    requires Ran(w, steps, u) && IsEmpty(u, slot)
    ensures EmptyAfter(w, steps, slot) && SeenEmpty(w, steps, slot)
  {
    hide Ran;
    assert steps[..|steps|] == steps;
  }

  lemma SeenStays(w: Sys, steps: seq<Step>, more: seq<Step>, slot: Slot)
    requires SeenEmpty(w, steps, slot)
    ensures SeenEmpty(w, steps + more, slot)
  {
    hide EmptyAfter;
    var k: nat :| k <= |steps| && EmptyAfter(w, steps[..k], slot);
    assert (steps + more)[..k] == steps[..k];
  }

  lemma SeenShifts(w: Sys, first: seq<Step>, u: Sys, second: seq<Step>, slot: Slot)
    requires Ran(w, first, u) && SeenEmpty(u, second, slot)
    ensures SeenEmpty(w, first + second, slot)
  {
    hide Ran, IsEmpty;
    var k: nat :| k <= |second| && EmptyAfter(u, second[..k], slot);
    var v :| Ran(u, second[..k], v) && IsEmpty(v, slot);
    RunAppends(w, first, u, second[..k], v);
    assert (first + second)[..|first| + k] == first + second[..k];
  }

  lemma NothingSkipped(w: Sys, worker: Slot, n: nat)
    requires n > 0
    ensures SkippedEmpty(w, [], worker, [], n, 0)
  {
  }

  lemma SkipsGrow(w: Sys, steps: seq<Step>, more: seq<Step>, worker: Slot, stolen: seq<nat>, n: nat, tried: nat)
    requires n > 0 && SkippedEmpty(w, steps, worker, stolen, n, tried)
    ensures SkippedEmpty(w, steps + more, worker, stolen, n, tried)
  {
    hide SeenEmpty;
    forall d: nat | d < tried && d !in stolen
      ensures SeenEmpty(w, steps + more, Slot(worker.ctx, Around(worker.part, d, n)))
    {
      SeenStays(w, steps, more, Slot(worker.ctx, Around(worker.part, d, n)));
    }
  }

  lemma SkipsServed(w: Sys, steps: seq<Step>, worker: Slot, stolen: seq<nat>, n: nat, tried: nat)
    requires n > 0 && SkippedEmpty(w, steps, worker, stolen, n, tried)
    ensures SkippedEmpty(w, steps, worker, stolen + [tried], n, tried)
    ensures SkippedEmpty(w, steps, worker, stolen + [tried], n, tried + 1)
  {
    hide SeenEmpty;
  }

  lemma SkipsEmpty(w: Sys, steps: seq<Step>, u: Sys, worker: Slot, stolen: seq<nat>, n: nat, tried: nat)
    requires n > 0 && SkippedEmpty(w, steps, worker, stolen, n, tried)
    requires Ran(w, steps, u) && IsEmpty(u, Slot(worker.ctx, Around(worker.part, tried, n)))
    ensures SkippedEmpty(w, steps, worker, stolen, n, tried + 1)
  {
    hide SeenEmpty, Ran, IsEmpty;
    EmptyNow(w, steps, u, Slot(worker.ctx, Around(worker.part, tried, n)));
  }

  lemma SkipsShift(w: Sys, first: seq<Step>, u: Sys, second: seq<Step>, worker: Slot, stolen: seq<nat>, n: nat, tried: nat)
    requires n > 0 && Ran(w, first, u) && SkippedEmpty(u, second, worker, stolen, n, tried)
    ensures SkippedEmpty(w, first + second, worker, stolen, n, tried)
  {
    hide SeenEmpty, Ran;
    forall d: nat | d < tried && d !in stolen
      ensures SeenEmpty(w, first + second, Slot(worker.ctx, Around(worker.part, d, n)))
    {
      SeenShifts(w, first, u, second, Slot(worker.ctx, Around(worker.part, d, n)));
    }
  }
}
