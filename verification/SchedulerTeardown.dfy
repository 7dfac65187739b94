/** Shutting a context down: after the end barrier none of its tasks runs, and once
    every partition has been drained no condition's blocked list holds one. */
module SchedulerTeardown {
  import opened Basics
  import opened SchedulerModel
  import opened SchedulerInvariant
  import opened SchedulerRuns
  import opened SchedulerMutex

  predicate StoppedAt(w: Sys, c: nat) {
    c < |w.ctxs| && w.ctxs[c].stopped
  }

  predicate OfStopped(w: Sys, t: nat) {
    t < |w.tasks| && StoppedAt(w, w.tasks[t].home.ctx)
  }

  /** No task of a stopped context is running. */
  lemma StoppedNeverRuns(w: Sys, t: nat)
    requires Inv(w) && OfStopped(w, t)
    ensures !w.tasks[t].place.Running?
    ensures forall worker | worker in w.workers :: w.workers[worker] != Some(t)
  {
    assert TaskInv(w.ctxs, w.sems, t, w.tasks[t]);
    forall worker | worker in w.workers ensures w.workers[worker] != Some(t) {
      assert WorkerExact(w, worker, w.workers[worker]);
      assert !RunningAt(w, t, worker);
    }
  }

  /** What may become of a task of a stopped context: nothing but a wake-up, which
      leaves it waiting, or its own removal. */
  predicate Frozen(x: Task, y: Task) {
    y.home == x.home && y.waiting == x.waiting && (y.place == x.place || (x.place.Blocked? && y.place == Queued))
  }

  lemma WakeFreezes(w: Sys, s: nat, t: nat)
    requires Loose(w) && s < |w.sems| && t < |w.tasks|
    ensures w.sems[s].blocked != [] ==> TaskOk(w, w.sems[s].blocked[0])
    ensures t < |Wake(w, s).tasks| && Frozen(w.tasks[t], Wake(w, s).tasks[t]) && Wake(w, s).ctxs == w.ctxs
  {
    hide SlotsOk, TasksOk, QueuesOk, WorkersOk, BlockedOk, PoolsOk, IndexOk, IdsUnique, SemsOk;
    if w.sems[s].blocked != [] {
      HeadIsBlocked(w, s);
    }
  }

  lemma RemoveFreezesOthers(w: Sys, t: nat, u: nat)
    requires Inv(w) && Enabled(w, Remove(t)) && u < |w.tasks|
    ensures u < |Next(w, Remove(t)).tasks| && Next(w, Remove(t)).ctxs == w.ctxs
    ensures u != t ==> Frozen(w.tasks[u], Next(w, Remove(t)).tasks[u])
    ensures u == t ==> Next(w, Remove(t)).tasks[u] == w.tasks[u].(place := Destroyed, waiting := None, resume := None)
  {
    hide SlotsOk, TasksOk, QueuesOk, WorkersOk, RestOk;
    var s := w.tasks[t].waiting.value;
    WaitingIsQueuedOrBlocked(w, t);
    DestroyKeeps(w, s, t);
    var v := Destroy(w, s, t);
    WakeFreezes(v, s, u);
    RemovedIsNotWoken(v, s, t);
  }

  lemma RemovedIsNotWoken(w: Sys, s: nat, t: nat)
    requires Loose(w) && s < |w.sems| && t < |w.tasks| && w.tasks[t].place == Destroyed
    ensures w.sems[s].blocked != [] ==> w.sems[s].blocked[0] < |w.tasks| && w.sems[s].blocked[0] != t
  {
    hide SlotsOk, TasksOk, QueuesOk, WorkersOk, BlockedOk, PoolsOk, IndexOk, IdsUnique, SemsOk;
    if w.sems[s].blocked != [] {
      HeadIsBlocked(w, s);
    }
  }

  lemma RunningIsLive(w: Sys, worker: Slot, t: nat)
    requires Inv(w) && Runs(w, worker) && OfStopped(w, t)
    ensures Current(w, worker) != t
  {
    CurrentIsRunning(w, worker);
    StoppedNeverRuns(w, t);
  }

  lemma PoppedIsLive(w: Sys, worker: Slot, part: nat, t: nat)
    requires Inv(w) && Enabled(w, Pop(worker, part)) && OfStopped(w, t)
    ensures w.queues[Slot(worker.ctx, part)][0] != t
  {
    HeadIsQueued(w, Slot(worker.ctx, part));
  }

  lemma PopFreezes(w: Sys, worker: Slot, part: nat, t: nat)
    requires Inv(w) && Enabled(w, Pop(worker, part)) && OfStopped(w, t)
    ensures var v := Next(w, Pop(worker, part));
      t < |v.tasks| && v.tasks[t] == w.tasks[t] && StoppedAt(v, w.tasks[t].home.ctx)
  {
    hide Inv;
    PoppedIsLive(w, worker, part, t);
  }

  lemma RunningStepFreezes(w: Sys, step: Step, t: nat)
    requires Inv(w) && Enabled(w, step) && OfStopped(w, t)
    requires step.Yield? || step.Finish? || step.Acquire? || step.Retry? || step.Attempt?
    ensures var v := Next(w, step);
      t < |v.tasks| && v.tasks[t] == w.tasks[t] && StoppedAt(v, w.tasks[t].home.ctx)
  {
    hide Inv;
    RunningIsLive(w, step.worker, t);
  }

  lemma OtherStepFreezes(w: Sys, step: Step, t: nat)
    requires Enabled(w, step) && OfStopped(w, t)
    requires step.NewContext? || step.NewSemaphore? || step.Spawn? || step.Release? || step.Stop?
    ensures var v := Next(w, step);
      t < |v.tasks| && v.tasks[t] == w.tasks[t] && StoppedAt(v, w.tasks[t].home.ctx)
  {
  }

  lemma WorkerStepFreezes(w: Sys, step: Step, t: nat)
    requires Inv(w) && Enabled(w, step) && OfStopped(w, t)
    requires !step.Remove? && !step.Notify?
    ensures var v := Next(w, step);
      t < |v.tasks| && v.tasks[t] == w.tasks[t] && StoppedAt(v, w.tasks[t].home.ctx)
  {
    hide Inv, Enabled, Next, OfStopped, StoppedAt;
    if step.Pop? {
      PopFreezes(w, step.worker, step.part, t);
    } else if step.Yield? || step.Finish? || step.Acquire? || step.Retry? || step.Attempt? {
      RunningStepFreezes(w, step, t);
    } else {
      OtherStepFreezes(w, step, t);
    }
  }

  lemma NextFreezes(w: Sys, step: Step, t: nat)
    requires Inv(w) && Enabled(w, step) && OfStopped(w, t)
    ensures var v := Next(w, step);
      && t < |v.tasks| && v.tasks[t].home == w.tasks[t].home && StoppedAt(v, w.tasks[t].home.ctx)
      && if step == Remove(t) then v.tasks[t].place == Destroyed else Frozen(w.tasks[t], v.tasks[t])
  {
    hide Inv, Loose;
    match step
    case Remove(u) => RemoveFreezesOthers(w, u, t);
    case Notify(s) =>
      InvIsLoose(w);
      WakeFreezes(w, s, t);
    case _ => WorkerStepFreezes(w, step, t);
  }

  /** `final_schedule` has done its work for this partition: the context is stopped and
      none of the partition's tasks that are left waits for a condition. */
  ghost predicate Drained(w: Sys, slot: Slot) {
    StoppedAt(w, slot.ctx) && forall t: nat | Unfinished(w, t) && w.tasks[t].home == slot :: w.tasks[t].waiting == None
  }

  lemma SpawnedIsLive(w: Sys, step: Step, t: nat)
    requires Enabled(w, step) && |w.tasks| <= t < |Next(w, step).tasks|
    ensures step.Spawn? && t == |w.tasks| && !w.ctxs[step.ctx].stopped && Next(w, step).tasks[t].home.ctx == step.ctx
  {
    hide Wake, Teardown;
    match step
    case Remove(u) => RemoveFrame(w, u);
    case Notify(s) => WakeFrame(w, s);
    case _ =>
  }

  lemma StopIsForEver(w: Sys, step: Step, c: nat)
    requires Enabled(w, step) && StoppedAt(w, c)
    ensures StoppedAt(Next(w, step), c)
  {
    hide Wake, Teardown;
    match step
    case Remove(u) => RemoveFrame(w, u);
    case Notify(s) => WakeFrame(w, s);
    case _ =>
  }

  /** A drained partition stays drained, whatever the rest of the system does. */
  lemma NextKeepsDrained(w: Sys, step: Step, slot: Slot)
    requires Inv(w) && Enabled(w, step) && Drained(w, slot)
    ensures Drained(Next(w, step), slot)
  {
    hide Inv, Enabled, Next;
    var v := Next(w, step);
    StopIsForEver(w, step, slot.ctx);
    forall t: nat | Unfinished(v, t) && v.tasks[t].home == slot ensures v.tasks[t].waiting == None {
      if t < |w.tasks| {
        HomesAreFixed(w, step);
        NextFreezes(w, step, t);
      } else {
        SpawnedIsLive(w, step, t);
      }
    }
  }

  /** Once every partition of the context is drained, no condition's blocked list holds
      a task of it, and none of its tasks runs: for ever. */
  lemma {:induction false} TeardownIsComplete(w: Sys, steps: seq<Step>, c: nat)
    requires Inv(w) && Valid(w, steps) && c < |w.ctxs|
    requires forall part | 0 <= part < w.ctxs[c].parts :: Drained(w, Slot(c, part))
    ensures var v := Execute(w, steps);
      forall t: nat | t < |v.tasks| && v.tasks[t].home.ctx == c ::
        && (forall s | 0 <= s < |v.sems| :: t !in v.sems[s].blocked)
        && (forall worker | worker in v.workers :: v.workers[worker] != Some(t))
    decreases |steps|
  {
    hide Inv, Enabled, Next, Drained;
    if steps == [] {
      forall t: nat | t < |w.tasks| && w.tasks[t].home.ctx == c
        ensures forall s | 0 <= s < |w.sems| :: t !in w.sems[s].blocked
        ensures forall worker | worker in w.workers :: w.workers[worker] != Some(t)
      {
        HomeExists(w, t);
        assert w.tasks[t].home == Slot(c, w.tasks[t].home.part);
        DrainedTaskIsNowhere(w, t);
      }
    } else {
      NextKeepsInv(w, steps[0]);
      PartsAreFixed(w, steps[0], c);
      forall part | 0 <= part < w.ctxs[c].parts ensures Drained(Next(w, steps[0]), Slot(c, part)) {
        NextKeepsDrained(w, steps[0], Slot(c, part));
      }
      TeardownIsComplete(Next(w, steps[0]), steps[1..], c);
      assert Execute(w, steps) == Execute(Next(w, steps[0]), steps[1..]);
    }
  }

  lemma PartsAreFixed(w: Sys, step: Step, c: nat)
    requires Enabled(w, step) && c < |w.ctxs|
    ensures c < |Next(w, step).ctxs| && Next(w, step).ctxs[c].parts == w.ctxs[c].parts
  {
    hide Wake, Teardown;
    match step
    case Remove(u) => RemoveFrame(w, u);
    case Notify(s) => WakeFrame(w, s);
    case _ =>
  }

  lemma BlockedIsWaiting(w: Sys, t: nat, s: nat)
    requires Inv(w) && s < |w.sems| && t in w.sems[s].blocked
    ensures Unfinished(w, t) && w.tasks[t].waiting == Some(s)
  {
    assert BlockedExact(w, s, w.sems[s].blocked);
    assert BlockedAt(w, t, s);
    assert TaskInv(w.ctxs, w.sems, t, w.tasks[t]);
  }

  lemma HomeExists(w: Sys, t: nat)
    requires Inv(w) && t < |w.tasks|
    ensures var home := w.tasks[t].home; home.ctx < |w.ctxs| && home.part < w.ctxs[home.ctx].parts
  {
    assert TaskInv(w.ctxs, w.sems, t, w.tasks[t]);
  }

  lemma DrainedTaskIsNowhere(w: Sys, t: nat)
    requires Inv(w) && t < |w.tasks| && Drained(w, w.tasks[t].home)
    ensures forall s | 0 <= s < |w.sems| :: t !in w.sems[s].blocked
    ensures forall worker | worker in w.workers :: w.workers[worker] != Some(t)
  {
    hide Inv;
    StoppedNeverRuns(w, t);
    forall s | 0 <= s < |w.sems| ensures t !in w.sems[s].blocked {
      if t in w.sems[s].blocked {
        BlockedIsWaiting(w, t, s);
      }
    }
  }
}
