/** With one permit the field `_scheduled_ctx` suffices: a wake-up survives the
    teardown of the context that has absorbed it.  With two it does not. */
module SchedulerMutex {
  import opened Basics
  import opened SchedulerModel
  import opened SchedulerInvariant
  import opened SchedulerRuns
  import opened SchedulerPermits

  /** Task `t` has been woken, has not retried, and belongs to the context on record. */
  predicate Herald(sem: Sem, tasks: seq<Task>, t: nat) {
    t < |tasks| && t in sem.woken && sem.scheduled == Some(tasks[t].home.ctx)
  }

  predicate Idle(sem: Sem) {
    sem.mtx == Free && sem.vacant > 0 && sem.blocked != []
  }

  /** A free permit that somebody waits for has been announced. */
  ghost predicate HandedOn(sem: Sem, tasks: seq<Task>) {
    Idle(sem) ==> exists t: nat :: Herald(sem, tasks, t)
  }

  /** The contexts that a change names are the tasks' own. */
  predicate Faithful(sem: Sem, tasks: seq<Task>, change: Change) {
    match change
    case Notified(ctx) => sem.blocked != [] ==> sem.blocked[0] < |tasks| && ctx == tasks[sem.blocked[0]].home.ctx
    case Removed(t, ctx, heir) =>
      var rest := Without(sem.blocked, t);
      && t < |tasks| && ctx == tasks[t].home.ctx
      && (rest != [] ==> rest[0] < |tasks| && heir == tasks[rest[0]].home.ctx)
    case _ => true
  }

  lemma RemovalHandsOn(sem: Sem, tasks: seq<Task>, change: Change)
    requires change.Removed? && CanChange(sem, change) && Faithful(sem, tasks, change) && HandedOn(sem, tasks)
    ensures HandedOn(After(sem, change), tasks)
  {
    var after := After(sem, change);
    var rest := Without(sem.blocked, change.task);
    if Idle(after) {
      if HandsOn(sem, change.ctx) {
        if rest != [] {
          assert Herald(after, tasks, rest[0]);
        }
      } else {
        assert sem.blocked != [] by {
          WithoutElement(sem.blocked, change.task, after.blocked[0]);
        }
        var t: nat :| Herald(sem, tasks, t);
        assert Herald(after, tasks, t);
      }
    }
  }

  lemma ChangeHandsOn(sem: Sem, tasks: seq<Task>, change: Change)
    requires CanChange(sem, change) && Faithful(sem, tasks, change) && HandedOn(sem, tasks) && sem.vacant <= 1
    ensures HandedOn(After(sem, change), tasks)
  {
    match change
    case Removed(_, _, _) => RemovalHandsOn(sem, tasks, change);
    case Notified(ctx) =>
      if sem.blocked != [] {
        assert Herald(After(sem, change), tasks, sem.blocked[0]);
      }
    case _ =>
  }

  lemma ChangeIsFaithful(w: Sys, step: Step, s: nat)
    requires Inv(w) && Enabled(w, step) && s < |w.sems|
    ensures Faithful(w.sems[s], w.tasks, ChangeOf(w, step, s))
  {
    hide Inv;
    match step
    case Remove(t) =>
      var rest := Without(w.sems[s].blocked, t);
      if rest != [] {
        WithoutElement(w.sems[s].blocked, t, rest[0]);
      }
    case _ =>
  }

  ghost predicate SameHomes(w: Sys, v: Sys) {
    |w.tasks| <= |v.tasks| && forall t | 0 <= t < |w.tasks| :: v.tasks[t].home == w.tasks[t].home
  }

  lemma HomesAreFixed(w: Sys, step: Step)
    requires Enabled(w, step)
    ensures SameHomes(w, Next(w, step))
  {
    hide Wake, Teardown;
    match step
    case Remove(t) => RemoveFrame(w, t);
    case Notify(s) => WakeFrame(w, s);
    case _ =>
  }

  lemma StepHandsOn(w: Sys, step: Step, s: nat)
    requires Inv(w) && Enabled(w, step) && s < |w.sems| && w.sems[s].vacant <= 1 && HandedOn(w.sems[s], w.tasks)
    ensures s < |Next(w, step).sems| && HandedOn(Next(w, step).sems[s], Next(w, step).tasks)
  {
    hide Inv, Enabled, ChangeOf, Next, CanChange, After, Faithful;
    NextFollows(w, step, s);
    StepCanChange(w, step, s);
    ChangeIsFaithful(w, step, s);
    ChangeHandsOn(w.sems[s], w.tasks, ChangeOf(w, step, s));
    HomesAreFixed(w, step);
    var v := Next(w, step);
    if Idle(v.sems[s]) {
      var t: nat :| Herald(v.sems[s], w.tasks, t);
      assert Herald(v.sems[s], v.tasks, t);
    }
  }

  // ---------- a mutex ----------

  /** Semaphore `s` is used as a mutex: created with one permit at most, and released
      only while a permit is out. */
  predicate Locks(w: Sys, step: Step, s: nat)
    requires Enabled(w, step)
  {
    && (step.NewSemaphore? && |w.sems| == s ==> step.vacant <= 1)
    && (s < |w.sems| && ChangeOf(w, step, s) == Released ==> w.sems[s].acquired > w.sems[s].released)
  }

  predicate Disciplined(w: Sys, steps: seq<Step>, s: nat)
    requires Valid(w, steps)
    decreases |steps|
  {
    steps == [] || (Locks(w, steps[0], s) && Disciplined(Next(w, steps[0]), steps[1..], s))
  }

  ghost predicate MutexInv(w: Sys, s: nat) {
    s < |w.sems| ==> w.sems[s].initial <= 1 && w.sems[s].released <= w.sems[s].acquired && HandedOn(w.sems[s], w.tasks)
  }

  lemma OnePermit(w: Sys, s: nat)
    requires Inv(w) && MutexInv(w, s) && s < |w.sems|
    ensures w.sems[s].vacant <= 1
    ensures w.sems[s].acquired - w.sems[s].released == w.sems[s].initial - w.sems[s].vacant
  {
    assert SemInv(w, s, w.sems[s]);
  }

  lemma ChangeKeepsCounters(sem: Sem, change: Change)
    requires sem.initial <= 1 && sem.released <= sem.acquired
    requires change == Released ==> sem.acquired > sem.released
    ensures After(sem, change).initial <= 1 && After(sem, change).released <= After(sem, change).acquired
  {
  }

  lemma NewSemaphoreIsUnused(w: Sys, step: Step, s: nat)
    requires Enabled(w, step) && |w.sems| <= s < |Next(w, step).sems|
    ensures step.NewSemaphore? && |w.sems| == s
    ensures Next(w, step).sems[s] == Sem(step.vacant, step.vacant, [], None, Free, {}, 0, 0)
  {
    NewSemaphoreHasEnough(w, step, s);
  }

  lemma StepKeepsMutex(w: Sys, step: Step, s: nat)
    requires Inv(w) && Enabled(w, step) && MutexInv(w, s) && Locks(w, step, s)
    ensures MutexInv(Next(w, step), s)
  {
    hide Inv, Enabled, ChangeOf, Next, After, HandedOn;
    if s < |w.sems| {
      OnePermit(w, s);
      StepHandsOn(w, step, s);
      NextFollows(w, step, s);
      ChangeKeepsCounters(w.sems[s], ChangeOf(w, step, s));
    } else if s < |Next(w, step).sems| {
      NewSemaphoreIsUnused(w, step, s);
      UnusedIsHandedOn(Next(w, step), s);
    }
  }

  lemma UnusedIsHandedOn(w: Sys, s: nat)
    requires s < |w.sems| && w.sems[s].blocked == []
    ensures HandedOn(w.sems[s], w.tasks)
  {
  }

  lemma {:induction false} MutexKeepsInv(w: Sys, steps: seq<Step>, s: nat)
    requires Inv(w) && Valid(w, steps) && MutexInv(w, s) && Disciplined(w, steps, s)
    ensures MutexInv(Execute(w, steps), s)
    decreases |steps|
  {
    if steps != [] {
      hide Inv, Enabled, Next, MutexInv;
      NextKeepsInv(w, steps[0]);
      StepKeepsMutex(w, steps[0], s);
      MutexKeepsInv(Next(w, steps[0]), steps[1..], s);
    }
  }

  /** Mutual exclusion: a permit is granted only when every one before it has been
      given back. */
  lemma MutexExcludes(steps: seq<Step>, step: Step, s: nat)
    requires Valid(INITIAL, steps) && Disciplined(INITIAL, steps, s) && Enabled(Execute(INITIAL, steps), step)
    requires s < |Execute(INITIAL, steps).sems|
    ensures var w := Execute(INITIAL, steps);
      && w.sems[s].released <= w.sems[s].acquired <= w.sems[s].released + 1
      && (ChangeOf(w, step, s) == Granted ==> w.sems[s].acquired == w.sems[s].released)
  {
    hide Inv, Enabled, Next, HandedOn;
    InitialIsInv();
    RunsKeepInv(INITIAL, steps);
    MutexKeepsInv(INITIAL, steps, s);
    OnePermit(Execute(INITIAL, steps), s);
    StepCanChange(Execute(INITIAL, steps), step, s);
  }

  /** The herald runs in a live context, or waits in the run queue of one, or can be
      torn down at once, which hands the wake-up on. */
  predicate CanMove(w: Sys, s: nat, t: nat)
    requires s < |w.sems| && t < |w.tasks|
  {
    var x := w.tasks[t];
    match x.place
    case Running(worker) => Enabled(w, Retry(worker)) && Current(w, worker) == t && x.resume == Some(s)
    case Queued =>
      && x.home in w.queues && t in w.queues[x.home]
      && x.home.ctx < |w.ctxs| && (w.ctxs[x.home.ctx].stopped ==> Enabled(w, Remove(t)) && x.waiting == Some(s))
    case _ => false
  }

  lemma RunningIsCurrent(w: Sys, t: nat)
    requires Inv(w) && t < |w.tasks| && w.tasks[t].place.Running?
    ensures var worker := w.tasks[t].place.worker; Runs(w, worker) && Current(w, worker) == t
  {
    var worker := w.tasks[t].place.worker;
    assert TaskInv(w.ctxs, w.sems, t, w.tasks[t]);
    assert WorkerExact(w, worker, w.workers[worker]) && RunningAt(w, t, worker);
    TaskHasHome(w, t);
  }

  lemma RunningWokenCanRetry(w: Sys, s: nat, t: nat)
    requires Inv(w) && s < |w.sems| && t < |w.tasks| && t in w.sems[s].woken && w.sems[s].mtx == Free
    requires w.tasks[t].place.Running?
    ensures CanMove(w, s, t)
  {
    hide Inv;
    RunningIsCurrent(w, t);
    WokenIsRunningOrQueued(w, s, t);
  }

  lemma BlockedAreTasks(w: Sys, s: nat)
    requires Inv(w) && s < |w.sems|
    ensures forall i | 0 <= i < |w.sems[s].blocked| :: TaskOk(w, w.sems[s].blocked[i])
  {
    assert BlockedExact(w, s, w.sems[s].blocked);
    forall i | 0 <= i < |w.sems[s].blocked| ensures TaskOk(w, w.sems[s].blocked[i]) {
      assert w.sems[s].blocked[i] in w.sems[s].blocked;
      assert BlockedAt(w, w.sems[s].blocked[i], s);
      TaskHasHome(w, w.sems[s].blocked[i]);
    }
  }

  lemma WokenIsRunningOrQueued(w: Sys, s: nat, t: nat)
    requires Inv(w) && s < |w.sems| && t < |w.tasks| && t in w.sems[s].woken
    ensures w.tasks[t].place.Running? || w.tasks[t].place == Queued
    ensures w.tasks[t].place == Queued ==> w.tasks[t].waiting == Some(s)
    ensures w.tasks[t].resume == Some(s) && TaskOk(w, t)
    ensures w.tasks[t].place == Queued ==> t in w.queues[w.tasks[t].home]
  {
    assert TaskInv(w.ctxs, w.sems, t, w.tasks[t]);
    assert SemInv(w, s, w.sems[s]) && WokenAt(w, t, s);
    TaskHasHome(w, t);
    var home := w.tasks[t].home;
    assert QueueExact(w, home, w.queues[home]);
    assert w.tasks[t].place == Queued ==> QueuedAt(w, t, home);
  }

  lemma WokenCanMove(w: Sys, s: nat, t: nat)
    requires Inv(w) && s < |w.sems| && t < |w.tasks| && t in w.sems[s].woken && w.sems[s].mtx == Free
    ensures CanMove(w, s, t)
  {
    hide Inv;
    WokenIsRunningOrQueued(w, s, t);
    if w.tasks[t].place.Running? {
      RunningWokenCanRetry(w, s, t);
    } else {
      BlockedAreTasks(w, s);
    }
  }

  /** A mutex that is free while tasks wait for it is on its way to one of them, in
      every run, whichever contexts are being torn down. */
  lemma MutexSurvivesTeardown(steps: seq<Step>, s: nat)
    requires Valid(INITIAL, steps) && Disciplined(INITIAL, steps, s) && s < |Execute(INITIAL, steps).sems|
    ensures var w := Execute(INITIAL, steps);
      Idle(w.sems[s]) ==> exists t: nat :: Herald(w.sems[s], w.tasks, t) && CanMove(w, s, t)
  {
    hide Inv, Enabled, Next;
    InitialIsInv();
    RunsKeepInv(INITIAL, steps);
    MutexKeepsInv(INITIAL, steps, s);
    var w := Execute(INITIAL, steps);
    if Idle(w.sems[s]) {
      var t: nat :| Herald(w.sems[s], w.tasks, t);
      WokenCanMove(w, s, t);
    }
  }
}
