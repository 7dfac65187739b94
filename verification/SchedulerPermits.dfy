/** Permits: no wake-up is lost while contexts live, exactly which removal of a dying
    context loses one, and why a mutex loses none. */
module SchedulerPermits {
  import opened Basics
  import opened SchedulerModel
  import opened SchedulerInvariant
  import opened SchedulerRuns

  // ---------- what a step does to one semaphore ----------

  datatype Change =
    | Unaffected
    | Locked(task: nat)
    | Relocked(task: nat)
    | Granted
    | Suspended(task: nat)
    | Released
    | Notified(ctx: nat)
    | Removed(task: nat, ctx: nat, heir: nat)

  function HomeCtx(w: Sys, q: seq<nat>): nat {
    if q != [] && q[0] < |w.tasks| then w.tasks[q[0]].home.ctx else 0
  }

  function ChangeOf(w: Sys, step: Step, s: nat): Change
    requires Enabled(w, step) && s < |w.sems|
  {
    match step
    case Acquire(worker, r) => if r == s then Locked(Current(w, worker)) else Unaffected
    case Retry(worker) =>
      if w.tasks[Current(w, worker)].resume.value == s then Relocked(Current(w, worker)) else Unaffected
    case Attempt(worker) =>
      if w.tasks[Current(w, worker)].holds.value != s then Unaffected
      else if w.sems[s].vacant > 0 then Granted
      else Suspended(Current(w, worker))
    case Release(r) => if r == s then Released else Unaffected
    case Notify(r) => if r == s then Notified(HomeCtx(w, w.sems[s].blocked)) else Unaffected
    case Remove(t) =>
      if w.tasks[t].waiting.value == s
      then Removed(t, w.tasks[t].home.ctx, HomeCtx(w, Without(w.sems[s].blocked, t)))
      else Unaffected
    case _ => Unaffected
  }

  function WakeHead(sem: Sem, ctx: nat): Sem {
    if sem.blocked == [] then sem
    else sem.(blocked := sem.blocked[1..], scheduled := Some(ctx), woken := sem.woken + {sem.blocked[0]})
  }

  predicate HandsOn(sem: Sem, ctx: nat) {
    sem.scheduled == None || sem.scheduled == Some(ctx)
  }

  function After(sem: Sem, change: Change): Sem {
    match change
    case Unaffected => sem
    case Locked(t) => sem.(mtx := ByTask(t))
    case Relocked(t) => sem.(mtx := ByTask(t), scheduled := None, woken := sem.woken - {t})
    case Granted => sem.(vacant := if sem.vacant > 0 then sem.vacant - 1 else 0, acquired := sem.acquired + 1, mtx := Free)
    case Suspended(t) => sem.(blocked := sem.blocked + [t], mtx := Free)
    case Released => sem.(vacant := sem.vacant + 1, released := sem.released + 1, mtx := ByReleaser)
    case Notified(ctx) => WakeHead(sem, ctx).(mtx := Free)
    case Removed(t, ctx, heir) =>
      var rest := sem.(blocked := Without(sem.blocked, t), woken := sem.woken - {t});
      if HandsOn(sem, ctx) then WakeHead(rest, heir) else rest
  }

  /** What is known of a semaphore when it changes. */
  ghost predicate CanChange(sem: Sem, change: Change) {
    && Distinct(sem.blocked)
    && (forall t | t in sem.woken :: t !in sem.blocked)
    && match change
       case Unaffected => true
       case Locked(_) => sem.mtx == Free
       case Relocked(t) => sem.mtx == Free && t in sem.woken
       case Granted => sem.mtx.ByTask? && sem.vacant > 0
       case Suspended(t) => sem.mtx == ByTask(t) && sem.vacant == 0
       case Released => sem.mtx == Free
       case Notified(_) => sem.mtx == ByReleaser
       case Removed(t, _, _) => t in sem.blocked || t in sem.woken
  }

  lemma WakeIsWakeHead(w: Sys, s: nat)
    requires s < |w.sems| && (w.sems[s].blocked != [] ==> TaskOk(w, w.sems[s].blocked[0]))
    ensures |Wake(w, s).sems| == |w.sems| && Wake(w, s).sems[s] == WakeHead(w.sems[s], HomeCtx(w, w.sems[s].blocked))
    ensures forall r | 0 <= r < |w.sems| && r != s :: Wake(w, s).sems[r] == w.sems[r]
  {
  }

  lemma RemoveFollows(w: Sys, t: nat, s: nat)
    requires Enabled(w, Remove(t)) && s < |w.sems|
    ensures |Next(w, Remove(t)).sems| == |w.sems|
    ensures Next(w, Remove(t)).sems[s] == After(w.sems[s], ChangeOf(w, Remove(t), s))
  {
    hide Wake, WakeHead;
    var r := w.tasks[t].waiting.value;
    var v := Destroy(w, r, t);
    if v.sems[r].blocked != [] {
      WithoutElement(w.sems[r].blocked, t, v.sems[r].blocked[0]);
    }
    WakeIsWakeHead(v, r);
  }

  lemma NotifyFollows(w: Sys, r: nat, s: nat)
    requires Enabled(w, Notify(r)) && s < |w.sems|
    ensures |Next(w, Notify(r)).sems| == |w.sems|
    ensures Next(w, Notify(r)).sems[s] == After(w.sems[s], ChangeOf(w, Notify(r), s))
  {
    hide Wake, WakeHead;
    WakeIsWakeHead(w, r);
  }

  lemma LockStepFollows(w: Sys, step: Step, s: nat)
    requires Enabled(w, step) && s < |w.sems| && (step.Acquire? || step.Retry? || step.Attempt? || step.Release?)
    ensures s < |Next(w, step).sems|
    ensures Next(w, step).sems[s] == After(w.sems[s], ChangeOf(w, step, s))
  {
  }

  lemma OtherStepFollows(w: Sys, step: Step, s: nat)
    requires Enabled(w, step) && s < |w.sems|
    requires !step.Acquire? && !step.Retry? && !step.Attempt? && !step.Release? && !step.Notify? && !step.Remove?
    ensures s < |Next(w, step).sems|
    ensures Next(w, step).sems[s] == After(w.sems[s], ChangeOf(w, step, s))
  {
  }

  /** A step changes a semaphore as its own record alone tells. */
  lemma NextFollows(w: Sys, step: Step, s: nat)
    requires Enabled(w, step) && s < |w.sems|
    ensures s < |Next(w, step).sems|
    ensures Next(w, step).sems[s] == After(w.sems[s], ChangeOf(w, step, s))
  {
    hide Next, After, ChangeOf, Enabled;
    match step
    case Remove(t) => RemoveFollows(w, t, s);
    case Notify(r) => NotifyFollows(w, r, s);
    case Acquire(_, _) => LockStepFollows(w, step, s);
    case Retry(_) => LockStepFollows(w, step, s);
    case Attempt(_) => LockStepFollows(w, step, s);
    case Release(_) => LockStepFollows(w, step, s);
    case _ => OtherStepFollows(w, step, s);
  }

  lemma WokenNotBlocked(w: Sys, s: nat)
    requires Inv(w) && s < |w.sems|
    ensures Distinct(w.sems[s].blocked)
    ensures forall t | t in w.sems[s].woken :: t !in w.sems[s].blocked
  {
    assert BlockedExact(w, s, w.sems[s].blocked) && SemInv(w, s, w.sems[s]);
    forall t | t in w.sems[s].woken ensures t !in w.sems[s].blocked {
      assert WokenAt(w, t, s) && !BlockedAt(w, t, s);
    }
  }

  lemma ResumingIsWoken(w: Sys, t: nat, s: nat)
    requires s < |w.sems| && t < |w.tasks| && w.tasks[t].resume == Some(s) && Inv(w)
    ensures t in w.sems[s].woken <==> w.tasks[t].place != Blocked(s)
    ensures t in w.sems[s].blocked <==> w.tasks[t].place == Blocked(s)
  {
    assert SemInv(w, s, w.sems[s]) && BlockedExact(w, s, w.sems[s].blocked);
    assert WokenAt(w, t, s) <==> w.tasks[t].place != Blocked(s);
    assert BlockedAt(w, t, s) <==> w.tasks[t].place == Blocked(s);
  }

  lemma RetryingIsWoken(w: Sys, worker: Slot, t: nat, s: nat)
    requires Runs(w, worker) && Current(w, worker) == t && w.tasks[t].resume == Some(s) && s < |w.sems| && Inv(w)
    ensures t in w.sems[s].woken
  {
    hide Inv;
    CurrentIsRunning(w, worker);
    ResumingIsWoken(w, t, s);
  }

  lemma RemovedWasWaiting(w: Sys, t: nat, s: nat)
    requires t < |w.tasks| && w.tasks[t].waiting == Some(s) && Inv(w)
    ensures s < |w.sems| && (t in w.sems[s].blocked || t in w.sems[s].woken)
  {
    hide Inv;
    WaitingIsQueuedOrBlocked(w, t);
    ResumingIsWoken(w, t, s);
  }

  /** Running, the task has nothing in hand but the lock: it is not blocked. */
  lemma AttemptHoldsLock(w: Sys, worker: Slot, t: nat, s: nat)
    requires Runs(w, worker) && Current(w, worker) == t && w.tasks[t].holds == Some(s) && s < |w.sems| && Inv(w)
    ensures w.sems[s].mtx == ByTask(t)
  {
    hide Inv;
    CurrentIsRunning(w, worker);
  }

  lemma StepCanChange(w: Sys, step: Step, s: nat)
    requires Inv(w) && Enabled(w, step) && s < |w.sems|
    ensures CanChange(w.sems[s], ChangeOf(w, step, s))
  {
    hide Inv, Distinct;
    WokenNotBlocked(w, s);
    match step
    case Retry(worker) =>
      var t := Current(w, worker);
      RetryingIsWoken(w, worker, t, w.tasks[t].resume.value);
    case Attempt(worker) =>
      var t := Current(w, worker);
      AttemptHoldsLock(w, worker, t, w.tasks[t].holds.value);
    case Remove(t) => RemovedWasWaiting(w, t, w.tasks[t].waiting.value);
    case _ =>
  }

  // ---------- no lost wake-up ----------

  function Pending(sem: Sem): nat {
    |sem.woken| + (if sem.mtx == Free then 0 else 1)
  }

  /** While anyone is blocked there are at least as many attempts to come, by woken
      tasks or by whoever holds the lock, as there are permits. */
  predicate Enough(sem: Sem) {
    sem.blocked != [] ==> Pending(sem) >= sem.vacant
  }

  /** The removal of a woken task whose wake-up was not the last, and which nobody
      can spare. */
  predicate LosesWakeUp(sem: Sem, change: Change) {
    && change.Removed? && change.task in sem.woken && sem.scheduled.Some? && sem.scheduled.value != change.ctx
    && sem.blocked != [] && Pending(sem) == sem.vacant
  }

  lemma WakeHeadKeepsEnough(sem: Sem, ctx: nat)
    requires sem.blocked != [] ==> sem.blocked[0] !in sem.woken && |sem.woken| + 1 >= sem.vacant
    ensures Enough(WakeHead(sem, ctx).(mtx := Free))
  {
  }

  lemma {:induction false} WithoutAbsent(q: seq<nat>, x: nat)
    requires x !in q
    ensures Without(q, x) == q
  {
    if q != [] {
      WithoutAbsent(q[1..], x);
    }
  }

  lemma RemovalKeepsEnough(sem: Sem, change: Change)
    requires CanChange(sem, change) && change.Removed? && Enough(sem)
    ensures Enough(After(sem, change)) <==> !LosesWakeUp(sem, change)
  {
    var t := change.task;
    var rest := sem.(blocked := Without(sem.blocked, t), woken := sem.woken - {t});
    if rest.blocked != [] {
      WithoutElement(sem.blocked, t, rest.blocked[0]);
    }
    if t in sem.woken {
      WithoutAbsent(sem.blocked, t);
    } else {
      assert rest.woken == sem.woken;
    }
  }

  lemma ChangeKeepsEnough(sem: Sem, change: Change)
    requires CanChange(sem, change) && Enough(sem)
    ensures Enough(After(sem, change)) <==> !LosesWakeUp(sem, change)
  {
    match change
    case Removed(_, _, _) => RemovalKeepsEnough(sem, change);
    case Notified(ctx) => WakeHeadKeepsEnough(sem, ctx);
    case _ =>
  }

  /** A step from a state with enough attempts to come leaves enough, unless it is
      such a removal, and then it never does. */
  lemma StepKeepsEnough(w: Sys, step: Step, s: nat)
    requires Inv(w) && Enabled(w, step) && s < |w.sems| && Enough(w.sems[s])
    ensures s < |Next(w, step).sems|
    ensures Enough(Next(w, step).sems[s]) <==> !LosesWakeUp(w.sems[s], ChangeOf(w, step, s))
  {
    hide Inv, Enabled, ChangeOf, Next, CanChange, Enough, LosesWakeUp;
    NextFollows(w, step, s);
    StepCanChange(w, step, s);
    ChangeKeepsEnough(w.sems[s], ChangeOf(w, step, s));
  }

  lemma NewSemaphoreHasEnough(w: Sys, step: Step, s: nat)
    requires Enabled(w, step) && |w.sems| <= s < |Next(w, step).sems|
    ensures step.NewSemaphore? && Next(w, step).sems[s].blocked == []
  {
    match step
    case Remove(t) => RemoveFollows(w, t, 0);
    case _ =>
  }

  /** No step of the run loses a wake-up of semaphore `s`. */
  ghost predicate SparesWakeUps(w: Sys, steps: seq<Step>, s: nat)
    requires Valid(w, steps)
    decreases |steps|
  {
    steps == [] || (
      && (s < |w.sems| ==> !LosesWakeUp(w.sems[s], ChangeOf(w, steps[0], s)))
      && SparesWakeUps(Next(w, steps[0]), steps[1..], s))
  }

  ghost predicate AlwaysEnough(w: Sys, steps: seq<Step>, s: nat)
    requires Valid(w, steps)
    decreases |steps|
  {
    && (s < |w.sems| ==> Enough(w.sems[s]))
    && (steps == [] || AlwaysEnough(Next(w, steps[0]), steps[1..], s))
  }

  lemma FirstStepKeepsEnough(w: Sys, step: Step, s: nat)
    requires Inv(w) && Enabled(w, step) && (s < |w.sems| ==> Enough(w.sems[s]))
    ensures var v := Next(w, step);
      (s < |v.sems| ==> Enough(v.sems[s])) <==> (s < |w.sems| ==> !LosesWakeUp(w.sems[s], ChangeOf(w, step, s)))
  {
    hide Inv, Enabled, ChangeOf, Next, LosesWakeUp;
    if s < |w.sems| {
      StepKeepsEnough(w, step, s);
    } else if s < |Next(w, step).sems| {
      NewSemaphoreHasEnough(w, step, s);
    }
  }

  /** Whatever the number of permits and however tasks barge in: in every state of a
      run enough attempts are to come, if and only if the run never removes a woken
      task in the way that loses its wake-up. */
  lemma {:induction false} WakeUpsLostExactlyByRemoval(w: Sys, steps: seq<Step>, s: nat)
    requires Inv(w) && Valid(w, steps) && (s < |w.sems| ==> Enough(w.sems[s]))
    ensures AlwaysEnough(w, steps, s) <==> SparesWakeUps(w, steps, s)
    decreases |steps|
  {
    hide Inv, Enabled, ChangeOf, Next, LosesWakeUp, Enough;
    if steps != [] {
      var v := Next(w, steps[0]);
      NextKeepsInv(w, steps[0]);
      FirstStepKeepsEnough(w, steps[0], s);
      if s < |v.sems| ==> Enough(v.sems[s]) {
        WakeUpsLostExactlyByRemoval(v, steps[1..], s);
      }
    }
  }

  ghost predicate AllLive(w: Sys) {
    forall c | 0 <= c < |w.ctxs| :: !w.ctxs[c].stopped
  }

  lemma NextKeepsLive(w: Sys, step: Step)
    requires Enabled(w, step) && AllLive(w) && !step.Stop?
    ensures AllLive(Next(w, step)) && !step.Remove?
  {
  }

  /** As long as no context is shut down, no wake-up is lost. */
  lemma {:induction false} LiveContextsLoseNothing(w: Sys, steps: seq<Step>, s: nat)
    requires Inv(w) && Valid(w, steps) && AllLive(w) && (s < |w.sems| ==> Enough(w.sems[s]))
    requires forall i | 0 <= i < |steps| :: !steps[i].Stop?
    ensures var v := Execute(w, steps); s < |v.sems| ==> Enough(v.sems[s])
    decreases |steps|
  {
    hide Inv, Enabled, ChangeOf, Next, AllLive, LosesWakeUp, Enough;
    if steps != [] {
      NextKeepsInv(w, steps[0]);
      NextKeepsLive(w, steps[0]);
      FirstStepKeepsEnough(w, steps[0], s);
      if s < |w.sems| {
        OnlyRemovalLoses(w, steps[0], s);
      }
      assert forall i | 0 <= i < |steps[1..]| :: steps[1..][i] == steps[i + 1];
      LiveContextsLoseNothing(Next(w, steps[0]), steps[1..], s);
    }
  }

  lemma OnlyRemovalLoses(w: Sys, step: Step, s: nat)
    requires Enabled(w, step) && s < |w.sems|
    ensures LosesWakeUp(w.sems[s], ChangeOf(w, step, s)) ==> step.Remove?
  {
  }

  // ---------- conservation ----------

  function Tally(w: Sys, steps: seq<Step>, s: nat, change: Change): nat
    requires Valid(w, steps)
    decreases |steps|
  {
    if steps == [] then 0
    else
      (if s < |w.sems| && ChangeOf(w, steps[0], s) == change then 1 else 0)
      + Tally(Next(w, steps[0]), steps[1..], s, change)
  }

  lemma StepBalances(w: Sys, step: Step, s: nat)
    requires Inv(w) && Enabled(w, step) && s < |w.sems|
    ensures var v := Next(w, step);
      var change := ChangeOf(w, step, s);
      && s < |v.sems|
      && v.sems[s].vacant + (if change == Granted then 1 else 0) == w.sems[s].vacant + (if change == Released then 1 else 0)
  {
    hide Inv, Enabled, ChangeOf, Next;
    NextFollows(w, step, s);
    StepCanChange(w, step, s);
  }

  /** `_vacant` and the acquires of a run balance its releases. */
  lemma {:induction false} PermitsConserved(w: Sys, steps: seq<Step>, s: nat)
    requires Inv(w) && Valid(w, steps) && s < |w.sems|
    ensures var v := Execute(w, steps);
      s < |v.sems| && v.sems[s].vacant + Tally(w, steps, s, Granted) == w.sems[s].vacant + Tally(w, steps, s, Released)
    decreases |steps|
  {
    hide Inv, Enabled, ChangeOf, Next;
    if steps != [] {
      NextKeepsInv(w, steps[0]);
      StepBalances(w, steps[0], s);
      PermitsConserved(Next(w, steps[0]), steps[1..], s);
    }
  }
}
