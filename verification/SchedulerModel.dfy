/** Contexts, tasks and semaphores, and one lock-level step of them.

    A task runs on a worker until it yields, finishes or suspends inside
    `Condition::wait`.  The critical sections of a semaphore's own lock are split
    where a dying context's `_remove`, which takes only the condition's lock, can
    come in between. */
module SchedulerModel {
  import opened Basics

  /** A partition of a context: one run queue, one allocator, one worker. */
  datatype Slot = Slot(ctx: nat, part: nat)

  datatype Ctx = Ctx(parts: nat, nextId: nat, stopped: bool)

  /** Where a task is.  `Moving` is the handle in the hands of the code that moves it
      from one list to another, within a step. */
  datatype Place = Queued | Blocked(sem: nat) | Running(worker: Slot) | Moving | Finished | Destroyed

  /** `home` is the partition `id % n` of the task's own context, whose run queue,
      allocator and index serve it. `waiting` is the task's `waiting_cond`; `resume` is the semaphore inside whose
      `Condition::wait` its coroutine is suspended; `holds` is the semaphore whose
      spinlock it holds. */
  datatype Task = Task(home: Slot, id: nat, place: Place, waiting: Option<nat>, resume: Option<nat>, holds: Option<nat>)

  datatype Holder = Free | ByTask(task: nat) | ByReleaser

  /** `scheduled` is `_scheduled_ctx`.  `woken` (the tasks taken from the blocked list
      that have not retried yet), `acquired` and `released` are history variables. */
  datatype Sem = Sem(initial: nat, vacant: nat, blocked: seq<nat>, scheduled: Option<nat>, mtx: Holder,
                     woken: set<nat>, acquired: nat, released: nat)

  datatype Sys = Sys(ctxs: seq<Ctx>, tasks: seq<Task>, sems: seq<Sem>,
                     queues: map<Slot, seq<nat>>, workers: map<Slot, Option<nat>>,
                     pools: map<Slot, seq<nat>>, index: map<Slot, map<nat, nat>>)

  datatype Step =
    | NewContext(parts: nat)
    | NewSemaphore(vacant: nat)
    | Spawn(ctx: nat)
    | Pop(worker: Slot, part: nat)
    | Yield(worker: Slot)
    | Finish(worker: Slot)
    | Acquire(worker: Slot, sem: nat)   // lock the semaphore for a first attempt
    | Retry(worker: Slot)               // lock it again after a wake-up
    | Attempt(worker: Slot)             // take a permit, or block
    | Release(sem: nat)                 // add a permit, under the semaphore's lock
    | Notify(sem: nat)                  // wake the first blocked task, and unlock
    | Stop(ctx: nat)                    // all workers have met at the end barrier
    | Remove(task: nat)                 // teardown destroys a waiting task

  predicate SlotOk(w: Sys, slot: Slot) {
    && slot.ctx < |w.ctxs| && slot.part < w.ctxs[slot.ctx].parts
    && slot in w.queues && slot in w.workers && slot in w.pools && slot in w.index
  }

  predicate TaskOk(w: Sys, t: nat) {
    t < |w.tasks| && SlotOk(w, w.tasks[t].home)
  }

  /** The worker runs a task, which is not inside a semaphore's critical section. */
  predicate Runs(w: Sys, worker: Slot) {
    && SlotOk(w, worker) && w.workers[worker].Some?
    && TaskOk(w, w.workers[worker].value)
  }

  function Current(w: Sys, worker: Slot): nat
    requires Runs(w, worker)
  {
    w.workers[worker].value
  }

  predicate Enabled(w: Sys, step: Step) {
    match step
    case NewContext(parts) => parts > 0
    case NewSemaphore(_) => true
    case Spawn(c) =>
      && c < |w.ctxs| && !w.ctxs[c].stopped && w.ctxs[c].parts > 0
      && SlotOk(w, Slot(c, w.ctxs[c].nextId % w.ctxs[c].parts))
    case Pop(worker, part) =>
      && SlotOk(w, worker) && !w.ctxs[worker.ctx].stopped && w.workers[worker] == None
      && SlotOk(w, Slot(worker.ctx, part)) && w.queues[Slot(worker.ctx, part)] != []
      && TaskOk(w, w.queues[Slot(worker.ctx, part)][0])
    case Yield(worker) =>
      Runs(w, worker) && w.tasks[Current(w, worker)].holds == None && w.tasks[Current(w, worker)].resume == None
    case Finish(worker) =>
      Runs(w, worker) && w.tasks[Current(w, worker)].holds == None && w.tasks[Current(w, worker)].resume == None
    case Acquire(worker, s) =>
      && Runs(w, worker) && w.tasks[Current(w, worker)].holds == None && w.tasks[Current(w, worker)].resume == None
      && s < |w.sems| && w.sems[s].mtx == Free
    case Retry(worker) =>
      && Runs(w, worker) && w.tasks[Current(w, worker)].resume.Some?
      && w.tasks[Current(w, worker)].resume.value < |w.sems|
      && w.sems[w.tasks[Current(w, worker)].resume.value].mtx == Free
    case Attempt(worker) =>
      && Runs(w, worker) && w.tasks[Current(w, worker)].holds.Some?
      && w.tasks[Current(w, worker)].holds.value < |w.sems|
    case Release(s) => s < |w.sems| && w.sems[s].mtx == Free
    case Notify(s) =>
      && s < |w.sems| && w.sems[s].mtx == ByReleaser
      && (w.sems[s].blocked != [] ==> TaskOk(w, w.sems[s].blocked[0]))
    case Stop(c) =>
      c < |w.ctxs| && !w.ctxs[c].stopped && forall slot | slot in w.workers && slot.ctx == c :: w.workers[slot] == None
    case Remove(t) =>
      && TaskOk(w, t) && w.ctxs[w.tasks[t].home.ctx].stopped
      && w.tasks[t].place !in {Finished, Destroyed} && w.tasks[t].waiting.Some?
      && w.tasks[t].waiting.value < |w.sems|
      && forall i | 0 <= i < |w.sems[w.tasks[t].waiting.value].blocked| ::
           TaskOk(w, w.sems[w.tasks[t].waiting.value].blocked[i])
  }

  // ---------- the pieces of a step ----------

  function Indexed(index: map<nat, nat>, id: nat, t: nat): map<nat, nat> {
    index + map[id := t]
  }

  /** `Scheduler::push`: the task joins the run queue of its own partition. */
  function Push(w: Sys, t: nat): Sys
    requires TaskOk(w, t)
  {
    var home := w.tasks[t].home;
    w.(queues := w.queues[home := w.queues[home] + [t]], tasks := w.tasks[t := w.tasks[t].(place := Queued)])
  }

  /** `Scheduler::pop`. */
  function PopFirst(w: Sys, slot: Slot): Sys
    requires slot in w.queues && w.queues[slot] != [] && w.queues[slot][0] < |w.tasks|
  {
    var t := w.queues[slot][0];
    w.(queues := w.queues[slot := w.queues[slot][1..]], tasks := w.tasks[t := w.tasks[t].(place := Moving)])
  }

  /** `_execute` takes the task as the worker's current one. */
  function Enter(w: Sys, worker: Slot, t: nat): Sys
    requires t < |w.tasks|
  {
    w.(workers := w.workers[worker := Some(t)],
       tasks := w.tasks[t := w.tasks[t].(place := Running(worker), waiting := None)])
  }

  /** `_execute` gives the current task away. */
  function Leave(w: Sys, worker: Slot, t: nat): Sys
    requires t < |w.tasks|
  {
    w.(workers := w.workers[worker := None], tasks := w.tasks[t := w.tasks[t].(place := Moving)])
  }

  /** Take the first task from the blocked list of a semaphore's condition. */
  function Unblock(w: Sys, s: nat): Sys
    requires s < |w.sems| && w.sems[s].blocked != [] && w.sems[s].blocked[0] < |w.tasks|
  {
    var sem := w.sems[s];
    var t := sem.blocked[0];
    w.(sems := w.sems[s := sem.(blocked := sem.blocked[1..], scheduled := Some(w.tasks[t].home.ctx), woken := sem.woken + {t})],
       tasks := w.tasks[t := w.tasks[t].(place := Moving)])
  }

  /** `Condition::_schedule_from_this`. */
  function Wake(w: Sys, s: nat): Sys
    requires s < |w.sems| && (w.sems[s].blocked != [] ==> TaskOk(w, w.sems[s].blocked[0]))
  {
    if w.sems[s].blocked == [] then w else Push(Unblock(w, s), w.sems[s].blocked[0])
  }

  /** Take a permit and unlock. */
  function Take(w: Sys, s: nat, t: nat): Sys
    requires s < |w.sems| && t < |w.tasks| && w.sems[s].vacant > 0
  {
    var sem := w.sems[s];
    w.(sems := w.sems[s := sem.(vacant := sem.vacant - 1, acquired := sem.acquired + 1, mtx := Free)],
       tasks := w.tasks[t := w.tasks[t].(holds := None)])
  }

  /** `Condition::wait` and `_suspend_to_this`: join the blocked list, and unlock. */
  function Suspend(w: Sys, s: nat, t: nat): Sys
    requires s < |w.sems| && t < |w.tasks|
  {
    var sem := w.sems[s];
    w.(sems := w.sems[s := sem.(blocked := sem.blocked + [t], mtx := Free)],
       tasks := w.tasks[t := w.tasks[t].(holds := None, place := Blocked(s), waiting := Some(s), resume := Some(s))])
  }

  /** `Condition::_remove` and the destruction of the task's frames. */
  function Destroy(w: Sys, s: nat, t: nat): (v: Sys)
    requires TaskOk(w, t) && s < |w.sems|
    ensures |v.sems| == |w.sems| && v.sems[s].blocked == Without(w.sems[s].blocked, t)
    ensures forall i: nat | TaskOk(w, i) :: TaskOk(v, i)
  {
    var sem := w.sems[s];
    var home := w.tasks[t].home;
    w.(sems := w.sems[s := sem.(blocked := Without(sem.blocked, t), woken := sem.woken - {t})],
       queues := w.queues[home := Without(w.queues[home], t)],
       tasks := w.tasks[t := w.tasks[t].(place := Destroyed, waiting := None, resume := None)])
  }

  /** The partitions of context `c`, all with the same contents. */
  function Fresh<V>(c: nat, parts: nat, contents: V): (m: map<Slot, V>)
    ensures forall slot :: slot in m <==> slot.ctx == c && slot.part < parts
    ensures forall slot | slot in m :: m[slot] == contents
  {
    map p | 0 <= p < parts :: Slot(c, p) := contents
  }

  function AddContext(w: Sys, parts: nat): Sys {
    var c := |w.ctxs|;
    w.(ctxs := w.ctxs + [Ctx(parts, 0, false)],
       queues := w.queues + Fresh(c, parts, []),
       workers := w.workers + Fresh(c, parts, None),
       pools := w.pools + Fresh(c, parts, []),
       index := w.index + Fresh(c, parts, map[]))
  }

  function AddSemaphore(w: Sys, vacant: nat): Sys {
    w.(sems := w.sems + [Sem(vacant, vacant, [], None, Free, {}, 0, 0)])
  }

  /** The workers of the context have met at the end barrier. */
  function StopContext(w: Sys, c: nat): Sys
    requires c < |w.ctxs|
  {
    w.(ctxs := w.ctxs[c := w.ctxs[c].(stopped := true)])
  }

  /** `create_scheduled`: allocate the task and push it. */
  function Create(w: Sys, c: nat): Sys
    requires Enabled(w, Spawn(c))
  {
    var id: nat := w.ctxs[c].nextId;
    var t: nat := |w.tasks|;
    var home := Slot(c, id % w.ctxs[c].parts);
    w.(ctxs := w.ctxs[c := w.ctxs[c].(nextId := id + 1)],
       tasks := w.tasks + [Task(home, id, Queued, None, None, None)],
       queues := w.queues[home := w.queues[home] + [t]],
       pools := w.pools[home := w.pools[home] + [t]],
       index := w.index[home := Indexed(w.index[home], id, t)])
  }

  /** `Allocator::destroy` for a task that is done. */
  function Retire(w: Sys, t: nat): Sys
    requires TaskOk(w, t)
  {
    var home := w.tasks[t].home;
    w.(tasks := w.tasks[t := w.tasks[t].(place := Finished)],
       pools := w.pools[home := Without(w.pools[home], t)],
       index := w.index[home := w.index[home] - {w.tasks[t].id}])
  }

  /** Lock the semaphore; a woken task also clears `_scheduled_ctx`. */
  function LockSem(w: Sys, s: nat, t: nat): Sys
    requires s < |w.sems| && t < |w.tasks|
  {
    var sem := w.sems[s];
    var sem1 := if w.tasks[t].resume == None then sem.(mtx := ByTask(t))
                else sem.(mtx := ByTask(t), scheduled := None, woken := sem.woken - {t});
    w.(sems := w.sems[s := sem1], tasks := w.tasks[t := w.tasks[t].(holds := Some(s), resume := None)])
  }

  function AddPermit(w: Sys, s: nat): Sys
    requires s < |w.sems|
  {
    var sem := w.sems[s];
    w.(sems := w.sems[s := sem.(vacant := sem.vacant + 1, released := sem.released + 1, mtx := ByReleaser)])
  }

  function NotifyOne(w: Sys, s: nat): Sys
    requires s < |w.sems| && (w.sems[s].blocked != [] ==> TaskOk(w, w.sems[s].blocked[0]))
  {
    var v := Wake(w, s);
    v.(sems := v.sems[s := v.sems[s].(mtx := Free)])
  }

  function Teardown(w: Sys, s: nat, t: nat): Sys
    requires TaskOk(w, t) && s < |w.sems| && forall i | 0 <= i < |w.sems[s].blocked| :: TaskOk(w, w.sems[s].blocked[i])
  {
    var scheduled := w.sems[s].scheduled;
    var v := Destroy(w, s, t);
    assert v.sems[s].blocked != [] ==> TaskOk(v, v.sems[s].blocked[0]) by {
      if v.sems[s].blocked != [] {
        WithoutElement(w.sems[s].blocked, t, v.sems[s].blocked[0]);
      }
    }
    if scheduled == None || scheduled == Some(w.tasks[t].home.ctx) then Wake(v, s) else v
  }

  function Next(w: Sys, step: Step): Sys
    requires Enabled(w, step)
  {
    match step
    case NewContext(parts) => AddContext(w, parts)
    case NewSemaphore(vacant) => AddSemaphore(w, vacant)
    case Spawn(c) => Create(w, c)
    case Pop(worker, part) =>
      var slot := Slot(worker.ctx, part);
      Enter(PopFirst(w, slot), worker, w.queues[slot][0])
    case Yield(worker) => Push(Leave(w, worker, Current(w, worker)), Current(w, worker))
    case Finish(worker) => Retire(Leave(w, worker, Current(w, worker)), Current(w, worker))
    case Acquire(worker, s) => LockSem(w, s, Current(w, worker))
    case Retry(worker) => LockSem(w, w.tasks[Current(w, worker)].resume.value, Current(w, worker))
    case Attempt(worker) =>
      var t := Current(w, worker);
      var s := w.tasks[t].holds.value;
      if w.sems[s].vacant > 0 then Take(w, s, t) else Suspend(Leave(w, worker, t), s, t)
    case Release(s) => AddPermit(w, s)
    case Notify(s) => NotifyOne(w, s)
    case Stop(c) => StopContext(w, c)
    case Remove(t) => Teardown(w, w.tasks[t].waiting.value, t)
  }

  /** What waking and removing tasks leaves alone. */
  ghost predicate SameFrame(w: Sys, v: Sys) {
    && v.ctxs == w.ctxs && v.workers == w.workers && v.pools == w.pools && v.index == w.index
    && v.queues.Keys == w.queues.Keys && |v.tasks| == |w.tasks| && |v.sems| == |w.sems|
    && forall t | 0 <= t < |w.tasks| :: v.tasks[t].home == w.tasks[t].home && v.tasks[t].holds == w.tasks[t].holds
  }

  lemma DestroyFrame(w: Sys, s: nat, t: nat)
    requires TaskOk(w, t) && s < |w.sems|
    ensures SameFrame(w, Destroy(w, s, t))
  {
  }

  lemma WakeFrame(w: Sys, s: nat)
    requires s < |w.sems| && (w.sems[s].blocked != [] ==> TaskOk(w, w.sems[s].blocked[0]))
    ensures SameFrame(w, Wake(w, s))
  {
  }

  lemma RemoveFrame(w: Sys, t: nat)
    requires Enabled(w, Remove(t))
    ensures SameFrame(w, Next(w, Remove(t)))
  {
    hide Destroy, Wake;
    var s := w.tasks[t].waiting.value;
    var v := Destroy(w, s, t);
    DestroyFrame(w, s, t);
    if v.sems[s].blocked != [] {
      WithoutElement(w.sems[s].blocked, t, v.sems[s].blocked[0]);
    }
    WakeFrame(v, s);
  }

  // ---------- runs ----------

  const INITIAL: Sys := Sys([], [], [], map[], map[], map[], map[])

  predicate Valid(w: Sys, steps: seq<Step>)
    decreases |steps|
  {
    steps == [] || (Enabled(w, steps[0]) && Valid(Next(w, steps[0]), steps[1..]))
  }

  function Execute(w: Sys, steps: seq<Step>): Sys
    requires Valid(w, steps)
    decreases |steps|
  {
    if steps == [] then w else Execute(Next(w, steps[0]), steps[1..])
  }

  lemma {:induction false} ValidConcat(w: Sys, first: seq<Step>, second: seq<Step>)
    requires Valid(w, first) && Valid(Execute(w, first), second)
    ensures Valid(w, first + second) && Execute(w, first + second) == Execute(Execute(w, first), second)
    decreases |first|
  {
    hide Enabled, Next;
    if first == [] {
      assert first + second == second;
    } else {
      ValidConcat(Next(w, first[0]), first[1..], second);
      assert (first + second)[1..] == first[1..] + second;
    }
  }

  lemma OneStep(w: Sys, step: Step)
    requires Enabled(w, step)
    ensures Valid(w, [step]) && Execute(w, [step]) == Next(w, step)
  {
    hide Enabled, Next;
    assert [step][1..] == [];
  }
}
