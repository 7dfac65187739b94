/** Every step of the scheduler keeps its invariant; where every task is. */
module SchedulerRuns {
  import opened Basics
  import opened SchedulerModel
  import opened SchedulerInvariant

  lemma InitialIsInv()
    ensures Inv(INITIAL)
  {
  }

  lemma CurrentIsRunning(w: Sys, worker: Slot)
    requires Inv(w) && Runs(w, worker)
    ensures w.tasks[Current(w, worker)].place == Running(worker) && w.tasks[Current(w, worker)].waiting == None
    ensures worker.ctx == w.tasks[Current(w, worker)].home.ctx && !w.ctxs[worker.ctx].stopped
    ensures w.tasks[Current(w, worker)].holds.Some? ==>
      var s := w.tasks[Current(w, worker)].holds.value;
      s < |w.sems| && w.sems[s].mtx == ByTask(Current(w, worker)) && w.tasks[Current(w, worker)].resume == None
    ensures w.tasks[Current(w, worker)].resume.Some? ==> w.tasks[Current(w, worker)].holds == None
  {
    var t := Current(w, worker);
    assert WorkerExact(w, worker, w.workers[worker]);
    assert RunningAt(w, t, worker);
    assert TaskInv(w.ctxs, w.sems, t, w.tasks[t]);
  }

  lemma QueuedHoldsNothing(w: Sys, t: nat)
    requires TasksOk(w) && t < |w.tasks| && w.tasks[t].place == Queued
    ensures w.tasks[t].holds == None
  {
    assert TaskInv(w.ctxs, w.sems, t, w.tasks[t]);
  }

  lemma PopKeeps(w: Sys, worker: Slot, part: nat)
    requires Inv(w) && Enabled(w, Pop(worker, part))
    ensures Inv(Next(w, Pop(worker, part)))
  {
    hide SlotsOk, TasksOk, QueuesOk, WorkersOk, RestOk;
    var slot := Slot(worker.ctx, part);
    var t := w.queues[slot][0];
    HeadIsQueued(w, slot);
    QueuedHoldsNothing(w, t);
    PopFirstKeeps(w, slot);
    EnterKeeps(PopFirst(w, slot), worker, t);
  }

  lemma YieldKeeps(w: Sys, worker: Slot)
    requires Inv(w) && Enabled(w, Yield(worker))
    ensures Inv(Next(w, Yield(worker)))
  {
    hide SlotsOk, TasksOk, QueuesOk, WorkersOk, RestOk;
    var t := Current(w, worker);
    CurrentIsRunning(w, worker);
    LeaveKeeps(w, worker, t);
    PushKeeps(Leave(w, worker, t), t);
  }

  lemma FinishKeeps(w: Sys, worker: Slot)
    requires Inv(w) && Enabled(w, Finish(worker))
    ensures Inv(Next(w, Finish(worker)))
  {
    hide SlotsOk, TasksOk, QueuesOk, WorkersOk, RestOk;
    var t := Current(w, worker);
    CurrentIsRunning(w, worker);
    LeaveKeeps(w, worker, t);
    TaskHasHome(Leave(w, worker, t), t);
    RetireKeeps(Leave(w, worker, t), t);
  }

  lemma LockKeeps(w: Sys, s: nat, t: nat)
    requires Inv(w) && s < |w.sems| && t < |w.tasks| && w.sems[s].mtx == Free
    requires w.tasks[t].place.Running? && w.tasks[t].holds == None && w.tasks[t].resume in {None, Some(s)}
    ensures Inv(LockSem(w, s, t))
  {
    hide SlotsOk, TasksOk, QueuesOk, WorkersOk, BlockedOk, PoolsOk, IndexOk, IdsUnique, SemsOk;
    LockSemKeepsTasks(w, s, t);
    LockChangeKeeps(w, LockSem(w, s, t), s, t);
  }

  lemma AttemptKeeps(w: Sys, worker: Slot)
    requires Inv(w) && Enabled(w, Attempt(worker))
    ensures Inv(Next(w, Attempt(worker)))
  {
    hide SlotsOk, TasksOk, QueuesOk, WorkersOk, BlockedOk, PoolsOk, IndexOk, IdsUnique, SemsOk;
    var t := Current(w, worker);
    var s := w.tasks[t].holds.value;
    CurrentIsRunning(w, worker);
    if w.sems[s].vacant > 0 {
      TakeKeepsTasks(w, s, t);
      LockChangeKeeps(w, Take(w, s, t), s, t);
    } else {
      LeaveKeeps(w, worker, t);
      SuspendKeeps(Leave(w, worker, t), s, t);
    }
  }

  lemma ReleaseKeeps(w: Sys, s: nat)
    requires Inv(w) && s < |w.sems| && w.sems[s].mtx == Free
    ensures Inv(AddPermit(w, s))
  {
    assert SemInv(w, s, w.sems[s]);
    SemChangeKeeps(w, AddPermit(w, s), s);
  }

  lemma WakeSettles(w: Sys, s: nat)
    requires Loose(w) && s < |w.sems|
    requires forall t | 0 <= t < |w.tasks| :: w.tasks[t].place != Moving
    ensures w.sems[s].blocked != [] ==> TaskOk(w, w.sems[s].blocked[0])
    ensures Inv(Wake(w, s))
    ensures |Wake(w, s).sems| == |w.sems| && Wake(w, s).sems[s].mtx == w.sems[s].mtx
  {
    hide SlotsOk, TasksOk, QueuesOk, WorkersOk, RestOk;
    WakeKeeps(w, s);
  }

  lemma NotifyKeeps(w: Sys, s: nat)
    requires Inv(w) && Enabled(w, Notify(s))
    ensures Inv(NotifyOne(w, s))
  {
    hide Inv, Wake;
    InvSettles(w);
    WakeSettles(w, s);
    var v := Wake(w, s);
    UnlockKeeps(v, s);
  }

  lemma InvSettles(w: Sys)
    requires Inv(w)
    ensures Loose(w) && forall t | 0 <= t < |w.tasks| :: w.tasks[t].place != Moving
  {
  }

  lemma UnlockKeeps(w: Sys, s: nat)
    requires Inv(w) && s < |w.sems| && w.sems[s].mtx == ByReleaser
    ensures Inv(w.(sems := w.sems[s := w.sems[s].(mtx := Free)]))
  {
    assert SemInv(w, s, w.sems[s]);
    hide SlotsOk, TasksOk, QueuesOk, WorkersOk, RestOk;
    SemChangeKeeps(w, w.(sems := w.sems[s := w.sems[s].(mtx := Free)]), s);
  }

  lemma WaitingIsQueuedOrBlocked(w: Sys, t: nat)
    requires Inv(w) && t < |w.tasks| && w.tasks[t].waiting.Some?
    ensures w.tasks[t].resume == w.tasks[t].waiting && w.tasks[t].holds == None
    ensures w.tasks[t].place in {Queued, Blocked(w.tasks[t].waiting.value)}
    ensures w.tasks[t].waiting.value < |w.sems|
  {
    assert TaskInv(w.ctxs, w.sems, t, w.tasks[t]);
  }

  lemma RemoveKeeps(w: Sys, t: nat)
    requires Inv(w) && Enabled(w, Remove(t))
    ensures Inv(Next(w, Remove(t)))
  {
    hide SlotsOk, TasksOk, QueuesOk, WorkersOk, RestOk;
    var s := w.tasks[t].waiting.value;
    WaitingIsQueuedOrBlocked(w, t);
    DestroyKeeps(w, s, t);
    WakeSettles(Destroy(w, s, t), s);
  }

  lemma GrowthKeeps(w: Sys, step: Step)
    requires Inv(w) && Enabled(w, step) && (step.NewContext? || step.NewSemaphore? || step.Spawn? || step.Stop?)
    ensures Inv(Next(w, step))
  {
    hide SlotsOk, TasksOk, QueuesOk, WorkersOk, RestOk;
    match step
    case NewContext(parts) => AddContextKeeps(w, parts);
    case NewSemaphore(vacant) => NewSemaphoreKeeps(w, vacant);
    case Spawn(c) => CreateKeeps(w, c);
    case Stop(c) => StopKeeps(w, c);
  }

  lemma NextKeepsInv(w: Sys, step: Step)
    requires Inv(w) && Enabled(w, step)
    ensures Inv(Next(w, step))
  {
    hide Inv;
    match step
    case NewContext(_) => GrowthKeeps(w, step);
    case NewSemaphore(_) => GrowthKeeps(w, step);
    case Spawn(_) => GrowthKeeps(w, step);
    case Pop(worker, part) => PopKeeps(w, worker, part);
    case Yield(worker) => YieldKeeps(w, worker);
    case Finish(worker) => FinishKeeps(w, worker);
    case Acquire(worker, s) =>
      CurrentIsRunning(w, worker);
      LockKeeps(w, s, Current(w, worker));
    case Retry(worker) =>
      CurrentIsRunning(w, worker);
      LockKeeps(w, w.tasks[Current(w, worker)].resume.value, Current(w, worker));
    case Attempt(worker) => AttemptKeeps(w, worker);
    case Release(s) => ReleaseKeeps(w, s);
    case Notify(s) => NotifyKeeps(w, s);
    case Stop(_) => GrowthKeeps(w, step);
    case Remove(t) => RemoveKeeps(w, t);
  }

  lemma {:induction false} RunsKeepInv(w: Sys, steps: seq<Step>)
    requires Inv(w) && Valid(w, steps)
    ensures Inv(Execute(w, steps))
    decreases |steps|
  {
    if steps != [] {
      NextKeepsInv(w, steps[0]);
      RunsKeepInv(Next(w, steps[0]), steps[1..]);
    }
  }

  // ---------- where every task is ----------

  predicate Unfinished(w: Sys, t: nat) {
    t < |w.tasks| && w.tasks[t].place !in {Finished, Destroyed}
  }

  function QueuesHolding(w: Sys, t: nat): set<Slot> {
    set slot | slot in w.queues && t in w.queues[slot]
  }

  function ListsHolding(w: Sys, t: nat): set<nat> {
    set s | 0 <= s < |w.sems| && t in w.sems[s].blocked
  }

  function WorkersHolding(w: Sys, t: nat): set<Slot> {
    set worker | worker in w.workers && w.workers[worker] == Some(t)
  }

  lemma {:induction false} DistinctOnce(q: seq<nat>, t: nat)
    requires Distinct(q)
    ensures multiset(q)[t] == if t in q then 1 else 0
  {
    if q != [] {
      assert q == [q[0]] + q[1..];
      DistinctOnce(q[1..], t);
    }
  }

  lemma QueuesFollowPlace(w: Sys, t: nat)
    requires SlotsOk(w) && TasksOk(w) && QueuesOk(w) && t < |w.tasks|
    ensures QueuesHolding(w, t) == if w.tasks[t].place == Queued then {w.tasks[t].home} else {}
    ensures forall slot | slot in QueuesHolding(w, t) :: multiset(w.queues[slot])[t] == 1
  {
    var x := w.tasks[t];
    assert TaskInv(w.ctxs, w.sems, t, x);
    forall slot | slot in w.queues
      ensures t in w.queues[slot] <==> x.place == Queued && x.home == slot
      ensures t in w.queues[slot] ==> multiset(w.queues[slot])[t] == 1
    {
      assert QueueExact(w, slot, w.queues[slot]);
      assert t in w.queues[slot] <==> QueuedAt(w, t, slot);
      DistinctOnce(w.queues[slot], t);
    }
  }

  lemma ListsFollowPlace(w: Sys, t: nat)
    requires TasksOk(w) && BlockedOk(w) && t < |w.tasks|
    ensures ListsHolding(w, t) == if w.tasks[t].place.Blocked? then {w.tasks[t].place.sem} else {}
    ensures forall s | s in ListsHolding(w, t) :: multiset(w.sems[s].blocked)[t] == 1
  {
    var x := w.tasks[t];
    assert TaskInv(w.ctxs, w.sems, t, x);
    forall s | 0 <= s < |w.sems|
      ensures t in w.sems[s].blocked <==> x.place == Blocked(s)
      ensures t in w.sems[s].blocked ==> multiset(w.sems[s].blocked)[t] == 1
    {
      assert BlockedExact(w, s, w.sems[s].blocked);
      assert t in w.sems[s].blocked <==> BlockedAt(w, t, s);
      DistinctOnce(w.sems[s].blocked, t);
    }
  }

  lemma WorkersFollowPlace(w: Sys, t: nat)
    requires SlotsOk(w) && TasksOk(w) && WorkersOk(w) && t < |w.tasks|
    ensures WorkersHolding(w, t) == if w.tasks[t].place.Running? then {w.tasks[t].place.worker} else {}
  {
    var x := w.tasks[t];
    assert TaskInv(w.ctxs, w.sems, t, x);
    forall worker | worker in w.workers ensures w.workers[worker] == Some(t) <==> x.place == Running(worker) {
      assert WorkerExact(w, worker, w.workers[worker]);
      assert w.workers[worker] == Some(t) <==> RunningAt(w, t, worker);
    }
  }

  ghost predicate OnePlace(w: Sys, t: nat)
    requires t < |w.tasks|
  {
    && |QueuesHolding(w, t)| + |ListsHolding(w, t)| + |WorkersHolding(w, t)| == (if Unfinished(w, t) then 1 else 0)
    && (forall slot | slot in QueuesHolding(w, t) :: slot == w.tasks[t].home && multiset(w.queues[slot])[t] == 1)
    && (forall s | s in ListsHolding(w, t) :: multiset(w.sems[s].blocked)[t] == 1)
    && (forall worker | worker in WorkersHolding(w, t) :: worker.ctx == w.tasks[t].home.ctx)
  }

  lemma PlaceFacts(w: Sys, t: nat)
    requires Inv(w) && t < |w.tasks|
    ensures w.tasks[t].place != Moving
    ensures w.tasks[t].place.Running? ==> w.tasks[t].place.worker.ctx == w.tasks[t].home.ctx
    ensures BlockedOk(w)
  {
    assert TaskInv(w.ctxs, w.sems, t, w.tasks[t]);
  }

  lemma InvGivesOnePlace(w: Sys, t: nat)
    requires Inv(w) && t < |w.tasks|
    ensures OnePlace(w, t)
  {
    hide SlotsOk, TasksOk, QueuesOk, WorkersOk, RestOk, BlockedOk, QueuesHolding, ListsHolding, WorkersHolding;
    PlaceFacts(w, t);
    QueuesFollowPlace(w, t);
    ListsFollowPlace(w, t);
    WorkersFollowPlace(w, t);
  }

  /** In every reachable state each unfinished task is in exactly one place: once in
      the run queue of its own partition, once in one condition's blocked list, or on
      one worker of its own context.  A finished or destroyed task is nowhere. */
  lemma EveryTaskInOnePlace(steps: seq<Step>, t: nat)
    requires Valid(INITIAL, steps) && t < |Execute(INITIAL, steps).tasks|
    ensures OnePlace(Execute(INITIAL, steps), t)
  {
    InitialIsInv();
    RunsKeepInv(INITIAL, steps);
    InvGivesOnePlace(Execute(INITIAL, steps), t);
  }

  /** `_pool` and `_index` agree: a task is pooled in its home partition, and found
      there by its id, from its creation until it finishes. */
  lemma PoolAndIndexAgree(steps: seq<Step>, t: nat)
    requires Valid(INITIAL, steps) && t < |Execute(INITIAL, steps).tasks|
    ensures var w := Execute(INITIAL, steps);
      var x := w.tasks[t];
      && x.home in w.pools && x.home in w.index
      && x.home.ctx < |w.ctxs| && w.ctxs[x.home.ctx].parts > 0 && x.home.part == x.id % w.ctxs[x.home.ctx].parts
      && (forall slot | slot in w.pools :: t in w.pools[slot] <==> x.place != Finished && slot == x.home)
      && (x.place != Finished <==> x.id in w.index[x.home] && w.index[x.home][x.id] == t)
      && (forall id | id in w.index[x.home] :: w.index[x.home][id] in w.pools[x.home])
  {
    InitialIsInv();
    RunsKeepInv(INITIAL, steps);
    var w := Execute(INITIAL, steps);
    var x := w.tasks[t];
    assert TaskInv(w.ctxs, w.sems, t, x);
    forall slot | slot in w.pools ensures t in w.pools[slot] <==> x.place != Finished && slot == x.home {
      assert PoolExact(w, slot, w.pools[slot]);
      assert t in w.pools[slot] <==> PooledAt(w, t, slot);
    }
    assert IndexExact(w, x.home, w.index[x.home]);
    assert PooledAt(w, t, x.home) <==> x.place != Finished;
    assert PoolExact(w, x.home, w.pools[x.home]);
  }
}
