/** What every reachable state of the scheduler satisfies. */
module SchedulerInvariant {
  import opened Basics
  import opened SchedulerModel

  // ---------- contexts and tasks ----------

  predicate SlotExists(ctxs: seq<Ctx>, slot: Slot) {
    slot.ctx < |ctxs| && slot.part < ctxs[slot.ctx].parts
  }

  ghost predicate SlotsOk(w: Sys) {
    && (forall c | 0 <= c < |w.ctxs| :: w.ctxs[c].parts > 0)
    && (forall slot :: slot in w.queues <==> SlotExists(w.ctxs, slot))
    && (forall slot :: slot in w.workers <==> SlotExists(w.ctxs, slot))
    && (forall slot :: slot in w.pools <==> SlotExists(w.ctxs, slot))
    && (forall slot :: slot in w.index <==> SlotExists(w.ctxs, slot))
  }

  predicate TaskInv(ctxs: seq<Ctx>, sems: seq<Sem>, t: nat, x: Task) {
    && SlotExists(ctxs, x.home) && x.id < ctxs[x.home.ctx].nextId && x.home.part == x.id % ctxs[x.home.ctx].parts
    && (x.resume.Some? ==> x.resume.value < |sems|)
    && (x.holds.Some? ==> x.resume == None && x.holds.value < |sems| && sems[x.holds.value].mtx == ByTask(t))
    && (x.waiting.Some? ==> x.waiting == x.resume)
    && match x.place
       case Queued => x.waiting == x.resume && x.holds == None
       case Blocked(s) => x.waiting == Some(s) && x.holds == None
       case Running(worker) =>
         x.waiting == None && worker.ctx == x.home.ctx && SlotExists(ctxs, worker) && !ctxs[worker.ctx].stopped
       case Moving => true
       case _ => x.resume == None && x.holds == None
  }

  ghost predicate TasksOk(w: Sys) {
    forall t | 0 <= t < |w.tasks| :: TaskInv(w.ctxs, w.sems, t, w.tasks[t])
  }

  // ---------- lists hold exactly the tasks whose place they are ----------

  predicate QueuedAt(w: Sys, t: nat, slot: Slot) {
    t < |w.tasks| && w.tasks[t].place == Queued && w.tasks[t].home == slot
  }

  ghost predicate QueueExact(w: Sys, slot: Slot, q: seq<nat>) {
    Distinct(q) && forall t: nat :: t in q <==> QueuedAt(w, t, slot)
  }

  ghost predicate QueuesOk(w: Sys) {
    forall slot | slot in w.queues :: QueueExact(w, slot, w.queues[slot])
  }

  predicate BlockedAt(w: Sys, t: nat, s: nat) {
    t < |w.tasks| && w.tasks[t].place == Blocked(s)
  }

  ghost predicate BlockedExact(w: Sys, s: nat, q: seq<nat>) {
    Distinct(q) && forall t: nat :: t in q <==> BlockedAt(w, t, s)
  }

  ghost predicate BlockedOk(w: Sys) {
    forall s | 0 <= s < |w.sems| :: BlockedExact(w, s, w.sems[s].blocked)
  }

  predicate RunningAt(w: Sys, t: nat, worker: Slot) {
    t < |w.tasks| && w.tasks[t].place == Running(worker)
  }

  ghost predicate WorkerExact(w: Sys, worker: Slot, current: Option<nat>) {
    forall t: nat :: current == Some(t) <==> RunningAt(w, t, worker)
  }

  ghost predicate WorkersOk(w: Sys) {
    forall worker | worker in w.workers :: WorkerExact(w, worker, w.workers[worker])
  }

  predicate PooledAt(w: Sys, t: nat, slot: Slot) {
    t < |w.tasks| && w.tasks[t].place != Finished && w.tasks[t].home == slot
  }

  ghost predicate PoolExact(w: Sys, slot: Slot, pool: seq<nat>) {
    Distinct(pool) && forall t: nat :: t in pool <==> PooledAt(w, t, slot)
  }

  ghost predicate PoolsOk(w: Sys) {
    forall slot | slot in w.pools :: PoolExact(w, slot, w.pools[slot])
  }

  /** Distinct tasks of a context have distinct ids. */
  ghost predicate IdsUnique(w: Sys) {
    forall t, u | 0 <= t < u < |w.tasks| && w.tasks[t].home.ctx == w.tasks[u].home.ctx :: w.tasks[t].id != w.tasks[u].id
  }

  ghost predicate IndexExact(w: Sys, slot: Slot, index: map<nat, nat>) {
    && (forall t: nat | PooledAt(w, t, slot) :: w.tasks[t].id in index && index[w.tasks[t].id] == t)
    && (forall id | id in index :: PooledAt(w, index[id], slot) && w.tasks[index[id]].id == id)
  }

  /** The index finds each pooled task by its id, and nothing else. */
  ghost predicate IndexOk(w: Sys) {
    forall slot | slot in w.index :: IndexExact(w, slot, w.index[slot])
  }

  // ---------- semaphores ----------

  predicate WokenAt(w: Sys, t: nat, s: nat) {
    t < |w.tasks| && w.tasks[t].resume == Some(s) && w.tasks[t].place != Blocked(s)
  }

  ghost predicate SemInv(w: Sys, s: nat, sem: Sem) {
    && sem.vacant + sem.acquired == sem.initial + sem.released
    && (sem.mtx.ByTask? ==> sem.mtx.task < |w.tasks| && w.tasks[sem.mtx.task].holds == Some(s))
    && (forall t: nat :: t in sem.woken <==> WokenAt(w, t, s))
  }

  ghost predicate SemsOk(w: Sys) {
    forall s | 0 <= s < |w.sems| :: SemInv(w, s, w.sems[s])
  }

  ghost predicate RestOk(w: Sys) {
    BlockedOk(w) && PoolsOk(w) && IndexOk(w) && IdsUnique(w) && SemsOk(w)
  }

  /** The invariant within a step, while a task may be moving. */
  ghost predicate Loose(w: Sys) {
    SlotsOk(w) && TasksOk(w) && QueuesOk(w) && WorkersOk(w) && RestOk(w)
  }

  ghost predicate Settled(w: Sys) {
    forall t | 0 <= t < |w.tasks| :: w.tasks[t].place != Moving
  }

  ghost predicate Inv(w: Sys) {
    Loose(w) && Settled(w)
  }

  lemma InvIsLoose(w: Sys)
    requires Inv(w)
    ensures Loose(w)
  {
  }

  lemma TaskHasHome(w: Sys, t: nat)
    requires SlotsOk(w) && TasksOk(w) && t < |w.tasks|
    ensures TaskOk(w, t)
  {
    assert TaskInv(w.ctxs, w.sems, t, w.tasks[t]);
  }

  // ---------- steps that write one task ----------

  /** Only task `t` may differ, and it keeps its home and its id. */
  ghost predicate OnlyTask(w: Sys, v: Sys, t: nat) {
    && v.ctxs == w.ctxs && |v.sems| == |w.sems| && |v.tasks| == |w.tasks|
    && t < |w.tasks| && v.tasks[t].home == w.tasks[t].home && v.tasks[t].id == w.tasks[t].id
    && v.queues.Keys == w.queues.Keys && v.workers.Keys == w.workers.Keys
    && v.pools.Keys == w.pools.Keys && v.index.Keys == w.index.Keys
    && forall u | 0 <= u < |w.tasks| && u != t :: v.tasks[u] == w.tasks[u]
  }

  lemma QueuesKept(w: Sys, v: Sys, t: nat)
    requires QueuesOk(w) && OnlyTask(w, v, t)
    requires forall slot | slot in w.queues && slot != w.tasks[t].home :: v.queues[slot] == w.queues[slot]
    requires w.tasks[t].home in w.queues ==> QueueExact(v, w.tasks[t].home, v.queues[w.tasks[t].home])
    ensures QueuesOk(v)
  {
    forall slot | slot in v.queues ensures QueueExact(v, slot, v.queues[slot]) {
      assert QueueExact(w, slot, w.queues[slot]);
    }
  }

  lemma SameQueuesKept(w: Sys, v: Sys, t: nat)
    requires QueuesOk(w) && OnlyTask(w, v, t) && v.queues == w.queues
    requires w.tasks[t].place != Queued && v.tasks[t].place != Queued
    ensures QueuesOk(v)
  {
    forall slot | slot in v.queues ensures QueueExact(v, slot, v.queues[slot]) {
      assert QueueExact(w, slot, w.queues[slot]);
      forall u: nat ensures QueuedAt(v, u, slot) <==> QueuedAt(w, u, slot) {
      }
    }
  }

  lemma BlockedKept(w: Sys, v: Sys, t: nat)
    requires BlockedOk(w) && OnlyTask(w, v, t)
    requires !w.tasks[t].place.Blocked? && !v.tasks[t].place.Blocked?
    requires forall s | 0 <= s < |w.sems| :: v.sems[s].blocked == w.sems[s].blocked
    ensures BlockedOk(v)
  {
    forall s | 0 <= s < |v.sems| ensures BlockedExact(v, s, v.sems[s].blocked) {
      assert BlockedExact(w, s, w.sems[s].blocked);
      forall u: nat ensures BlockedAt(v, u, s) <==> BlockedAt(w, u, s) {
      }
    }
  }

  lemma WorkersKept(w: Sys, v: Sys, t: nat)
    requires WorkersOk(w) && OnlyTask(w, v, t) && v.workers == w.workers
    requires v.tasks[t].place == w.tasks[t].place || (!w.tasks[t].place.Running? && !v.tasks[t].place.Running?)
    ensures WorkersOk(v)
  {
    forall worker | worker in v.workers ensures WorkerExact(v, worker, v.workers[worker]) {
      assert WorkerExact(w, worker, w.workers[worker]);
      forall u: nat ensures RunningAt(v, u, worker) <==> RunningAt(w, u, worker) {
      }
    }
  }

  lemma PoolsKept(w: Sys, v: Sys, t: nat)
    requires PoolsOk(w) && IndexOk(w) && IdsUnique(w) && OnlyTask(w, v, t) && v.pools == w.pools && v.index == w.index
    requires v.tasks[t].place.Finished? <==> w.tasks[t].place.Finished?
    ensures PoolsOk(v) && IndexOk(v) && IdsUnique(v)
  {
    assert forall u: nat, slot :: PooledAt(v, u, slot) <==> PooledAt(w, u, slot);
    forall slot | slot in v.pools ensures PoolExact(v, slot, v.pools[slot]) {
      assert PoolExact(w, slot, w.pools[slot]);
    }
    forall slot | slot in v.index ensures IndexExact(v, slot, v.index[slot]) {
      assert IndexExact(w, slot, w.index[slot]);
    }
  }

  /** The other tasks keep their invariant if no lock changes hands under them. */
  lemma TasksKept(w: Sys, v: Sys, t: nat)
    requires TasksOk(w) && OnlyTask(w, v, t)
    requires TaskInv(v.ctxs, v.sems, t, v.tasks[t])
    requires forall s, u: nat | 0 <= s < |w.sems| && u != t && w.sems[s].mtx == ByTask(u) :: v.sems[s].mtx == ByTask(u)
    ensures TasksOk(v)
  {
    forall u | 0 <= u < |v.tasks| ensures TaskInv(v.ctxs, v.sems, u, v.tasks[u]) {
      assert TaskInv(w.ctxs, w.sems, u, w.tasks[u]);
    }
  }

  lemma SameSemsKept(w: Sys, v: Sys, t: nat)
    requires SemsOk(w) && OnlyTask(w, v, t) && v.sems == w.sems
    requires v.tasks[t].resume == w.tasks[t].resume && v.tasks[t].holds == w.tasks[t].holds
    requires !w.tasks[t].place.Blocked? && !v.tasks[t].place.Blocked?
    ensures SemsOk(v)
  {
    forall s | 0 <= s < |v.sems| ensures SemInv(v, s, v.sems[s]) {
      assert SemInv(w, s, w.sems[s]);
      forall u: nat ensures WokenAt(v, u, s) <==> WokenAt(w, u, s) {
      }
    }
  }

  // ---------- the pieces of a step ----------

  lemma PushWritesTask(w: Sys, t: nat)
    requires SlotsOk(w) && TasksOk(w) && t < |w.tasks| && TaskOk(w, t)
    requires w.tasks[t].place == Moving && w.tasks[t].waiting == w.tasks[t].resume && w.tasks[t].holds == None
    ensures OnlyTask(w, Push(w, t), t)
    ensures TaskInv(w.ctxs, w.sems, t, Push(w, t).tasks[t])
  {
    assert TaskInv(w.ctxs, w.sems, t, w.tasks[t]);
  }

  lemma PushJoinsQueue(w: Sys, t: nat)
    requires TaskOk(w, t) && w.tasks[t].place == Moving
    requires QueueExact(w, w.tasks[t].home, w.queues[w.tasks[t].home])
    ensures var home := w.tasks[t].home; QueueExact(Push(w, t), home, Push(w, t).queues[home])
  {
    var v := Push(w, t);
    var home := w.tasks[t].home;
    var q := w.queues[home];
    assert !QueuedAt(w, t, home);
    forall u: nat ensures u in q + [t] <==> QueuedAt(v, u, home) {
      assert u in q <==> QueuedAt(w, u, home);
    }
  }

  lemma PushKeepsQueues(w: Sys, t: nat)
    requires SlotsOk(w) && TasksOk(w) && QueuesOk(w) && t < |w.tasks|
    requires w.tasks[t].place == Moving && w.tasks[t].waiting == w.tasks[t].resume && w.tasks[t].holds == None
    ensures TaskOk(w, t) && OnlyTask(w, Push(w, t), t)
    ensures SlotsOk(Push(w, t)) && TasksOk(Push(w, t)) && QueuesOk(Push(w, t))
  {
    TaskHasHome(w, t);
    PushWritesTask(w, t);
    TasksKept(w, Push(w, t), t);
    assert QueueExact(w, w.tasks[t].home, w.queues[w.tasks[t].home]);
    PushJoinsQueue(w, t);
    QueuesKept(w, Push(w, t), t);
  }

  /** A step of a task between a run queue, a worker and the code that moves it. */
  lemma RestKept(w: Sys, v: Sys, t: nat)
    requires RestOk(w) && OnlyTask(w, v, t) && v.sems == w.sems && v.pools == w.pools && v.index == w.index
    requires v.tasks[t].resume == w.tasks[t].resume && v.tasks[t].holds == w.tasks[t].holds
    requires w.tasks[t].place in {Moving, Queued} || w.tasks[t].place.Running?
    requires v.tasks[t].place in {Moving, Queued} || v.tasks[t].place.Running?
    ensures RestOk(v)
  {
    BlockedKept(w, v, t);
    PoolsKept(w, v, t);
    SameSemsKept(w, v, t);
  }

  lemma PushKeeps(w: Sys, t: nat)
    requires Loose(w) && t < |w.tasks|
    requires w.tasks[t].place == Moving && w.tasks[t].waiting == w.tasks[t].resume && w.tasks[t].holds == None
    ensures TaskOk(w, t) && Loose(Push(w, t)) && OnlyTask(w, Push(w, t), t)
  {
    PushKeepsQueues(w, t);
    WorkersKept(w, Push(w, t), t);
    RestKept(w, Push(w, t), t);
  }

  // ---------- taking a task from its run queue ----------

  lemma HeadIsQueued(w: Sys, slot: Slot)
    requires QueuesOk(w) && slot in w.queues && w.queues[slot] != []
    ensures QueuedAt(w, w.queues[slot][0], slot)
  {
    assert QueueExact(w, slot, w.queues[slot]);
    assert w.queues[slot][0] in w.queues[slot];
  }

  lemma PopLeavesQueue(w: Sys, slot: Slot)
    requires slot in w.queues && w.queues[slot] != [] && QueueExact(w, slot, w.queues[slot])
    requires QueuedAt(w, w.queues[slot][0], slot)
    ensures QueueExact(PopFirst(w, slot), slot, PopFirst(w, slot).queues[slot])
  {
    var q := w.queues[slot];
    var t := q[0];
    var v := PopFirst(w, slot);
    assert q == [t] + q[1..];
    forall u: nat ensures u in q[1..] <==> QueuedAt(v, u, slot) {
      assert u in q <==> QueuedAt(w, u, slot);
    }
  }

  lemma PopFirstKeepsQueues(w: Sys, slot: Slot)
    requires SlotsOk(w) && TasksOk(w) && QueuesOk(w) && slot in w.queues && w.queues[slot] != []
    requires QueuedAt(w, w.queues[slot][0], slot)
    ensures var v := PopFirst(w, slot);
      OnlyTask(w, v, w.queues[slot][0]) && SlotsOk(v) && TasksOk(v) && QueuesOk(v)
  {
    var t := w.queues[slot][0];
    var v := PopFirst(w, slot);
    assert QueueExact(w, slot, w.queues[slot]);
    assert TaskInv(w.ctxs, w.sems, t, w.tasks[t]);
    PopLeavesQueue(w, slot);
    QueuesKept(w, v, t);
    TasksKept(w, v, t);
  }

  lemma PopFirstKeeps(w: Sys, slot: Slot)
    requires Loose(w) && slot in w.queues && w.queues[slot] != [] && QueuedAt(w, w.queues[slot][0], slot)
    ensures Loose(PopFirst(w, slot)) && OnlyTask(w, PopFirst(w, slot), w.queues[slot][0])
  {
    PopFirstKeepsQueues(w, slot);
    WorkersKept(w, PopFirst(w, slot), w.queues[slot][0]);
    RestKept(w, PopFirst(w, slot), w.queues[slot][0]);
  }

  // ---------- workers ----------

  lemma EnterTakesWorker(w: Sys, worker: Slot, t: nat)
    requires WorkersOk(w) && t < |w.tasks| && w.tasks[t].place == Moving && worker in w.workers && w.workers[worker] == None
    ensures WorkersOk(Enter(w, worker, t))
  {
    var v := Enter(w, worker, t);
    forall other | other in v.workers ensures WorkerExact(v, other, v.workers[other]) {
      assert WorkerExact(w, other, w.workers[other]);
      forall u: nat ensures v.workers[other] == Some(u) <==> RunningAt(v, u, other) {
        assert w.workers[other] == Some(u) <==> RunningAt(w, u, other);
      }
    }
  }

  lemma EnterKeepsTasks(w: Sys, worker: Slot, t: nat)
    requires TasksOk(w) && t < |w.tasks| && w.tasks[t].place == Moving && w.tasks[t].holds == None && worker in w.workers
    requires SlotExists(w.ctxs, worker) && worker.ctx == w.tasks[t].home.ctx && !w.ctxs[worker.ctx].stopped
    ensures TasksOk(Enter(w, worker, t)) && OnlyTask(w, Enter(w, worker, t), t)
  {
    assert TaskInv(w.ctxs, w.sems, t, w.tasks[t]);
    TasksKept(w, Enter(w, worker, t), t);
  }

  lemma EnterKeeps(w: Sys, worker: Slot, t: nat)
    requires Loose(w) && t < |w.tasks| && w.tasks[t].place == Moving && w.tasks[t].holds == None
    requires worker in w.workers && w.workers[worker] == None
    requires SlotExists(w.ctxs, worker) && worker.ctx == w.tasks[t].home.ctx && !w.ctxs[worker.ctx].stopped
    ensures Loose(Enter(w, worker, t)) && OnlyTask(w, Enter(w, worker, t), t)
  {
    EnterKeepsTasks(w, worker, t);
    EnterTakesWorker(w, worker, t);
    SameQueuesKept(w, Enter(w, worker, t), t);
    RestKept(w, Enter(w, worker, t), t);
  }

  lemma LeaveFreesWorker(w: Sys, worker: Slot, t: nat)
    requires WorkersOk(w) && t < |w.tasks| && worker in w.workers && w.workers[worker] == Some(t)
    ensures w.tasks[t].place == Running(worker) && WorkersOk(Leave(w, worker, t))
  {
    var v := Leave(w, worker, t);
    assert WorkerExact(w, worker, w.workers[worker]);
    assert RunningAt(w, t, worker);
    forall other | other in v.workers ensures WorkerExact(v, other, v.workers[other]) {
      assert WorkerExact(w, other, w.workers[other]);
      forall u: nat ensures v.workers[other] == Some(u) <==> RunningAt(v, u, other) {
        assert w.workers[other] == Some(u) <==> RunningAt(w, u, other);
      }
    }
  }

  lemma LeaveKeepsTasks(w: Sys, worker: Slot, t: nat)
    requires TasksOk(w) && t < |w.tasks| && w.tasks[t].place == Running(worker) && worker in w.workers
    ensures TasksOk(Leave(w, worker, t)) && OnlyTask(w, Leave(w, worker, t), t)
    ensures w.tasks[t].waiting == None
  {
    assert TaskInv(w.ctxs, w.sems, t, w.tasks[t]);
    TasksKept(w, Leave(w, worker, t), t);
  }

  lemma LeaveKeeps(w: Sys, worker: Slot, t: nat)
    requires Loose(w) && t < |w.tasks| && worker in w.workers && w.workers[worker] == Some(t)
    ensures w.tasks[t].place == Running(worker) && w.tasks[t].waiting == None
    ensures Loose(Leave(w, worker, t)) && OnlyTask(w, Leave(w, worker, t), t)
  {
    LeaveFreesWorker(w, worker, t);
    LeaveKeepsTasks(w, worker, t);
    SameQueuesKept(w, Leave(w, worker, t), t);
    RestKept(w, Leave(w, worker, t), t);
  }

  // ---------- semaphores ----------

  /** Only semaphore `s` may differ. */
  ghost predicate OnlySem(w: Sys, v: Sys, s: nat) {
    && |v.sems| == |w.sems| && s < |w.sems|
    && forall r | 0 <= r < |w.sems| && r != s :: v.sems[r] == w.sems[r]
  }

  lemma SemsKept(w: Sys, v: Sys, t: nat, s: nat)
    requires SemsOk(w) && OnlyTask(w, v, t) && OnlySem(w, v, s) && SemInv(v, s, v.sems[s])
    requires w.tasks[t].resume in {None, Some(s)} && v.tasks[t].resume in {None, Some(s)}
    requires w.tasks[t].holds in {None, Some(s)}
    ensures SemsOk(v)
  {
    forall r | 0 <= r < |v.sems| ensures SemInv(v, r, v.sems[r]) {
      assert SemInv(w, r, w.sems[r]);
      if r != s {
        forall u: nat ensures WokenAt(v, u, r) <==> WokenAt(w, u, r) {
        }
      }
    }
  }

  lemma BlockedListKept(w: Sys, v: Sys, t: nat, s: nat)
    requires BlockedOk(w) && OnlyTask(w, v, t) && OnlySem(w, v, s) && BlockedExact(v, s, v.sems[s].blocked)
    requires w.tasks[t].place == Blocked(s) || !w.tasks[t].place.Blocked?
    requires v.tasks[t].place == Blocked(s) || !v.tasks[t].place.Blocked?
    ensures BlockedOk(v)
  {
    forall r | 0 <= r < |v.sems| ensures BlockedExact(v, r, v.sems[r].blocked) {
      assert BlockedExact(w, r, w.sems[r].blocked);
      if r != s {
        forall u: nat ensures BlockedAt(v, u, r) <==> BlockedAt(w, u, r) {
        }
      }
    }
  }

  lemma HeadIsBlocked(w: Sys, s: nat)
    requires BlockedOk(w) && SlotsOk(w) && TasksOk(w) && s < |w.sems| && w.sems[s].blocked != []
    ensures var t := w.sems[s].blocked[0];
      && BlockedAt(w, t, s) && TaskOk(w, t)
      && w.tasks[t].waiting == Some(s) && w.tasks[t].resume == Some(s) && w.tasks[t].holds == None
  {
    assert BlockedExact(w, s, w.sems[s].blocked);
    var t := w.sems[s].blocked[0];
    assert t in w.sems[s].blocked;
    TaskHasHome(w, t);
    assert TaskInv(w.ctxs, w.sems, t, w.tasks[t]);
  }

  lemma UnblockLeavesList(w: Sys, s: nat)
    requires s < |w.sems| && w.sems[s].blocked != [] && BlockedExact(w, s, w.sems[s].blocked)
    requires BlockedAt(w, w.sems[s].blocked[0], s)
    ensures BlockedExact(Unblock(w, s), s, Unblock(w, s).sems[s].blocked)
  {
    var q := w.sems[s].blocked;
    var v := Unblock(w, s);
    assert q == [q[0]] + q[1..];
    forall u: nat ensures u in q[1..] <==> BlockedAt(v, u, s) {
      assert u in q <==> BlockedAt(w, u, s);
    }
  }

  lemma UnblockKeepsSem(w: Sys, s: nat)
    requires SemsOk(w) && s < |w.sems| && w.sems[s].blocked != []
    requires BlockedAt(w, w.sems[s].blocked[0], s) && w.tasks[w.sems[s].blocked[0]].resume == Some(s)
    requires w.tasks[w.sems[s].blocked[0]].holds == None
    ensures SemsOk(Unblock(w, s))
  {
    var t := w.sems[s].blocked[0];
    var v := Unblock(w, s);
    assert SemInv(w, s, w.sems[s]);
    forall u: nat ensures u in v.sems[s].woken <==> WokenAt(v, u, s) {
      assert u in w.sems[s].woken <==> WokenAt(w, u, s);
    }
    SemsKept(w, v, t, s);
  }

  lemma UnblockKeepsTasks(w: Sys, s: nat)
    requires TasksOk(w) && s < |w.sems| && w.sems[s].blocked != [] && BlockedAt(w, w.sems[s].blocked[0], s)
    ensures TasksOk(Unblock(w, s)) && OnlyTask(w, Unblock(w, s), w.sems[s].blocked[0])
  {
    var t := w.sems[s].blocked[0];
    assert TaskInv(w.ctxs, w.sems, t, w.tasks[t]);
    TasksKept(w, Unblock(w, s), t);
  }

  lemma UnblockKeepsBlocked(w: Sys, s: nat)
    requires BlockedOk(w) && s < |w.sems| && w.sems[s].blocked != [] && BlockedAt(w, w.sems[s].blocked[0], s)
    requires OnlyTask(w, Unblock(w, s), w.sems[s].blocked[0])
    ensures BlockedOk(Unblock(w, s))
  {
    assert BlockedExact(w, s, w.sems[s].blocked);
    UnblockLeavesList(w, s);
    BlockedListKept(w, Unblock(w, s), w.sems[s].blocked[0], s);
  }

  lemma UnblockKeeps(w: Sys, s: nat)
    requires Loose(w) && s < |w.sems| && w.sems[s].blocked != [] && BlockedAt(w, w.sems[s].blocked[0], s)
    requires w.tasks[w.sems[s].blocked[0]].resume == Some(s) && w.tasks[w.sems[s].blocked[0]].holds == None
    ensures Loose(Unblock(w, s)) && OnlyTask(w, Unblock(w, s), w.sems[s].blocked[0])
  {
    UnblockKeepsTasks(w, s);
    UnblockKeepsBlocked(w, s);
    UnblockKeepsSem(w, s);
    SameQueuesKept(w, Unblock(w, s), w.sems[s].blocked[0]);
    WorkersKept(w, Unblock(w, s), w.sems[s].blocked[0]);
    PoolsKept(w, Unblock(w, s), w.sems[s].blocked[0]);
  }

  /** `Condition::_schedule_from_this` keeps the invariant. */
  lemma WakeKeeps(w: Sys, s: nat)
    requires Loose(w) && s < |w.sems|
    ensures w.sems[s].blocked != [] ==> TaskOk(w, w.sems[s].blocked[0])
    ensures Loose(Wake(w, s))
  {
    if w.sems[s].blocked != [] {
      HeadIsBlocked(w, s);
      UnblockKeeps(w, s);
      PushKeeps(Unblock(w, s), w.sems[s].blocked[0]);
    }
  }

  lemma SuspendJoinsList(w: Sys, s: nat, t: nat)
    requires s < |w.sems| && t < |w.tasks| && w.tasks[t].place == Moving && BlockedExact(w, s, w.sems[s].blocked)
    ensures BlockedExact(Suspend(w, s, t), s, Suspend(w, s, t).sems[s].blocked)
  {
    var q := w.sems[s].blocked;
    var v := Suspend(w, s, t);
    assert !BlockedAt(w, t, s);
    forall u: nat ensures u in q + [t] <==> BlockedAt(v, u, s) {
      assert u in q <==> BlockedAt(w, u, s);
    }
  }

  lemma SuspendKeepsSem(w: Sys, s: nat, t: nat)
    requires SemsOk(w) && s < |w.sems| && t < |w.tasks| && w.tasks[t].place == Moving
    requires w.tasks[t].holds == Some(s) && w.tasks[t].resume == None
    ensures SemsOk(Suspend(w, s, t))
  {
    var v := Suspend(w, s, t);
    assert SemInv(w, s, w.sems[s]);
    forall u: nat ensures u in v.sems[s].woken <==> WokenAt(v, u, s) {
      assert u in w.sems[s].woken <==> WokenAt(w, u, s);
    }
    SemsKept(w, v, t, s);
  }

  lemma SuspendKeepsTasks(w: Sys, s: nat, t: nat)
    requires TasksOk(w) && s < |w.sems| && t < |w.tasks| && w.tasks[t].holds == Some(s)
    ensures TasksOk(Suspend(w, s, t)) && OnlyTask(w, Suspend(w, s, t), t)
  {
    assert TaskInv(w.ctxs, w.sems, t, w.tasks[t]);
    TasksKept(w, Suspend(w, s, t), t);
  }

  lemma SuspendKeepsBlocked(w: Sys, s: nat, t: nat)
    requires BlockedOk(w) && s < |w.sems| && t < |w.tasks| && w.tasks[t].place == Moving && OnlyTask(w, Suspend(w, s, t), t)
    ensures BlockedOk(Suspend(w, s, t))
  {
    assert BlockedExact(w, s, w.sems[s].blocked);
    SuspendJoinsList(w, s, t);
    BlockedListKept(w, Suspend(w, s, t), t, s);
  }

  lemma SuspendKeepsSlots(w: Sys, s: nat, t: nat)
    requires SlotsOk(w) && s < |w.sems| && t < |w.tasks|
    ensures SlotsOk(Suspend(w, s, t))
  {
  }

  lemma SuspendKeeps(w: Sys, s: nat, t: nat)
    requires Loose(w) && s < |w.sems| && t < |w.tasks| && w.tasks[t].place == Moving
    requires w.tasks[t].holds == Some(s) && w.tasks[t].resume == None
    ensures Loose(Suspend(w, s, t)) && OnlyTask(w, Suspend(w, s, t), t)
  {
    hide SlotsOk, TasksOk, QueuesOk, BlockedOk, WorkersOk, PoolsOk, IndexOk, IdsUnique, SemsOk;
    var v := Suspend(w, s, t);
    SuspendKeepsTasks(w, s, t);
    SuspendKeepsBlocked(w, s, t);
    SuspendKeepsSlots(w, s, t);
    SuspendKeepsSem(w, s, t);
    SameQueuesKept(w, v, t);
    WorkersKept(w, v, t);
    PoolsKept(w, v, t);
  }

  /** A change of one running task's lock and of that semaphore's counters. */
  lemma LockChangeKeeps(w: Sys, v: Sys, s: nat, t: nat)
    requires Loose(w) && OnlyTask(w, v, t) && OnlySem(w, v, s)
    requires v.queues == w.queues && v.workers == w.workers && v.pools == w.pools && v.index == w.index
    requires w.tasks[t].place.Running? && v.tasks[t].place == w.tasks[t].place
    requires TasksOk(v) && SemsOk(v) && v.sems[s].blocked == w.sems[s].blocked
    ensures Loose(v)
  {
    hide TasksOk, SemsOk, QueuesOk, BlockedOk, WorkersOk, PoolsOk, IndexOk, IdsUnique;
    SameQueuesKept(w, v, t);
    BlockedKept(w, v, t);
    WorkersKept(w, v, t);
    PoolsKept(w, v, t);
  }

  lemma TakeKeepsTasks(w: Sys, s: nat, t: nat)
    requires TasksOk(w) && SemsOk(w) && s < |w.sems| && t < |w.tasks| && w.tasks[t].holds == Some(s) && w.sems[s].vacant > 0
    ensures var v := Take(w, s, t); TasksOk(v) && SemsOk(v) && OnlyTask(w, v, t) && OnlySem(w, v, s)
  {
    var v := Take(w, s, t);
    assert TaskInv(w.ctxs, w.sems, t, w.tasks[t]);
    assert SemInv(w, s, w.sems[s]);
    TasksKept(w, v, t);
    forall u: nat ensures u in v.sems[s].woken <==> WokenAt(v, u, s) {
      assert u in w.sems[s].woken <==> WokenAt(w, u, s);
    }
    SemsKept(w, v, t, s);
  }

  lemma LockSemKeepsTasks(w: Sys, s: nat, t: nat)
    requires TasksOk(w) && SemsOk(w) && s < |w.sems| && t < |w.tasks| && w.sems[s].mtx == Free
    requires w.tasks[t].place.Running? && w.tasks[t].holds == None && w.tasks[t].resume in {None, Some(s)}
    ensures var v := LockSem(w, s, t); TasksOk(v) && SemsOk(v) && OnlyTask(w, v, t) && OnlySem(w, v, s)
  {
    var v := LockSem(w, s, t);
    assert TaskInv(w.ctxs, w.sems, t, w.tasks[t]);
    assert SemInv(w, s, w.sems[s]);
    TasksKept(w, v, t);
    forall u: nat ensures u in v.sems[s].woken <==> WokenAt(v, u, s) {
      assert u in w.sems[s].woken <==> WokenAt(w, u, s);
    }
    SemsKept(w, v, t, s);
  }

  /** No task changes, and no list but those of semaphores. */
  ghost predicate SameLists(w: Sys, v: Sys) {
    v.tasks == w.tasks && v.queues == w.queues && v.workers == w.workers && v.pools == w.pools && v.index == w.index
  }

  lemma SameListsKept(w: Sys, v: Sys)
    requires SameLists(w, v) && QueuesOk(w) && WorkersOk(w) && PoolsOk(w) && IndexOk(w) && IdsUnique(w)
    ensures QueuesOk(v) && WorkersOk(v) && PoolsOk(v) && IndexOk(v) && IdsUnique(v)
  {
    forall slot | slot in v.queues ensures QueueExact(v, slot, v.queues[slot]) {
      assert QueueExact(w, slot, w.queues[slot]);
    }
    forall worker | worker in v.workers ensures WorkerExact(v, worker, v.workers[worker]) {
      assert WorkerExact(w, worker, w.workers[worker]);
    }
    forall slot | slot in v.pools ensures PoolExact(v, slot, v.pools[slot]) {
      assert PoolExact(w, slot, w.pools[slot]);
    }
    forall slot | slot in v.index ensures IndexExact(v, slot, v.index[slot]) {
      assert IndexExact(w, slot, w.index[slot]);
    }
  }

  /** A change of one semaphore's counters and lock, by no task. */
  ghost predicate SemChange(w: Sys, v: Sys, s: nat) {
    && OnlySem(w, v, s) && v == w.(sems := v.sems)
    && !w.sems[s].mtx.ByTask? && !v.sems[s].mtx.ByTask?
    && v.sems[s].vacant + v.sems[s].acquired == v.sems[s].initial + v.sems[s].released
    && v.sems[s].woken == w.sems[s].woken && v.sems[s].blocked == w.sems[s].blocked
  }

  lemma SemChangeKeepsTasks(w: Sys, v: Sys, s: nat)
    requires TasksOk(w) && SemChange(w, v, s)
    ensures TasksOk(v)
  {
    forall t | 0 <= t < |v.tasks| ensures TaskInv(v.ctxs, v.sems, t, v.tasks[t]) {
      assert TaskInv(w.ctxs, w.sems, t, w.tasks[t]);
    }
  }

  lemma SemChangeKeepsSems(w: Sys, v: Sys, s: nat)
    requires BlockedOk(w) && SemsOk(w) && SemChange(w, v, s)
    ensures BlockedOk(v) && SemsOk(v)
  {
    forall r | 0 <= r < |v.sems| ensures BlockedExact(v, r, v.sems[r].blocked) && SemInv(v, r, v.sems[r]) {
      assert BlockedExact(w, r, w.sems[r].blocked) && SemInv(w, r, w.sems[r]);
    }
  }

  lemma SemChangeKeepsSlots(w: Sys, v: Sys, s: nat)
    requires SlotsOk(w) && SemChange(w, v, s)
    ensures SlotsOk(v) && SameLists(w, v)
  {
  }

  lemma SemChangeKeeps(w: Sys, v: Sys, s: nat)
    requires Loose(w) && SemChange(w, v, s)
    ensures Loose(v)
  {
    hide SlotsOk, TasksOk, QueuesOk, WorkersOk, BlockedOk, PoolsOk, IndexOk, IdsUnique, SemsOk, SemChange, SameLists;
    SemChangeKeepsSlots(w, v, s);
    SemChangeKeepsTasks(w, v, s);
    SemChangeKeepsSems(w, v, s);
    SameListsKept(w, v);
  }

  // ---------- the end of a task ----------

  lemma DestroyLeavesLists(w: Sys, s: nat, t: nat)
    requires BlockedOk(w) && QueuesOk(w) && TaskOk(w, t) && s < |w.sems|
    requires w.tasks[t].place in {Queued, Blocked(s)}
    ensures var v := Destroy(w, s, t);
      && OnlyTask(w, v, t) && OnlySem(w, v, s)
      && BlockedExact(v, s, v.sems[s].blocked)
      && QueueExact(v, w.tasks[t].home, v.queues[w.tasks[t].home])
  {
    var v := Destroy(w, s, t);
    var home := w.tasks[t].home;
    assert BlockedExact(w, s, w.sems[s].blocked) && QueueExact(w, home, w.queues[home]);
    WithoutDistinct(w.sems[s].blocked, t);
    WithoutDistinct(w.queues[home], t);
    forall u: nat ensures u in v.sems[s].blocked <==> BlockedAt(v, u, s) {
      WithoutElement(w.sems[s].blocked, t, u);
      assert u in w.sems[s].blocked <==> BlockedAt(w, u, s);
    }
    forall u: nat ensures u in v.queues[home] <==> QueuedAt(v, u, home) {
      WithoutElement(w.queues[home], t, u);
      assert u in w.queues[home] <==> QueuedAt(w, u, home);
    }
  }

  lemma DestroyKeepsLists(w: Sys, s: nat, t: nat)
    requires BlockedOk(w) && QueuesOk(w) && TaskOk(w, t) && s < |w.sems|
    requires w.tasks[t].place in {Queued, Blocked(s)}
    ensures OnlyTask(w, Destroy(w, s, t), t) && BlockedOk(Destroy(w, s, t)) && QueuesOk(Destroy(w, s, t))
  {
    DestroyLeavesLists(w, s, t);
    BlockedListKept(w, Destroy(w, s, t), t, s);
    QueuesKept(w, Destroy(w, s, t), t);
  }

  lemma DestroyKeepsTasks(w: Sys, s: nat, t: nat)
    requires TasksOk(w) && SemsOk(w) && TaskOk(w, t) && s < |w.sems|
    requires w.tasks[t].resume == Some(s) && w.tasks[t].holds == None && OnlyTask(w, Destroy(w, s, t), t)
    ensures TasksOk(Destroy(w, s, t)) && SemsOk(Destroy(w, s, t))
  {
    var v := Destroy(w, s, t);
    assert TaskInv(w.ctxs, w.sems, t, w.tasks[t]);
    assert SemInv(w, s, w.sems[s]);
    TasksKept(w, v, t);
    forall u: nat ensures u in v.sems[s].woken <==> WokenAt(v, u, s) {
      assert u in w.sems[s].woken <==> WokenAt(w, u, s);
    }
    SemsKept(w, v, t, s);
  }

  lemma DestroyKeeps(w: Sys, s: nat, t: nat)
    requires Loose(w) && TaskOk(w, t) && s < |w.sems|
    requires w.tasks[t].place in {Queued, Blocked(s)} && w.tasks[t].resume == Some(s) && w.tasks[t].holds == None
    ensures Loose(Destroy(w, s, t)) && OnlyTask(w, Destroy(w, s, t), t)
  {
    DestroyKeepsLists(w, s, t);
    DestroyKeepsTasks(w, s, t);
    WorkersKept(w, Destroy(w, s, t), t);
    PoolsKept(w, Destroy(w, s, t), t);
  }

  lemma RetiredLeavesPools(w: Sys, t: nat)
    requires PoolsOk(w) && TaskOk(w, t) && w.tasks[t].place == Moving
    ensures PoolsOk(Retire(w, t))
  {
    var v := Retire(w, t);
    var home := w.tasks[t].home;
    forall slot | slot in v.pools ensures PoolExact(v, slot, v.pools[slot]) {
      assert PoolExact(w, slot, w.pools[slot]);
      if slot == home {
        WithoutDistinct(w.pools[home], t);
        forall u: nat ensures u in v.pools[home] <==> PooledAt(v, u, home) {
          WithoutElement(w.pools[home], t, u);
          assert u in w.pools[home] <==> PooledAt(w, u, home);
        }
      }
    }
  }

  lemma RetiredLeavesIndex(w: Sys, t: nat)
    requires IndexOk(w) && IdsUnique(w) && TaskOk(w, t) && w.tasks[t].place == Moving
    ensures IndexOk(Retire(w, t)) && IdsUnique(Retire(w, t))
  {
    var v := Retire(w, t);
    forall slot | slot in v.index ensures IndexExact(v, slot, v.index[slot]) {
      assert IndexExact(w, slot, w.index[slot]);
    }
  }

  lemma RetireLeavesPool(w: Sys, t: nat)
    requires PoolsOk(w) && IndexOk(w) && IdsUnique(w) && TaskOk(w, t) && w.tasks[t].place == Moving
    ensures PoolsOk(Retire(w, t)) && IndexOk(Retire(w, t)) && IdsUnique(Retire(w, t))
  {
    hide PoolsOk, IndexOk, IdsUnique;
    RetiredLeavesPools(w, t);
    RetiredLeavesIndex(w, t);
  }

  lemma RetireKeepsTasks(w: Sys, t: nat)
    requires TasksOk(w) && SemsOk(w) && TaskOk(w, t) && w.tasks[t].place == Moving
    requires w.tasks[t].resume == None && w.tasks[t].holds == None
    ensures TasksOk(Retire(w, t)) && SemsOk(Retire(w, t)) && OnlyTask(w, Retire(w, t), t)
  {
    assert TaskInv(w.ctxs, w.sems, t, w.tasks[t]);
    TasksKept(w, Retire(w, t), t);
    SameSemsKept(w, Retire(w, t), t);
  }

  lemma RetireKeeps(w: Sys, t: nat)
    requires Loose(w) && TaskOk(w, t) && w.tasks[t].place == Moving
    requires w.tasks[t].resume == None && w.tasks[t].holds == None
    ensures Loose(Retire(w, t)) && OnlyTask(w, Retire(w, t), t)
  {
    RetireKeepsTasks(w, t);
    RetireLeavesPool(w, t);
    SameQueuesKept(w, Retire(w, t), t);
    BlockedKept(w, Retire(w, t), t);
    WorkersKept(w, Retire(w, t), t);
  }

  // ---------- growth ----------

  lemma CreateKeepsSlots(w: Sys, c: nat)
    requires SlotsOk(w) && Enabled(w, Spawn(c))
    ensures SlotsOk(Create(w, c))
  {
    var v := Create(w, c);
    assert forall slot :: SlotExists(v.ctxs, slot) <==> SlotExists(w.ctxs, slot);
  }

  lemma CreateKeepsTasks(w: Sys, c: nat)
    requires SlotsOk(w) && TasksOk(w) && Enabled(w, Spawn(c))
    ensures TasksOk(Create(w, c))
  {
    var v := Create(w, c);
    forall t | 0 <= t < |v.tasks| ensures TaskInv(v.ctxs, v.sems, t, v.tasks[t]) {
      assert t < |w.tasks| ==> TaskInv(w.ctxs, w.sems, t, w.tasks[t]);
    }
  }

  lemma CreateKeepsSems(w: Sys, c: nat)
    requires SemsOk(w) && Enabled(w, Spawn(c))
    ensures SemsOk(Create(w, c))
  {
    var v := Create(w, c);
    forall s | 0 <= s < |v.sems| ensures SemInv(v, s, v.sems[s]) {
      assert SemInv(w, s, w.sems[s]);
      forall u: nat ensures WokenAt(v, u, s) <==> WokenAt(w, u, s) {
      }
    }
  }

  lemma CreateKeepsLists(w: Sys, c: nat)
    requires QueuesOk(w) && BlockedOk(w) && WorkersOk(w) && Enabled(w, Spawn(c))
    ensures QueuesOk(Create(w, c)) && BlockedOk(Create(w, c)) && WorkersOk(Create(w, c))
  {
    var v := Create(w, c);
    var home := v.tasks[|w.tasks|].home;
    forall slot | slot in v.queues ensures QueueExact(v, slot, v.queues[slot]) {
      assert QueueExact(w, slot, w.queues[slot]);
      assert |w.tasks| in w.queues[slot] <==> QueuedAt(w, |w.tasks|, slot);
      AppendDistinct(w.queues[slot], |w.tasks|);
      forall u: nat ensures u in v.queues[slot] <==> QueuedAt(v, u, slot) {
        assert u in w.queues[slot] <==> QueuedAt(w, u, slot);
      }
    }
    forall s | 0 <= s < |v.sems| ensures BlockedExact(v, s, v.sems[s].blocked) {
      assert BlockedExact(w, s, w.sems[s].blocked);
      forall u: nat ensures BlockedAt(v, u, s) <==> BlockedAt(w, u, s) {
      }
    }
    forall worker | worker in v.workers ensures WorkerExact(v, worker, v.workers[worker]) {
      assert WorkerExact(w, worker, w.workers[worker]);
      forall u: nat ensures RunningAt(v, u, worker) <==> RunningAt(w, u, worker) {
      }
    }
  }

  lemma CreateKeepsPools(w: Sys, c: nat)
    requires PoolsOk(w) && Enabled(w, Spawn(c))
    ensures PoolsOk(Create(w, c))
  {
    var v := Create(w, c);
    forall slot | slot in v.pools ensures PoolExact(v, slot, v.pools[slot]) {
      assert PoolExact(w, slot, w.pools[slot]);
      assert |w.tasks| in w.pools[slot] <==> PooledAt(w, |w.tasks|, slot);
      AppendDistinct(w.pools[slot], |w.tasks|);
      forall u: nat ensures u in v.pools[slot] <==> PooledAt(v, u, slot) {
        assert u in w.pools[slot] <==> PooledAt(w, u, slot);
      }
    }
  }

  lemma IdsAreBelow(w: Sys, c: nat)
    requires TasksOk(w) && c < |w.ctxs|
    ensures forall t | 0 <= t < |w.tasks| && w.tasks[t].home.ctx == c :: w.tasks[t].id < w.ctxs[c].nextId
  {
    forall t | 0 <= t < |w.tasks| && w.tasks[t].home.ctx == c ensures w.tasks[t].id < w.ctxs[c].nextId {
      assert TaskInv(w.ctxs, w.sems, t, w.tasks[t]);
    }
  }

  lemma CreateIsIndexed(w: Sys, c: nat)
    requires Enabled(w, Spawn(c))
    requires forall t | 0 <= t < |w.tasks| && w.tasks[t].home.ctx == c :: w.tasks[t].id < w.ctxs[c].nextId
    requires var home := Slot(c, w.ctxs[c].nextId % w.ctxs[c].parts); IndexExact(w, home, w.index[home])
    ensures var home := Slot(c, w.ctxs[c].nextId % w.ctxs[c].parts);
      IndexExact(Create(w, c), home, Indexed(w.index[home], w.ctxs[c].nextId, |w.tasks|))
  {
    var v := Create(w, c);
    var home := Slot(c, w.ctxs[c].nextId % w.ctxs[c].parts);
    assert forall u: nat | u < |w.tasks| :: PooledAt(v, u, home) <==> PooledAt(w, u, home);
  }

  lemma CreateKeepsIndex(w: Sys, c: nat)
    requires IndexOk(w) && Enabled(w, Spawn(c))
    requires forall t | 0 <= t < |w.tasks| && w.tasks[t].home.ctx == c :: w.tasks[t].id < w.ctxs[c].nextId
    ensures IndexOk(Create(w, c))
  {
    hide Indexed;
    var v := Create(w, c);
    var home := Slot(c, w.ctxs[c].nextId % w.ctxs[c].parts);
    CreateIsIndexed(w, c);
    forall slot | slot in v.index ensures IndexExact(v, slot, v.index[slot]) {
      if slot != home {
        assert IndexExact(w, slot, w.index[slot]);
        assert forall u: nat :: PooledAt(v, u, slot) <==> PooledAt(w, u, slot);
      }
    }
  }

  lemma CreateKeepsIds(w: Sys, c: nat)
    requires IdsUnique(w) && Enabled(w, Spawn(c))
    requires forall t | 0 <= t < |w.tasks| && w.tasks[t].home.ctx == c :: w.tasks[t].id < w.ctxs[c].nextId
    ensures IdsUnique(Create(w, c))
  {
  }

  lemma CreateKeeps(w: Sys, c: nat)
    requires Loose(w) && Enabled(w, Spawn(c))
    ensures Loose(Create(w, c))
  {
    hide SlotsOk, QueuesOk, WorkersOk, BlockedOk, PoolsOk, IndexOk, IdsUnique, SemsOk;
    CreateKeepsSlots(w, c);
    CreateKeepsTasks(w, c);
    CreateKeepsSems(w, c);
    CreateKeepsLists(w, c);
    CreateKeepsPools(w, c);
    IdsAreBelow(w, c);
    CreateKeepsIndex(w, c);
    CreateKeepsIds(w, c);
  }

  lemma NewSemaphoreKeepsTasks(w: Sys, vacant: nat)
    requires SlotsOk(w) && TasksOk(w)
    ensures var v := AddSemaphore(w, vacant); SlotsOk(v) && TasksOk(v) && SameLists(w, v)
  {
    var v := AddSemaphore(w, vacant);
    forall t | 0 <= t < |v.tasks| ensures TaskInv(v.ctxs, v.sems, t, v.tasks[t]) {
      assert TaskInv(w.ctxs, w.sems, t, w.tasks[t]);
    }
  }

  lemma NewSemaphoreKeeps(w: Sys, vacant: nat)
    requires Loose(w)
    ensures Loose(AddSemaphore(w, vacant))
  {
    hide SlotsOk, TasksOk, QueuesOk, WorkersOk, BlockedOk, PoolsOk, IndexOk, IdsUnique, SemsOk, SameLists;
    NewSemaphoreKeepsTasks(w, vacant);
    SameListsKept(w, AddSemaphore(w, vacant));
    NewSemaphoreIsEmpty(w, vacant);
  }

  lemma NewSemaphoreIsEmpty(w: Sys, vacant: nat)
    requires TasksOk(w) && SemsOk(w) && BlockedOk(w)
    ensures SemsOk(AddSemaphore(w, vacant)) && BlockedOk(AddSemaphore(w, vacant))
  {
    var v := AddSemaphore(w, vacant);
    forall s | 0 <= s < |v.sems| ensures SemInv(v, s, v.sems[s]) && BlockedExact(v, s, v.sems[s].blocked) {
      if s < |w.sems| {
        assert SemInv(w, s, w.sems[s]) && BlockedExact(w, s, w.sems[s].blocked);
      } else {
        forall t: nat ensures !WokenAt(v, t, s) && !BlockedAt(v, t, s) {
          if t < |w.tasks| {
            assert TaskInv(w.ctxs, w.sems, t, w.tasks[t]);
          }
        }
      }
    }
  }

  lemma StopKeepsTasks(w: Sys, c: nat)
    requires TasksOk(w) && WorkersOk(w) && SlotsOk(w) && Enabled(w, Stop(c))
    ensures TasksOk(StopContext(w, c))
  {
    var v := StopContext(w, c);
    forall t | 0 <= t < |v.tasks| ensures TaskInv(v.ctxs, v.sems, t, v.tasks[t]) {
      assert TaskInv(w.ctxs, w.sems, t, w.tasks[t]);
      if w.tasks[t].place.Running? {
        var worker := w.tasks[t].place.worker;
        assert WorkerExact(w, worker, w.workers[worker]);
        assert RunningAt(w, t, worker);
      }
    }
  }

  lemma StopKeepsSlots(w: Sys, c: nat)
    requires SlotsOk(w) && Enabled(w, Stop(c))
    ensures SlotsOk(StopContext(w, c)) && SameLists(w, StopContext(w, c))
  {
    var v := StopContext(w, c);
    assert forall slot :: SlotExists(v.ctxs, slot) <==> SlotExists(w.ctxs, slot);
  }

  lemma StopKeeps(w: Sys, c: nat)
    requires Loose(w) && Enabled(w, Stop(c))
    ensures Loose(StopContext(w, c))
  {
    hide SlotsOk, TasksOk, QueuesOk, WorkersOk, BlockedOk, PoolsOk, IndexOk, IdsUnique, SemsOk, SameLists;
    StopKeepsSlots(w, c);
    StopKeepsTasks(w, c);
    SameListsKept(w, StopContext(w, c));
    StopKeepsSems(w, c);
  }

  lemma StopKeepsSems(w: Sys, c: nat)
    requires SemsOk(w) && BlockedOk(w) && Enabled(w, Stop(c))
    ensures SemsOk(StopContext(w, c)) && BlockedOk(StopContext(w, c))
  {
    var v := StopContext(w, c);
    forall s | 0 <= s < |v.sems| ensures SemInv(v, s, v.sems[s]) && BlockedExact(v, s, v.sems[s].blocked) {
      assert SemInv(w, s, w.sems[s]) && BlockedExact(w, s, w.sems[s].blocked);
    }
  }

  lemma SlotsAdded(w: Sys, parts: nat)
    ensures forall slot :: SlotExists(AddContext(w, parts).ctxs, slot) <==>
      SlotExists(w.ctxs, slot) || (slot.ctx == |w.ctxs| && slot.part < parts)
  {
  }

  lemma AddContextKeepsSlots(w: Sys, parts: nat)
    requires SlotsOk(w) && parts > 0
    ensures SlotsOk(AddContext(w, parts))
  {
    hide SlotExists;
    SlotsAdded(w, parts);
  }

  lemma AddContextKeepsTasks(w: Sys, parts: nat)
    requires TasksOk(w) && SemsOk(w) && BlockedOk(w)
    ensures var v := AddContext(w, parts); TasksOk(v) && SemsOk(v) && BlockedOk(v)
  {
    var v := AddContext(w, parts);
    forall t | 0 <= t < |v.tasks| ensures TaskInv(v.ctxs, v.sems, t, v.tasks[t]) {
      assert TaskInv(w.ctxs, w.sems, t, w.tasks[t]);
    }
    forall s | 0 <= s < |v.sems| ensures SemInv(v, s, v.sems[s]) && BlockedExact(v, s, v.sems[s].blocked) {
      assert SemInv(w, s, w.sems[s]) && BlockedExact(w, s, w.sems[s].blocked);
    }
  }

  /** No task is at a slot that does not exist yet. */
  lemma NoTaskAt(w: Sys, v: Sys, slot: Slot)
    requires TasksOk(w) && !SlotExists(w.ctxs, slot) && v.tasks == w.tasks
    ensures forall t: nat :: !QueuedAt(v, t, slot) && !RunningAt(v, t, slot) && !PooledAt(v, t, slot)
  {
    forall t: nat | t < |w.tasks| ensures w.tasks[t].home != slot && w.tasks[t].place != Running(slot) {
      assert TaskInv(w.ctxs, w.sems, t, w.tasks[t]);
    }
  }

  /** What a context adds to a table: empty entries at slots that did not exist. */
  ghost predicate Extends<V>(ctxs: seq<Ctx>, old': map<Slot, V>, new': map<Slot, V>, empty: V) {
    forall slot | slot in new' ::
      if slot in old' then new'[slot] == old'[slot] else !SlotExists(ctxs, slot) && new'[slot] == empty
  }

  lemma AddContextExtends(w: Sys, parts: nat)
    requires SlotsOk(w)
    ensures var v := AddContext(w, parts);
      && v.tasks == w.tasks && v.sems == w.sems
      && Extends(w.ctxs, w.queues, v.queues, []) && Extends(w.ctxs, w.workers, v.workers, None)
      && Extends(w.ctxs, w.pools, v.pools, []) && Extends(w.ctxs, w.index, v.index, map[])
  {
  }

  /** The new slots are empty, and no task is there. */
  lemma AddContextKeepsQueues(w: Sys, parts: nat)
    requires SlotsOk(w) && TasksOk(w) && QueuesOk(w) && parts > 0
    ensures QueuesOk(AddContext(w, parts))
  {
    hide TasksOk, TaskInv, AddContext, SlotsOk;
    AddContextExtends(w, parts);
    var v := AddContext(w, parts);
    forall slot | slot in v.queues ensures QueueExact(v, slot, v.queues[slot]) {
      if slot in w.queues {
        assert QueueExact(w, slot, w.queues[slot]);
      } else {
        NoTaskAt(w, v, slot);
      }
    }
  }

  lemma AddContextKeepsWorkers(w: Sys, parts: nat)
    requires SlotsOk(w) && TasksOk(w) && WorkersOk(w) && parts > 0
    ensures WorkersOk(AddContext(w, parts))
  {
    hide TasksOk, TaskInv, AddContext, SlotsOk;
    AddContextExtends(w, parts);
    var v := AddContext(w, parts);
    forall worker | worker in v.workers ensures WorkerExact(v, worker, v.workers[worker]) {
      if worker in w.workers {
        assert WorkerExact(w, worker, w.workers[worker]);
      } else {
        NoTaskAt(w, v, worker);
      }
    }
  }

  lemma AddContextKeepsPools(w: Sys, parts: nat)
    requires SlotsOk(w) && TasksOk(w) && PoolsOk(w) && parts > 0
    ensures PoolsOk(AddContext(w, parts))
  {
    hide TasksOk, TaskInv, AddContext, SlotsOk;
    AddContextExtends(w, parts);
    var v := AddContext(w, parts);
    forall slot | slot in v.pools ensures PoolExact(v, slot, v.pools[slot]) {
      if slot in w.pools {
        assert PoolExact(w, slot, w.pools[slot]);
      } else {
        NoTaskAt(w, v, slot);
      }
    }
  }

  lemma AddContextKeepsIndex(w: Sys, parts: nat)
    requires SlotsOk(w) && TasksOk(w) && IndexOk(w) && IdsUnique(w) && parts > 0
    ensures IndexOk(AddContext(w, parts)) && IdsUnique(AddContext(w, parts))
  {
    hide TasksOk, TaskInv, AddContext, SlotsOk;
    AddContextExtends(w, parts);
    var v := AddContext(w, parts);
    forall slot | slot in v.index ensures IndexExact(v, slot, v.index[slot]) {
      if slot in w.index {
        assert IndexExact(w, slot, w.index[slot]);
      } else {
        NoTaskAt(w, v, slot);
      }
    }
  }

  lemma AddContextKeeps(w: Sys, parts: nat)
    requires Loose(w) && parts > 0
    ensures Loose(AddContext(w, parts))
  {
    AddContextKeepsSlots(w, parts);
    AddContextKeepsTasks(w, parts);
    AddContextKeepsQueues(w, parts);
    AddContextKeepsWorkers(w, parts);
    AddContextKeepsPools(w, parts);
    AddContextKeepsIndex(w, parts);
  }
}
