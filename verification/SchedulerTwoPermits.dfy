/** With two permits a torn-down context can swallow a wake-up: a run after which a
    permit is free, a task waits for it, and nobody is on the way. */
module SchedulerTwoPermits {
  import opened Basics
  import opened SchedulerModel
  import opened SchedulerPermits

  const FIRST: Slot := Slot(0, 0)
  const SECOND: Slot := Slot(1, 0)

  /** Context 0 has task 0, context 1 has tasks 1 and 2; all use semaphore 0. */
  function System(tasks: seq<Task>, sem: Sem, first: seq<nat>, second: seq<nat>, current: seq<Option<nat>>, stopped: bool): Sys
    requires |current| == 2
  {
    Sys([Ctx(1, 1, stopped), Ctx(1, 2, false)], tasks, [sem],
        map[FIRST := first, SECOND := second], map[FIRST := current[0], SECOND := current[1]],
        map[FIRST := [0], SECOND := [1, 2]], map[FIRST := map[0 := 0], SECOND := map[0 := 1, 1 := 2]])
  }

  function Ready(home: Slot, id: nat): Task {
    Task(home, id, Queued, None, None, None)
  }

  function Waiting(home: Slot, id: nat, place: Place): Task {
    Task(home, id, place, Some(0), Some(0), None)
  }

  function Permits(vacant: nat, blocked: seq<nat>, scheduled: Option<nat>, woken: set<nat>, acquired: nat, released: nat): Sem {
    Sem(0, vacant, blocked, scheduled, Free, woken, acquired, released)
  }

  const IDLE: seq<Option<nat>> := [None, None]

  const BUILT: Sys := System([Ready(FIRST, 0), Ready(SECOND, 0), Ready(SECOND, 1)], Permits(0, [], None, {}, 0, 0), [0], [1, 2], IDLE, false)
  const WAITING: Sys :=
    System([Waiting(FIRST, 0, Blocked(0)), Waiting(SECOND, 0, Blocked(0)), Waiting(SECOND, 1, Blocked(0))],
           Permits(0, [0, 1, 2], None, {}, 0, 0), [], [], IDLE, false)
  const HALFWAY: Sys :=
    System([Waiting(FIRST, 0, Queued), Waiting(SECOND, 0, Blocked(0)), Waiting(SECOND, 1, Blocked(0))],
           Permits(1, [1, 2], Some(0), {0}, 0, 1), [0], [], IDLE, false)
  const AWAKE: Sys :=
    System([Waiting(FIRST, 0, Queued), Waiting(SECOND, 0, Queued), Waiting(SECOND, 1, Blocked(0))],
           Permits(2, [2], Some(1), {0, 1}, 0, 2), [0], [1], IDLE, false)
  const TORN: Sys :=
    System([Task(FIRST, 0, Destroyed, None, None, None), Waiting(SECOND, 0, Queued), Waiting(SECOND, 1, Blocked(0))],
           Permits(2, [2], Some(1), {1}, 0, 2), [], [1], IDLE, true)
  const LOST: Sys :=
    System([Task(FIRST, 0, Destroyed, None, None, None), Task(SECOND, 0, Running(SECOND), None, None, None), Waiting(SECOND, 1, Blocked(0))],
           Permits(1, [2], None, {}, 1, 2), [], [], [None, Some(1)], true)

  const BUILD: seq<Step> := [NewSemaphore(0), NewContext(1), NewContext(1)] + [Spawn(0), Spawn(1), Spawn(1)]

  function Blocking(worker: Slot): seq<Step> {
    [Pop(worker, 0), Acquire(worker, 0), Attempt(worker)]
  }

  const BLOCKS: seq<Step> := Blocking(FIRST) + Blocking(SECOND) + Blocking(SECOND)
  const RELEASES: seq<Step> := [Release(0), Notify(0)] + [Release(0), Notify(0)]
  const TEARDOWN: seq<Step> := [Stop(0), Remove(0)]
  const RETRY: seq<Step> := [Pop(SECOND, 0), Retry(SECOND), Attempt(SECOND)]

  lemma TwoSteps(w: Sys, a: Step, b: Step)
    requires Enabled(w, a) && Enabled(Next(w, a), b)
    ensures Valid(w, [a, b]) && Execute(w, [a, b]) == Next(Next(w, a), b)
  {
    hide Enabled, Next;
    OneStep(w, a);
    OneStep(Next(w, a), b);
    ValidConcat(w, [a], [b]);
    assert [a] + [b] == [a, b];
  }

  lemma ThreeSteps(w: Sys, a: Step, b: Step, c: Step)
    requires Enabled(w, a) && Enabled(Next(w, a), b) && Enabled(Next(Next(w, a), b), c)
    ensures Valid(w, [a, b, c]) && Execute(w, [a, b, c]) == Next(Next(Next(w, a), b), c)
  {
    hide Enabled, Next;
    TwoSteps(w, a, b);
    OneStep(Next(Next(w, a), b), c);
    ValidConcat(w, [a, b], [c]);
    assert [a, b] + [c] == [a, b, c];
  }

  /** The system before any task is spawned. */
  const EMPTY: Sys :=
    Sys([Ctx(1, 0, false), Ctx(1, 0, false)], [], [Permits(0, [], None, {}, 0, 0)],
        map[FIRST := [], SECOND := []], map[FIRST := None, SECOND := None],
        map[FIRST := [], SECOND := []], map[FIRST := map[], SECOND := map[]])

  lemma FreshSlot<V>(c: nat, contents: V)
    ensures Fresh(c, 1, contents) == map[Slot(c, 0) := contents]
  {
    assert forall slot: Slot | slot.ctx == c && slot.part < 1 :: slot == Slot(c, 0);
  }

  lemma EmptyReached()
    ensures Valid(INITIAL, [NewSemaphore(0), NewContext(1), NewContext(1)])
    ensures Execute(INITIAL, [NewSemaphore(0), NewContext(1), NewContext(1)]) == EMPTY
  {
    hide Fresh;
    FreshSlot<seq<nat>>(0, []);
    FreshSlot<seq<nat>>(1, []);
    FreshSlot<Option<nat>>(0, None);
    FreshSlot<Option<nat>>(1, None);
    FreshSlot<map<nat, nat>>(0, map[]);
    FreshSlot<map<nat, nat>>(1, map[]);
    ThreeSteps(INITIAL, NewSemaphore(0), NewContext(1), NewContext(1));
    var w := AddContext(AddContext(AddSemaphore(INITIAL, 0), 1), 1);
    assert w.ctxs == EMPTY.ctxs && w.sems == EMPTY.sems && w.tasks == EMPTY.tasks;
    assert w.queues == EMPTY.queues && w.workers == EMPTY.workers;
    assert w.pools == EMPTY.pools && w.index == EMPTY.index;
  }

  const ONE: Sys :=
    Sys([Ctx(1, 1, false), Ctx(1, 0, false)], [Ready(FIRST, 0)], [Permits(0, [], None, {}, 0, 0)],
        map[FIRST := [0], SECOND := []], map[FIRST := None, SECOND := None],
        map[FIRST := [0], SECOND := []], map[FIRST := map[0 := 0], SECOND := map[]])
  const TWO: Sys :=
    Sys([Ctx(1, 1, false), Ctx(1, 1, false)], [Ready(FIRST, 0), Ready(SECOND, 0)], [Permits(0, [], None, {}, 0, 0)],
        map[FIRST := [0], SECOND := [1]], map[FIRST := None, SECOND := None],
        map[FIRST := [0], SECOND := [1]], map[FIRST := map[0 := 0], SECOND := map[0 := 1]])

  lemma FirstSpawn()
    ensures Enabled(EMPTY, Spawn(0)) && Next(EMPTY, Spawn(0)) == ONE
  {
    var w := Create(EMPTY, 0);
    assert w.tasks[0].home == FIRST && w.queues[FIRST] == [0] && w.pools[FIRST] == [0];
    assert w.queues == ONE.queues && w.pools == ONE.pools && w.index[FIRST] == ONE.index[FIRST];
    assert w.index == ONE.index;
  }

  lemma SecondSpawn()
    ensures Enabled(ONE, Spawn(1)) && Next(ONE, Spawn(1)) == TWO
  {
    var w := Create(ONE, 1);
    assert w.tasks[1].home == SECOND && w.queues[SECOND] == [1] && w.pools[SECOND] == [1];
    assert w.queues == TWO.queues && w.pools == TWO.pools && w.index[SECOND] == TWO.index[SECOND];
    assert w.index == TWO.index;
  }

  lemma ThirdSpawn()
    ensures Enabled(TWO, Spawn(1)) && Next(TWO, Spawn(1)) == BUILT
  {
    var w := Create(TWO, 1);
    assert w.tasks[2].home == SECOND && w.queues[SECOND] == [1, 2] && w.pools[SECOND] == [1, 2];
    assert w.queues == BUILT.queues && w.pools == BUILT.pools && w.index[SECOND] == BUILT.index[SECOND];
    assert w.index == BUILT.index;
  }

  lemma SpawnsReach()
    ensures Valid(EMPTY, [Spawn(0), Spawn(1), Spawn(1)])
    ensures Execute(EMPTY, [Spawn(0), Spawn(1), Spawn(1)]) == BUILT
  {
    hide Enabled, Next, Valid, Execute;
    FirstSpawn();
    SecondSpawn();
    ThirdSpawn();
    ThreeSteps(EMPTY, Spawn(0), Spawn(1), Spawn(1));
  }

  function Popped(w: Sys, worker: Slot, t: nat): Sys
    requires worker in w.queues && w.queues[worker] != [] && t < |w.tasks|
  {
    w.(queues := w.queues[worker := w.queues[worker][1..]], workers := w.workers[worker := Some(t)],
       tasks := w.tasks[t := w.tasks[t].(place := Running(worker), waiting := None)])
  }

  lemma ReadyIsPopped(w: Sys, worker: Slot, t: nat)
    requires worker.part == 0 && SlotOk(w, worker) && TaskOk(w, t) && !w.ctxs[worker.ctx].stopped && w.workers[worker] == None
    requires w.queues[worker] != [] && w.queues[worker][0] == t
    ensures Enabled(w, Pop(worker, 0)) && Next(w, Pop(worker, 0)) == Popped(w, worker, t)
  {
    var v := Next(w, Pop(worker, 0));
    assert v.tasks == Popped(w, worker, t).tasks;
  }

  lemma PoppedBlocks(w: Sys, worker: Slot, t: nat)
    requires Runs(w, worker) && Current(w, worker) == t
    requires w.tasks[t].holds == None && w.tasks[t].resume == None && w.tasks[t].waiting == None
    requires w.sems != [] && w.sems[0].mtx == Free && w.sems[0].vacant == 0
    ensures Enabled(w, Acquire(worker, 0)) && Enabled(Next(w, Acquire(worker, 0)), Attempt(worker))
    ensures Next(Next(w, Acquire(worker, 0)), Attempt(worker)) ==
      w.(workers := w.workers[worker := None],
         tasks := w.tasks[t := w.tasks[t].(place := Blocked(0), waiting := Some(0), resume := Some(0))],
         sems := w.sems[0 := w.sems[0].(blocked := w.sems[0].blocked + [t])])
  {
    var v := Next(Next(w, Acquire(worker, 0)), Attempt(worker));
    assert v.tasks == w.tasks[t := w.tasks[t].(place := Blocked(0), waiting := Some(0), resume := Some(0))];
    assert v.sems == w.sems[0 := w.sems[0].(blocked := w.sems[0].blocked + [t])];
  }

  /** A task that finds no permit: popped, it locks, and blocks. */
  lemma NoPermitBlocks(w: Sys, worker: Slot, t: nat)
    requires worker.part == 0 && SlotOk(w, worker) && TaskOk(w, t) && !w.ctxs[worker.ctx].stopped && w.workers[worker] == None
    requires w.queues[worker] != [] && w.queues[worker][0] == t
    requires w.tasks[t] == Ready(worker, w.tasks[t].id)
    requires w.sems != [] && w.sems[0].mtx == Free && w.sems[0].vacant == 0
    ensures Valid(w, Blocking(worker))
    ensures Execute(w, Blocking(worker)) ==
      w.(queues := w.queues[worker := w.queues[worker][1..]],
         tasks := w.tasks[t := Waiting(worker, w.tasks[t].id, Blocked(0))],
         sems := w.sems[0 := w.sems[0].(blocked := w.sems[0].blocked + [t])])
  {
    hide Enabled, Next;
    ReadyIsPopped(w, worker, t);
    var popped := Popped(w, worker, t);
    PoppedBlocks(popped, worker, t);
    ThreeSteps(w, Pop(worker, 0), Acquire(worker, 0), Attempt(worker));
    var v := Execute(w, Blocking(worker));
    assert v.workers == w.workers;
    assert v.tasks == w.tasks[t := Waiting(worker, w.tasks[t].id, Blocked(0))];
  }

  lemma AllBlock()
    ensures var steps := Blocking(FIRST) + Blocking(SECOND) + Blocking(SECOND);
      Valid(BUILT, steps) && Execute(BUILT, steps) == WAITING
  {
    hide Valid, Execute;
    NoPermitBlocks(BUILT, FIRST, 0);
    var w1 := Execute(BUILT, Blocking(FIRST));
    NoPermitBlocks(w1, SECOND, 1);
    var w2 := Execute(w1, Blocking(SECOND));
    NoPermitBlocks(w2, SECOND, 2);
    var w3 := Execute(w2, Blocking(SECOND));
    ValidConcat(BUILT, Blocking(FIRST), Blocking(SECOND));
    ValidConcat(BUILT, Blocking(FIRST) + Blocking(SECOND), Blocking(SECOND));
    assert w3.sems[0].blocked == [0, 1, 2];
    assert w3.queues[FIRST] == [] && w3.queues[SECOND] == [];
    assert w3.queues == WAITING.queues;
    assert w3.tasks == WAITING.tasks && w3.sems == WAITING.sems;
  }

  lemma FirstReleaseWakes()
    ensures Valid(WAITING, [Release(0), Notify(0)]) && Execute(WAITING, [Release(0), Notify(0)]) == HALFWAY
  {
    TwoSteps(WAITING, Release(0), Notify(0));
    var v := NotifyOne(AddPermit(WAITING, 0), 0);
    assert v.queues[FIRST] == [0] && v.queues == HALFWAY.queues;
    assert v.tasks == HALFWAY.tasks;
    assert v.sems[0].woken == HALFWAY.sems[0].woken && v.sems[0].blocked == [1, 2];
    assert v.sems == HALFWAY.sems;
  }

  lemma SecondReleaseWakes()
    ensures Valid(HALFWAY, [Release(0), Notify(0)]) && Execute(HALFWAY, [Release(0), Notify(0)]) == AWAKE
  {
    TwoSteps(HALFWAY, Release(0), Notify(0));
    var v := NotifyOne(AddPermit(HALFWAY, 0), 0);
    assert v.queues[SECOND] == [1] && v.queues == AWAKE.queues;
    assert v.tasks == AWAKE.tasks;
    assert v.sems[0].woken == AWAKE.sems[0].woken && v.sems[0].blocked == [2];
    assert v.sems == AWAKE.sems;
  }

  const STOPPED: Sys :=
    System([Waiting(FIRST, 0, Queued), Waiting(SECOND, 0, Queued), Waiting(SECOND, 1, Blocked(0))],
           Permits(2, [2], Some(1), {0, 1}, 0, 2), [0], [1], IDLE, true)

  lemma FirstStops()
    ensures Enabled(AWAKE, Stop(0)) && Next(AWAKE, Stop(0)) == STOPPED
  {
    assert Next(AWAKE, Stop(0)).ctxs == STOPPED.ctxs;
  }

  lemma FirstIsRemoved()
    ensures Enabled(STOPPED, Remove(0)) && Next(STOPPED, Remove(0)) == TORN
  {
    assert Without([2], 0) == [2] && Without([0], 0) == [];
    var v := Destroy(STOPPED, 0, 0);
    assert v.queues == TORN.queues;
    assert v.tasks == TORN.tasks;
    assert v.sems[0].woken == {1} && v.sems == TORN.sems;
  }

  lemma TeardownSwallows()
    ensures Valid(AWAKE, TEARDOWN) && Execute(AWAKE, TEARDOWN) == TORN
  {
    hide Enabled, Next, Valid, Execute;
    FirstStops();
    FirstIsRemoved();
    TwoSteps(AWAKE, Stop(0), Remove(0));
  }

  const POPPED: Sys :=
    System([Task(FIRST, 0, Destroyed, None, None, None), Task(SECOND, 0, Running(SECOND), None, Some(0), None),
            Waiting(SECOND, 1, Blocked(0))],
           Permits(2, [2], Some(1), {1}, 0, 2), [], [], [None, Some(1)], true)
  const LOCKED: Sys :=
    System([Task(FIRST, 0, Destroyed, None, None, None), Task(SECOND, 0, Running(SECOND), None, None, Some(0)),
            Waiting(SECOND, 1, Blocked(0))],
           Sem(0, 2, [2], None, ByTask(1), {}, 0, 2), [], [], [None, Some(1)], true)

  lemma WokenIsPopped()
    ensures Enabled(TORN, Pop(SECOND, 0)) && Next(TORN, Pop(SECOND, 0)) == POPPED
  {
    var v := Enter(PopFirst(TORN, SECOND), SECOND, 1);
    assert v.queues[SECOND] == [] && v.queues == POPPED.queues;
    assert v.workers == POPPED.workers;
    assert v.tasks == POPPED.tasks;
  }

  lemma WokenLocks()
    ensures Enabled(POPPED, Retry(SECOND)) && Next(POPPED, Retry(SECOND)) == LOCKED
  {
    var v := LockSem(POPPED, 0, 1);
    assert v.sems[0].woken == {} && v.sems == LOCKED.sems;
    assert v.tasks == LOCKED.tasks;
  }

  lemma WokenTakes()
    ensures Enabled(LOCKED, Attempt(SECOND)) && Next(LOCKED, Attempt(SECOND)) == LOST
  {
    var v := Take(LOCKED, 0, 1);
    assert v.sems == LOST.sems;
    assert v.tasks == LOST.tasks;
  }

  lemma RetryTakesOne()
    ensures Valid(TORN, RETRY) && Execute(TORN, RETRY) == LOST
  {
    hide Enabled, Next, Valid, Execute;
    WokenIsPopped();
    WokenLocks();
    WokenTakes();
    ThreeSteps(TORN, Pop(SECOND, 0), Retry(SECOND), Attempt(SECOND));
  }

  /** A permit is free and unannounced, and task 2 of a live context waits for it. */
  lemma TwoPermitsLoseWakeUp()
    ensures var steps := BUILD + BLOCKS + RELEASES + TEARDOWN + RETRY;
      && Valid(INITIAL, steps) && Execute(INITIAL, steps) == LOST
      && LOST.sems[0].vacant == 1 && LOST.sems[0].mtx == Free && LOST.sems[0].woken == {} && LOST.sems[0].blocked == [2]
      && LOST.tasks[2].place == Blocked(0) && !LOST.ctxs[LOST.tasks[2].home.ctx].stopped && !Enough(LOST.sems[0])
  {
    hide Valid, Execute;
    EmptyReached();
    SpawnsReach();
    ValidConcat(INITIAL, [NewSemaphore(0), NewContext(1), NewContext(1)], [Spawn(0), Spawn(1), Spawn(1)]);
    AllBlock();
    ValidConcat(INITIAL, BUILD, BLOCKS);
    FirstReleaseWakes();
    SecondReleaseWakes();
    ValidConcat(WAITING, [Release(0), Notify(0)], [Release(0), Notify(0)]);
    ValidConcat(INITIAL, BUILD + BLOCKS, RELEASES);
    TeardownSwallows();
    ValidConcat(INITIAL, BUILD + BLOCKS + RELEASES, TEARDOWN);
    RetryTakesOne();
    ValidConcat(INITIAL, BUILD + BLOCKS + RELEASES + TEARDOWN, RETRY);
  }
}
