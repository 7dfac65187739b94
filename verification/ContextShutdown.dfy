/** The threads of a context: the loop on `_finished`, and the barrier at its start and
    end.  `SchedulerModel` has a context stop in one step, with all its workers idle, lets
    none of them pop a task afterwards, and only then lets tasks be removed.  Here each
    worker decides for itself where it is, and all of that follows. */
module ContextShutdown {
  import opened Basics
  import opened SchedulerModel
  import opened SchedulerInvariant
  import opened SchedulerRuns
  import opened SchedulerTeardown

  /** Where `Context::_run` is. */
  datatype Stage = Setup | AtStart | Looping | AtEnd | Draining

  /** `finished` are the contexts whose `_finished` is set. */
  datatype Threads = Threads(sys: Sys, stages: map<Slot, Stage>, finished: set<nat>)

  datatype Move =
    | Startup(parts: nat)
    | ReachStart(worker: Slot)          // arrive at the first barrier
    | EnterLoop(worker: Slot)           // and pass it
    | Shutdown(ctx: nat)                // set `_finished`
    | Serve(worker: Slot, part: nat)    // pop a task and begin it
    | LeaveLoop(worker: Slot)           // see `_finished`, and arrive at the last barrier
    | EnterDrain(worker: Slot)          // pass it
    | Drain(task: nat)                  // `final_schedule` removes a task of its partition
    | Other(step: Step)

  predicate Colleagues(r: Threads, a: Slot, b: Slot) {
    a in r.stages && b in r.stages && a.ctx == b.ctx
  }

  /** Every worker of the context has arrived at the last barrier. */
  ghost predicate AllArrived(r: Threads, c: nat) {
    forall slot | slot in r.stages && slot.ctx == c :: r.stages[slot].AtEnd? || r.stages[slot].Draining?
  }

  /** The worker is the last to arrive there. */
  ghost predicate LastToArrive(r: Threads, worker: Slot) {
    forall slot | slot in r.stages && slot.ctx == worker.ctx && slot != worker ::
      r.stages[slot].AtEnd? || r.stages[slot].Draining?
  }

  predicate IsOther(step: Step) {
    !step.NewContext? && !step.Pop? && !step.Stop? && !step.Remove?
  }

  /** What a thread checks for itself: its own stage, the barrier, and `_finished`. */
  ghost predicate Allowed(r: Threads, move: Move) {
    var w := r.sys;
    match move
    case Startup(parts) => parts > 0
    case ReachStart(worker) => worker in r.stages && r.stages[worker] == Setup
    case EnterLoop(worker) =>
      && worker in r.stages && r.stages[worker] == AtStart
      && forall slot | slot in r.stages && slot.ctx == worker.ctx :: r.stages[slot] != Setup
    case Shutdown(c) => c < |w.ctxs|
    case Serve(worker, part) =>
      && worker in r.stages && r.stages[worker] == Looping
      && SlotOk(w, worker) && w.workers[worker] == None
      && SlotOk(w, Slot(worker.ctx, part)) && w.queues[Slot(worker.ctx, part)] != []
      && TaskOk(w, w.queues[Slot(worker.ctx, part)][0])
    case LeaveLoop(worker) =>
      && worker in r.stages && r.stages[worker] == Looping && worker.ctx in r.finished
      && worker in w.workers && w.workers[worker] == None
    case EnterDrain(worker) => worker in r.stages && r.stages[worker] == AtEnd && AllArrived(r, worker.ctx)
    case Drain(t) =>
      && TaskOk(w, t) && w.tasks[t].home in r.stages && r.stages[w.tasks[t].home] == Draining
      && w.tasks[t].place !in {Finished, Destroyed} && w.tasks[t].waiting.Some?
      && w.tasks[t].waiting.value < |w.sems|
      && forall i | 0 <= i < |w.sems[w.tasks[t].waiting.value].blocked| ::
           TaskOk(w, w.sems[w.tasks[t].waiting.value].blocked[i])
    case Other(step) => IsOther(step) && Enabled(w, step)
  }

  /** The step of the scheduler's model that a move amounts to, if any. */
  ghost function StepOf(r: Threads, move: Move): Option<Step> {
    match move
    case Startup(parts) => Some(NewContext(parts))
    case Serve(worker, part) => Some(Pop(worker, part))
    case LeaveLoop(worker) => if LastToArrive(r, worker) then Some(Stop(worker.ctx)) else None
    case Drain(t) => Some(Remove(t))
    case Other(step) => Some(step)
    case _ => None
  }

  ghost function StagesAfter(r: Threads, move: Move): map<Slot, Stage> {
    match move
    case Startup(parts) => r.stages + Fresh(|r.sys.ctxs|, parts, Setup)
    case ReachStart(worker) => r.stages[worker := AtStart]
    case EnterLoop(worker) => r.stages[worker := Looping]
    case LeaveLoop(worker) => r.stages[worker := AtEnd]
    case EnterDrain(worker) => r.stages[worker := Draining]
    case _ => r.stages
  }

  /** The threads after a move, the shared state having gone to `sys`. */
  ghost function After(r: Threads, move: Move, sys: Sys): Threads {
    Threads(sys, StagesAfter(r, move), if move.Shutdown? then r.finished + {move.ctx} else r.finished)
  }

  // ---------- what holds in between ----------

  ghost predicate StagesOk(r: Threads) {
    forall slot :: slot in r.stages <==> SlotExists(r.sys.ctxs, slot)
  }

  /** A worker outside its loop runs nothing. */
  ghost predicate IdleOutside(r: Threads) {
    forall slot | slot in r.stages && slot in r.sys.workers && r.stages[slot] != Looping :: r.sys.workers[slot] == None
  }

  /** A context has stopped exactly when all its workers have arrived; a worker that
      drains has seen them all. */
  ghost predicate BarrierOk(r: Threads) {
    && (forall c | 0 <= c < |r.sys.ctxs| :: r.sys.ctxs[c].stopped <==> AllArrived(r, c))
    && (forall slot | slot in r.stages && r.stages[slot] == Draining :: AllArrived(r, slot.ctx))
  }

  /** Nobody loops before all its colleagues are set up. */
  ghost predicate StartOk(r: Threads) {
    forall a, b | Colleagues(r, a, b) && !r.stages[a].Setup? && !r.stages[a].AtStart? :: r.stages[b] != Setup
  }

  /** Nobody leaves its loop before the context is shut down. */
  ghost predicate LeftOk(r: Threads) {
    forall slot | slot in r.stages && (r.stages[slot].AtEnd? || r.stages[slot].Draining?) :: slot.ctx in r.finished
  }

  ghost predicate ThreadsInv(r: Threads) {
    Inv(r.sys) && StagesOk(r) && IdleOutside(r) && BarrierOk(r) && StartOk(r) && LeftOk(r)
  }

  lemma SlotsOfInv(w: Sys)
    requires Inv(w)
    ensures forall slot :: slot in w.workers <==> SlotExists(w.ctxs, slot)
    ensures forall c | 0 <= c < |w.ctxs| :: w.ctxs[c].parts > 0
  {
  }

  // ---------- the guards of the scheduler's steps ----------

  lemma LoopingIsLive(r: Threads, worker: Slot)
    requires ThreadsInv(r) && worker in r.stages && r.stages[worker] == Looping
    ensures worker.ctx < |r.sys.ctxs| && !r.sys.ctxs[worker.ctx].stopped
  {
    hide Inv;
    assert SlotExists(r.sys.ctxs, worker);
    assert !AllArrived(r, worker.ctx);
  }

  lemma DrainingIsStopped(r: Threads, worker: Slot)
    requires ThreadsInv(r) && worker in r.stages && r.stages[worker] == Draining
    ensures worker.ctx < |r.sys.ctxs| && r.sys.ctxs[worker.ctx].stopped
  {
    hide Inv;
    assert SlotExists(r.sys.ctxs, worker);
  }

  lemma ColleaguesIdle(r: Threads, worker: Slot)
    requires Inv(r.sys) && StagesOk(r) && IdleOutside(r) && LastToArrive(r, worker)
    requires worker in r.sys.workers && r.sys.workers[worker] == None
    ensures forall slot | slot in r.sys.workers && slot.ctx == worker.ctx :: r.sys.workers[slot] == None
  {
    hide Inv;
    SlotsOfInv(r.sys);
  }

  /** The last worker to arrive finds all of them idle. */
  lemma LastArrivalStops(r: Threads, worker: Slot)
    requires ThreadsInv(r) && Allowed(r, LeaveLoop(worker)) && LastToArrive(r, worker)
    ensures Enabled(r.sys, Stop(worker.ctx))
  {
    hide Inv, BarrierOk, StartOk;
    LoopingIsLive(r, worker);
    ColleaguesIdle(r, worker);
  }

  /** Whatever the threads may do, by their own stages and the barrier, the scheduler's
      model allows. */
  lemma MoveIsEnabled(r: Threads, move: Move)
    requires ThreadsInv(r) && Allowed(r, move)
    ensures StepOf(r, move).Some? ==> Enabled(r.sys, StepOf(r, move).value)
  {
    hide Inv, StagesOk, IdleOutside, BarrierOk, StartOk, LastToArrive, AllArrived;
    match move {
      case Serve(worker, part) => LoopingIsLive(r, worker);
      case LeaveLoop(worker) =>
        if LastToArrive(r, worker) {
          LastArrivalStops(r, worker);
        }
      case Drain(t) => DrainingIsStopped(r, r.sys.tasks[t].home);
      case _ =>
    }
  }

  function Moved(w: Sys, step: Option<Step>): Sys
    requires step.Some? ==> Enabled(w, step.value)
  {
    if step.Some? then Next(w, step.value) else w
  }

  // ---------- the invariant is kept ----------

  /** What a step of the scheduler leaves to the threads. */
  ghost predicate SameThreads(w: Sys, v: Sys) {
    && |v.ctxs| == |w.ctxs| && v.workers.Keys == w.workers.Keys
    && (forall c | 0 <= c < |w.ctxs| :: v.ctxs[c].parts == w.ctxs[c].parts)
    && forall slot | slot in w.workers && w.workers[slot] == None :: v.workers[slot] == None
  }

  lemma WorkerStepKeepsThreads(w: Sys, step: Step)
    requires Enabled(w, step) && (step.Yield? || step.Finish? || step.Acquire? || step.Retry? || step.Attempt?)
    ensures SameThreads(w, Next(w, step)) && Next(w, step).ctxs == w.ctxs
  {
  }

  lemma OtherStepKeepsThreads(w: Sys, step: Step)
    requires Enabled(w, step) && IsOther(step)
    ensures SameThreads(w, Next(w, step))
    ensures forall c | 0 <= c < |w.ctxs| :: Next(w, step).ctxs[c].stopped == w.ctxs[c].stopped
  {
    if step.Yield? || step.Finish? || step.Acquire? || step.Retry? || step.Attempt? {
      hide Next;
      WorkerStepKeepsThreads(w, step);
    } else if step.Notify? {
      hide Wake;
      WakeFrame(w, step.sem);
    }
  }

  /** What a move leaves to the threads: contexts stay, a context stops only by its last
      arrival, and a worker gets a task only by popping one. */
  ghost predicate Effect(r: Threads, move: Move, v: Sys) {
    var w := r.sys;
    && |v.ctxs| == |w.ctxs| + (if move.Startup? then 1 else 0)
    && (forall c | 0 <= c < |w.ctxs| ::
          v.ctxs[c].parts == w.ctxs[c].parts && (v.ctxs[c].stopped <==> w.ctxs[c].stopped || StepOf(r, move) == Some(Stop(c))))
    && (move.Startup? ==> v.ctxs[|w.ctxs|] == Ctx(move.parts, 0, false))
    && forall slot | slot in v.workers ::
         (slot in w.workers ==> w.workers[slot] == None) && !(move.Serve? && move.worker == slot) ==> v.workers[slot] == None
  }

  lemma StartupHasEffect(r: Threads, parts: nat)
    requires parts > 0
    ensures Effect(r, Startup(parts), Next(r.sys, NewContext(parts)))
  {
  }

  lemma ServeHasEffect(r: Threads, worker: Slot, part: nat)
    requires Allowed(r, Serve(worker, part)) && Enabled(r.sys, Pop(worker, part))
    ensures Effect(r, Serve(worker, part), Next(r.sys, Pop(worker, part)))
  {
  }

  lemma DrainHasEffect(r: Threads, t: nat)
    requires Enabled(r.sys, Remove(t))
    ensures Effect(r, Drain(t), Next(r.sys, Remove(t)))
  {
    hide Enabled, Next;
    RemoveFrame(r.sys, t);
  }

  lemma OtherHasEffect(r: Threads, step: Step)
    requires Enabled(r.sys, step) && IsOther(step)
    ensures Effect(r, Other(step), Next(r.sys, step))
  {
    hide Enabled, Next;
    OtherStepKeepsThreads(r.sys, step);
  }

  lemma LeaveHasEffect(r: Threads, worker: Slot)
    requires LastToArrive(r, worker) ==> Enabled(r.sys, Stop(worker.ctx))
    ensures Effect(r, LeaveLoop(worker), Moved(r.sys, StepOf(r, LeaveLoop(worker))))
  {
    hide LastToArrive;
  }

  lemma QuietHasEffect(r: Threads, move: Move)
    requires move.ReachStart? || move.EnterLoop? || move.Shutdown? || move.EnterDrain?
    ensures StepOf(r, move) == None && Effect(r, move, r.sys)
  {
  }

  lemma MoveHasEffect(r: Threads, move: Move)
    requires ThreadsInv(r) && Allowed(r, move)
    ensures StepOf(r, move).Some? ==> Enabled(r.sys, StepOf(r, move).value)
    ensures Effect(r, move, Moved(r.sys, StepOf(r, move)))
  {
    hide ThreadsInv, LastToArrive, Effect, Enabled, Next, AllArrived;
    MoveIsEnabled(r, move);
    match move {
      case Startup(parts) => StartupHasEffect(r, parts);
      case Serve(worker, part) => ServeHasEffect(r, worker, part);
      case LeaveLoop(worker) => LeaveHasEffect(r, worker);
      case Drain(t) => DrainHasEffect(r, t);
      case Other(step) => OtherHasEffect(r, step);
      case _ => QuietHasEffect(r, move);
    }
  }

  lemma MovedKeepsInv(w: Sys, step: Option<Step>)
    requires Inv(w) && (step.Some? ==> Enabled(w, step.value))
    ensures Inv(Moved(w, step))
  {
    hide Inv, Enabled, Next;
    if step.Some? {
      NextKeepsInv(w, step.value);
    }
  }

  lemma StagesKept(r: Threads, move: Move, v: Sys)
    requires StagesOk(r) && Allowed(r, move) && Effect(r, move, v)
    ensures StagesOk(After(r, move, v))
  {
    hide Allowed;
    WorkerIsThere(r, move);
    var u := After(r, move, v);
    forall slot ensures slot in u.stages <==> SlotExists(u.sys.ctxs, slot) {
      assert slot in r.stages <==> SlotExists(r.sys.ctxs, slot);
    }
  }

  lemma WorkerIsThere(r: Threads, move: Move)
    requires Allowed(r, move)
    ensures move.ReachStart? || move.EnterLoop? || move.LeaveLoop? || move.EnterDrain? ==> move.worker in r.stages
  {
  }

  lemma IdleKept(r: Threads, move: Move, v: Sys)
    requires StagesOk(r) && IdleOutside(r) && Inv(r.sys) && Inv(v) && Allowed(r, move) && Effect(r, move, v)
    ensures IdleOutside(After(r, move, v))
  {
    hide Inv;
    SlotsOfInv(r.sys);
    var u := After(r, move, v);
    forall slot | slot in u.stages && slot in v.workers && u.stages[slot] != Looping ensures v.workers[slot] == None {
      if slot in r.sys.workers {
        assert slot in r.stages;
      }
    }
  }

  lemma StartKept(r: Threads, move: Move, v: Sys)
    requires StagesOk(r) && StartOk(r) && Allowed(r, move)
    ensures StartOk(After(r, move, v))
  {
    var u := After(r, move, v);
    forall a, b | Colleagues(u, a, b) && !u.stages[a].Setup? && !u.stages[a].AtStart? ensures u.stages[b] != Setup {
      if move.Startup? {
        assert a in r.stages <==> SlotExists(r.sys.ctxs, a);
        assert b in r.stages <==> SlotExists(r.sys.ctxs, b);
      }
      if a in r.stages && b in r.stages {
        assert Colleagues(r, a, b);
      }
    }
  }

  /** A move keeps which contexts have all arrived, except the last arrival. */
  lemma ArrivalsKept(r: Threads, move: Move, v: Sys, c: nat)
    requires StagesOk(r) && Allowed(r, move) && c < |r.sys.ctxs|
    ensures AllArrived(After(r, move, v), c) <==> AllArrived(r, c) || StepOf(r, move) == Some(Stop(c))
  {
  }

  /** A context that has just started has not stopped. */
  lemma StartupArrivals(r: Threads, parts: nat, v: Sys)
    requires StagesOk(r) && parts > 0
    ensures !AllArrived(After(r, Startup(parts), v), |r.sys.ctxs|)
  {
    var u := After(r, Startup(parts), v);
    var first := Slot(|r.sys.ctxs|, 0);
    assert first in u.stages && u.stages[first] == Setup;
  }

  lemma DrainingHasPassed(r: Threads, move: Move, v: Sys, slot: Slot)
    requires StagesOk(r) && BarrierOk(r) && Allowed(r, move)
    requires slot in After(r, move, v).stages && After(r, move, v).stages[slot] == Draining
    ensures slot.ctx < |r.sys.ctxs| && AllArrived(r, slot.ctx)
  {
    hide AllArrived, LastToArrive, Enabled;
    if slot in r.stages {
      assert SlotExists(r.sys.ctxs, slot);
    }
  }

  lemma BarrierKept(r: Threads, move: Move, v: Sys)
    requires StagesOk(r) && BarrierOk(r) && Allowed(r, move) && Effect(r, move, v)
    ensures BarrierOk(After(r, move, v))
  {
    hide StagesOk, Allowed, AllArrived, LastToArrive;
    var u := After(r, move, v);
    forall c | 0 <= c < |v.ctxs| ensures v.ctxs[c].stopped <==> AllArrived(u, c) {
      if c < |r.sys.ctxs| {
        ArrivalsKept(r, move, v, c);
      } else {
        StartsWithWorkers(r, move);
        StartupArrivals(r, move.parts, v);
      }
    }
    forall slot | slot in u.stages && u.stages[slot] == Draining ensures AllArrived(u, slot.ctx) {
      DrainingHasPassed(r, move, v, slot);
      ArrivalsKept(r, move, v, slot.ctx);
    }
  }

  lemma StartsWithWorkers(r: Threads, move: Move)
    requires Allowed(r, move)
    ensures move.Startup? ==> move.parts > 0
  {
  }

  lemma LeftKept(r: Threads, move: Move, v: Sys)
    requires LeftOk(r) && Allowed(r, move)
    ensures LeftOk(After(r, move, v))
  {
    hide AllArrived, LastToArrive, Enabled;
  }

  /** The threads after a move of one of them. */
  ghost function NextThreads(r: Threads, move: Move): Threads
    requires ThreadsInv(r) && Allowed(r, move)
  {
    MoveIsEnabled(r, move);
    After(r, move, Moved(r.sys, StepOf(r, move)))
  }

  lemma NextKeepsThreadsInv(r: Threads, move: Move)
    requires ThreadsInv(r) && Allowed(r, move)
    ensures ThreadsInv(NextThreads(r, move))
  {
    hide Inv, StagesOk, IdleOutside, BarrierOk, StartOk, LeftOk, Allowed, Effect, StepOf, StagesAfter, Moved;
    MoveHasEffect(r, move);
    var v := Moved(r.sys, StepOf(r, move));
    MovedKeepsInv(r.sys, StepOf(r, move));
    StagesKept(r, move, v);
    IdleKept(r, move, v);
    BarrierKept(r, move, v);
    StartKept(r, move, v);
    LeftKept(r, move, v);
  }

  // ---------- runs ----------

  const AT_REST: Threads := Threads(INITIAL, map[], {})

  /** Every run starts in the invariant. */
  lemma AtRestIsInv()
    ensures ThreadsInv(AT_REST)
  {
  }

  ghost predicate ValidMoves(r: Threads, moves: seq<Move>)
    requires ThreadsInv(r)
    decreases |moves|
  {
    moves == [] ||
    (Allowed(r, moves[0]) && (NextKeepsThreadsInv(r, moves[0]); ValidMoves(NextThreads(r, moves[0]), moves[1..])))
  }

  ghost function Perform(r: Threads, moves: seq<Move>): (u: Threads)
    requires ThreadsInv(r) && ValidMoves(r, moves)
    ensures ThreadsInv(u)
    decreases |moves|
  {
    if moves == [] then r
    else
      NextKeepsThreadsInv(r, moves[0]);
      Perform(NextThreads(r, moves[0]), moves[1..])
  }

  /** The steps of the scheduler's model in a run of the threads. */
  ghost function StepsOf(r: Threads, moves: seq<Move>): seq<Step>
    requires ThreadsInv(r) && ValidMoves(r, moves)
    decreases |moves|
  {
    if moves == [] then []
    else
      NextKeepsThreadsInv(r, moves[0]);
      var rest := StepsOf(NextThreads(r, moves[0]), moves[1..]);
      if StepOf(r, moves[0]).Some? then [StepOf(r, moves[0]).value] + rest else rest
  }

  /** Whatever the threads do is a run of the scheduler's model: every theorem about
      its runs holds of them, and none of its guards had to be assumed. */
  lemma {:induction false} ThreadsRunTheScheduler(r: Threads, moves: seq<Move>)
    requires ThreadsInv(r) && ValidMoves(r, moves)
    ensures Valid(r.sys, StepsOf(r, moves)) && Execute(r.sys, StepsOf(r, moves)) == Perform(r, moves).sys
    decreases |moves|
  {
    hide ThreadsInv, Allowed, Enabled, Next, StepOf;
    if moves != [] {
      NextKeepsThreadsInv(r, moves[0]);
      MoveIsEnabled(r, moves[0]);
      var next := NextThreads(r, moves[0]);
      ThreadsRunTheScheduler(next, moves[1..]);
      if StepOf(r, moves[0]).Some? {
        var rest := StepsOf(next, moves[1..]);
        assert ([StepOf(r, moves[0]).value] + rest)[1..] == rest;
      }
    }
  }

  // ---------- the order of a context's life ----------

  /** While a worker of it drains, a context has no other thread left in its loop, and
      none of its tasks runs. */
  ghost predicate Quiescent(r: Threads, c: nat) {
    && StoppedAt(r.sys, c) && AllArrived(r, c)
    && forall t: nat, worker | t < |r.sys.tasks| && r.sys.tasks[t].home.ctx == c && worker in r.sys.workers ::
         r.sys.workers[worker] != Some(t)
  }

  lemma StoppedIsQuiescent(r: Threads, c: nat)
    requires ThreadsInv(r) && StoppedAt(r.sys, c)
    ensures Quiescent(r, c)
  {
    hide Inv, AllArrived, StagesOk, IdleOutside, StartOk;
    forall t: nat, worker | t < |r.sys.tasks| && r.sys.tasks[t].home.ctx == c && worker in r.sys.workers
      ensures r.sys.workers[worker] != Some(t)
    {
      StoppedNeverRuns(r.sys, t);
    }
  }

  /** A stopped context stays so, whatever the threads do next. */
  lemma {:induction false} StoppedStaysQuiescent(r: Threads, moves: seq<Move>, c: nat)
    requires ThreadsInv(r) && ValidMoves(r, moves) && StoppedAt(r.sys, c)
    ensures Quiescent(Perform(r, moves), c)
    decreases |moves|
  {
    hide ThreadsInv, Allowed, Enabled, Next, StepOf, Quiescent, StoppedAt;
    if moves == [] {
      StoppedIsQuiescent(r, c);
    } else {
      NextKeepsThreadsInv(r, moves[0]);
      MoveIsEnabled(r, moves[0]);
      if StepOf(r, moves[0]).Some? {
        StopIsForEver(r.sys, StepOf(r, moves[0]).value, c);
      }
      StoppedStaysQuiescent(NextThreads(r, moves[0]), moves[1..], c);
      assert Perform(r, moves) == Perform(NextThreads(r, moves[0]), moves[1..]);
    }
  }

  /** Once a worker drains, every worker of its context has left its loop for good, and
      no task of the context runs, then or later. */
  lemma DrainersAreAlone(r: Threads, moves: seq<Move>, worker: Slot)
    requires ThreadsInv(r) && ValidMoves(r, moves) && worker in r.stages && r.stages[worker] == Draining
    ensures Quiescent(r, worker.ctx) && Quiescent(Perform(r, moves), worker.ctx)
  {
    hide ThreadsInv, ValidMoves, Quiescent;
    DrainingIsStopped(r, worker);
    StoppedIsQuiescent(r, worker.ctx);
    StoppedStaysQuiescent(r, moves, worker.ctx);
  }

  /** And no worker looks for a task before all of its context have announced
      themselves, or after any of them drains. */
  lemma LoopsAreBetweenBarriers(r: Threads, worker: Slot, colleague: Slot)
    requires ThreadsInv(r) && Colleagues(r, worker, colleague) && r.stages[worker] == Looping
    ensures r.stages[colleague] != Setup && r.stages[colleague] != Draining
  {
    hide Inv, StagesOk, IdleOutside;
    assert r.stages[colleague] == Draining ==> AllArrived(r, worker.ctx);
  }

  // ---------- who is shut down ----------

  lemma NextFinishes(r: Threads, move: Move, c: nat)
    requires ThreadsInv(r) && Allowed(r, move)
    ensures c in NextThreads(r, move).finished <==> c in r.finished || move == Shutdown(c)
  {
    hide ThreadsInv, Allowed, StepOf, StagesAfter, Moved;
  }

  /** `_finished` is set in a context exactly if that context was shut down. */
  lemma {:induction false} ShutDownExactly(r: Threads, moves: seq<Move>, c: nat)
    requires ThreadsInv(r) && ValidMoves(r, moves)
    ensures c in Perform(r, moves).finished <==> c in r.finished || Shutdown(c) in moves
    decreases |moves|
  {
    hide ThreadsInv, Allowed, NextThreads;
    if moves != [] {
      NextKeepsThreadsInv(r, moves[0]);
      NextFinishes(r, moves[0], c);
      ShutDownExactly(NextThreads(r, moves[0]), moves[1..], c);
      assert moves == [moves[0]] + moves[1..];
    }
  }

  lemma StoppedIsFinished(r: Threads, c: nat)
    requires ThreadsInv(r) && StoppedAt(r.sys, c)
    ensures c in r.finished
  {
    SlotsOfInv(r.sys);
    hide Inv;
    assert SlotExists(r.sys.ctxs, Slot(c, 0));
    assert AllArrived(r, c) && Slot(c, 0) in r.stages;
  }

  /** No run stops a context that is not shut down, whatever happens to the others. */
  lemma OnlyShutdownStops(r: Threads, moves: seq<Move>, c: nat)
    requires ThreadsInv(r) && ValidMoves(r, moves) && c !in r.finished && StoppedAt(Perform(r, moves).sys, c)
    ensures Shutdown(c) in moves
  {
    hide ThreadsInv, ValidMoves, StoppedAt;
    StoppedIsFinished(Perform(r, moves), c);
    ShutDownExactly(r, moves, c);
  }
}
