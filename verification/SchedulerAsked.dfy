/** What callers ask for is what they get: the partitions of contexts, the permits of
    semaphores, and the contexts and ids of tasks, over every run. */
module SchedulerAsked {
  import opened Basics
  import opened SchedulerModel
  import opened SchedulerInvariant
  import opened SchedulerRuns
  import opened SchedulerPermits

  // ---------- what a run asks for ----------

  /** The numbers of partitions asked for, in the order of the calls. */
  function Partings(steps: seq<Step>): seq<nat> {
    if steps == [] then []
    else (if steps[0].NewContext? then [steps[0].parts] else []) + Partings(steps[1..])
  }

  /** The permits that semaphores start with. */
  function Vacancies(steps: seq<Step>): seq<nat> {
    if steps == [] then []
    else (if steps[0].NewSemaphore? then [steps[0].vacant] else []) + Vacancies(steps[1..])
  }

  /** The contexts in which tasks are spawned. */
  function Spawns(steps: seq<Step>): seq<nat> {
    if steps == [] then []
    else (if steps[0].Spawn? then [steps[0].ctx] else []) + Spawns(steps[1..])
  }

  // ---------- what a state has ----------

  function PartsOf(w: Sys): (r: seq<nat>)
    ensures |r| == |w.ctxs| && forall c | 0 <= c < |r| :: r[c] == w.ctxs[c].parts
  {
    seq(|w.ctxs|, c requires 0 <= c < |w.ctxs| => w.ctxs[c].parts)
  }

  function InitialsOf(w: Sys): (r: seq<nat>)
    ensures |r| == |w.sems| && forall s | 0 <= s < |r| :: r[s] == w.sems[s].initial
  {
    seq(|w.sems|, s requires 0 <= s < |w.sems| => w.sems[s].initial)
  }

  function HomesOf(w: Sys): (r: seq<nat>)
    ensures |r| == |w.tasks| && forall t | 0 <= t < |r| :: r[t] == w.tasks[t].home.ctx
  {
    seq(|w.tasks|, t requires 0 <= t < |w.tasks| => w.tasks[t].home.ctx)
  }

  /** `v` has what `w` has and, besides, what these steps ask for. */
  ghost predicate Added(w: Sys, steps: seq<Step>, v: Sys) {
    && PartsOf(v) == PartsOf(w) + Partings(steps)
    && InitialsOf(v) == InitialsOf(w) + Vacancies(steps)
    && HomesOf(v) == HomesOf(w) + Spawns(steps)
  }

  function Count(q: seq<nat>, x: nat): nat {
    if q == [] then 0 else Count(q[..|q| - 1], x) + if q[|q| - 1] == x then 1 else 0
  }

  /** Ids count the tasks of a context, from 0 on. */
  ghost predicate Numbered(w: Sys) {
    && (forall c | 0 <= c < |w.ctxs| :: w.ctxs[c].nextId == Count(HomesOf(w), c))
    && forall t | 0 <= t < |w.tasks| :: w.tasks[t].id == Count(HomesOf(w)[..t], w.tasks[t].home.ctx)
  }

  lemma AskedFirst(steps: seq<Step>)
    requires steps != []
    ensures Partings(steps) == (if steps[0].NewContext? then [steps[0].parts] else []) + Partings(steps[1..])
    ensures Vacancies(steps) == (if steps[0].NewSemaphore? then [steps[0].vacant] else []) + Vacancies(steps[1..])
    ensures Spawns(steps) == (if steps[0].Spawn? then [steps[0].ctx] else []) + Spawns(steps[1..])
  {
  }

  lemma AskedNothing()
    ensures Partings([]) == [] && Vacancies([]) == [] && Spawns([]) == []
  {
  }

  lemma AskedOne(step: Step)
    ensures Partings([step]) == if step.NewContext? then [step.parts] else []
    ensures Vacancies([step]) == if step.NewSemaphore? then [step.vacant] else []
    ensures Spawns([step]) == if step.Spawn? then [step.ctx] else []
  {
    hide Partings, Vacancies, Spawns;
    AskedFirst([step]);
    AskedNothing();
    assert [step][1..] == [];
  }

  // ---------- one step ----------

  /** Contexts, tasks and semaphores keep their parameters. */
  ghost predicate SameParameters(w: Sys, v: Sys) {
    && |v.ctxs| == |w.ctxs| && |v.sems| == |w.sems| && |v.tasks| == |w.tasks|
    && (forall c | 0 <= c < |w.ctxs| :: v.ctxs[c].parts == w.ctxs[c].parts && v.ctxs[c].nextId == w.ctxs[c].nextId)
    && (forall s | 0 <= s < |w.sems| :: v.sems[s].initial == w.sems[s].initial)
    && forall t | 0 <= t < |w.tasks| :: v.tasks[t].home == w.tasks[t].home && v.tasks[t].id == w.tasks[t].id
  }

  lemma WakeKeepsParameters(w: Sys, s: nat)
    requires s < |w.sems| && (w.sems[s].blocked != [] ==> TaskOk(w, w.sems[s].blocked[0]))
    ensures SameParameters(w, Wake(w, s))
  {
  }

  lemma DestroyKeepsParameters(w: Sys, s: nat, t: nat)
    requires TaskOk(w, t) && s < |w.sems|
    ensures SameParameters(w, Destroy(w, s, t))
  {
  }

  lemma RemovalKeepsParameters(w: Sys, t: nat)
    requires Enabled(w, Remove(t))
    ensures SameParameters(w, Next(w, Remove(t)))
  {
    hide Wake, Destroy, Without;
    var s := w.tasks[t].waiting.value;
    var v := Destroy(w, s, t);
    DestroyKeepsParameters(w, s, t);
    if v.sems[s].blocked != [] {
      WithoutElement(w.sems[s].blocked, t, v.sems[s].blocked[0]);
    }
    WakeKeepsParameters(v, s);
  }

  lemma WorkerStepKeepsParameters(w: Sys, step: Step)
    requires Enabled(w, step)
    requires step.Yield? || step.Finish? || step.Acquire? || step.Retry? || step.Attempt?
    ensures SameParameters(w, Next(w, step))
  {
  }

  lemma OtherStepKeepsParameters(w: Sys, step: Step)
    requires Enabled(w, step) && (step.Pop? || step.Release? || step.Notify? || step.Stop?)
    ensures SameParameters(w, Next(w, step))
  {
    hide Wake;
    match step
    case Notify(s) => WakeKeepsParameters(w, s);
    case _ =>
  }

  predicate Creates(step: Step) {
    step.NewContext? || step.NewSemaphore? || step.Spawn?
  }

  lemma StepKeepsParameters(w: Sys, step: Step)
    requires Enabled(w, step) && !Creates(step)
    ensures SameParameters(w, Next(w, step))
  {
    hide Enabled, Next, SameParameters;
    if step.Remove? {
      RemovalKeepsParameters(w, step.task);
    } else if step.Pop? || step.Release? || step.Notify? || step.Stop? {
      OtherStepKeepsParameters(w, step);
    } else {
      WorkerStepKeepsParameters(w, step);
    }
  }

  lemma SameAddsNothing(w: Sys, step: Step, v: Sys)
    requires SameParameters(w, v) && !Creates(step)
    ensures Added(w, [step], v) && (Numbered(w) ==> Numbered(v))
  {
    AskedOne(step);
    assert PartsOf(v) == PartsOf(w) && InitialsOf(v) == InitialsOf(w) && HomesOf(v) == HomesOf(w);
  }

  lemma NewContextHomes(w: Sys, parts: nat)
    ensures var v := AddContext(w, parts);
      PartsOf(v) == PartsOf(w) + [parts] && InitialsOf(v) == InitialsOf(w) && HomesOf(v) == HomesOf(w)
  {
    hide Fresh;
  }

  lemma NewContextNumbers(w: Sys, parts: nat)
    requires Numbered(w) && forall t | 0 <= t < |w.tasks| :: w.tasks[t].home.ctx < |w.ctxs|
    ensures Numbered(AddContext(w, parts))
  {
    hide Fresh, Count;
    NewContextHomes(w, parts);
    NoneYet(HomesOf(w), |w.ctxs|);
  }

  lemma NewContextAdds(w: Sys, parts: nat)
    requires Enabled(w, NewContext(parts)) && Numbered(w) && forall t | 0 <= t < |w.tasks| :: w.tasks[t].home.ctx < |w.ctxs|
    ensures Added(w, [NewContext(parts)], AddContext(w, parts)) && Numbered(AddContext(w, parts))
  {
    hide Numbered, AddContext, Partings, Vacancies, Spawns;
    NewContextNumbers(w, parts);
    NewContextHomes(w, parts);
    AskedOne(NewContext(parts));
  }

  lemma {:induction false} NoneYet(q: seq<nat>, x: nat)
    requires forall i | 0 <= i < |q| :: q[i] < x
    ensures Count(q, x) == 0
  {
    if q != [] {
      NoneYet(q[..|q| - 1], x);
    }
  }

  lemma NewSemaphoreAdds(w: Sys, vacant: nat)
    requires Numbered(w)
    ensures Added(w, [NewSemaphore(vacant)], AddSemaphore(w, vacant)) && Numbered(AddSemaphore(w, vacant))
  {
    var v := AddSemaphore(w, vacant);
    AskedOne(NewSemaphore(vacant));
    assert PartsOf(v) == PartsOf(w) && InitialsOf(v) == InitialsOf(w) + [vacant] && HomesOf(v) == HomesOf(w);
  }

  lemma CountLast(q: seq<nat>, c: nat)
    ensures forall x :: Count(q + [c], x) == Count(q, x) + if x == c then 1 else 0
  {
    assert (q + [c])[..|q|] == q;
  }

  lemma SpawnedHomes(w: Sys, c: nat)
    requires Enabled(w, Spawn(c))
    ensures var v := Create(w, c);
      PartsOf(v) == PartsOf(w) && InitialsOf(v) == InitialsOf(w) && HomesOf(v) == HomesOf(w) + [c]
  {
  }

  lemma SpawnNumbers(w: Sys, c: nat)
    requires Enabled(w, Spawn(c)) && Numbered(w)
    ensures Numbered(Create(w, c))
  {
    hide Count;
    var v := Create(w, c);
    SpawnedHomes(w, c);
    CountLast(HomesOf(w), c);
    assert HomesOf(v)[..|w.tasks|] == HomesOf(w);
    forall t | 0 <= t < |v.tasks| ensures v.tasks[t].id == Count(HomesOf(v)[..t], v.tasks[t].home.ctx) {
      if t < |w.tasks| {
        assert HomesOf(v)[..t] == HomesOf(w)[..t];
      }
    }
  }

  lemma SpawnAdds(w: Sys, c: nat)
    requires Enabled(w, Spawn(c)) && Numbered(w)
    ensures Added(w, [Spawn(c)], Create(w, c)) && Numbered(Create(w, c))
  {
    hide Numbered, Create, Enabled, Partings, Vacancies, Spawns;
    SpawnNumbers(w, c);
    SpawnedHomes(w, c);
    AskedOne(Spawn(c));
  }

  lemma HomesExist(w: Sys)
    requires Inv(w)
    ensures forall t | 0 <= t < |w.tasks| :: w.tasks[t].home.ctx < |w.ctxs|
  {
    forall t | 0 <= t < |w.tasks| ensures w.tasks[t].home.ctx < |w.ctxs| {
      assert TaskInv(w.ctxs, w.sems, t, w.tasks[t]);
    }
  }

  lemma NextAdds(w: Sys, step: Step)
    requires Inv(w) && Numbered(w) && Enabled(w, step)
    ensures Added(w, [step], Next(w, step)) && Numbered(Next(w, step))
  {
    hide Inv, Numbered, Added, SameParameters;
    HomesExist(w);
    if Creates(step) {
      match step {
        case NewContext(parts) => NewContextAdds(w, parts);
        case NewSemaphore(vacant) => NewSemaphoreAdds(w, vacant);
        case Spawn(c) => SpawnAdds(w, c);
      }
    } else {
      StepKeepsParameters(w, step);
      SameAddsNothing(w, step, Next(w, step));
    }
  }

  // ---------- runs ----------

  lemma AskedCons(steps: seq<Step>)
    requires steps != []
    ensures Partings(steps) == Partings([steps[0]]) + Partings(steps[1..])
    ensures Vacancies(steps) == Vacancies([steps[0]]) + Vacancies(steps[1..])
    ensures Spawns(steps) == Spawns([steps[0]]) + Spawns(steps[1..])
  {
    hide Partings, Vacancies, Spawns;
    AskedFirst(steps);
    AskedOne(steps[0]);
  }

  lemma AddsFirst(w: Sys, steps: seq<Step>, u: Sys, v: Sys)
    requires steps != [] && Added(w, [steps[0]], u) && Added(u, steps[1..], v)
    ensures Added(w, steps, v)
  {
    hide Partings, Vacancies, Spawns;
    AskedCons(steps);
  }

  lemma {:induction false} RunsAdd(w: Sys, steps: seq<Step>)
    requires Inv(w) && Numbered(w) && Valid(w, steps)
    ensures Added(w, steps, Execute(w, steps)) && Numbered(Execute(w, steps))
    decreases |steps|
  {
    hide Inv, Numbered, Enabled, Next;
    if steps != [] {
      NextKeepsInv(w, steps[0]);
      NextAdds(w, steps[0]);
      RunsAdd(Next(w, steps[0]), steps[1..]);
      AddsFirst(w, steps, Next(w, steps[0]), Execute(w, steps));
    }
  }

  /** In every reachable state there are exactly the contexts, semaphores and tasks that
      were asked for, in the order of the calls: with their partitions, permits and
      contexts.  A task's id is the number of tasks spawned before it in its context. */
  lemma EverythingAsAsked(steps: seq<Step>)
    requires Valid(INITIAL, steps)
    ensures var w := Execute(INITIAL, steps);
      && PartsOf(w) == Partings(steps) && InitialsOf(w) == Vacancies(steps) && HomesOf(w) == Spawns(steps)
      && forall t | 0 <= t < |w.tasks| :: w.tasks[t].id == Count(Spawns(steps)[..t], Spawns(steps)[t])
  {
    hide Valid, Execute, Partings, Vacancies, Spawns;
    InitialIsNumbered();
    InitialIsInv();
    RunsAdd(INITIAL, steps);
    var w := Execute(INITIAL, steps);
    assert PartsOf(w) == Partings(steps) && InitialsOf(w) == Vacancies(steps) && HomesOf(w) == Spawns(steps);
    forall t | 0 <= t < |w.tasks| ensures w.tasks[t].id == Count(Spawns(steps)[..t], Spawns(steps)[t]) {
      assert HomesOf(w)[t] == w.tasks[t].home.ctx;
    }
  }

  lemma InitialIsNumbered()
    ensures Numbered(INITIAL) && PartsOf(INITIAL) == [] && InitialsOf(INITIAL) == [] && HomesOf(INITIAL) == []
  {
  }

  lemma NoNewSemaphore(w: Sys, step: Step, s: nat)
    requires Inv(w) && Numbered(w) && Enabled(w, step) && |w.sems| <= s
    ensures step.NewSemaphore? && s == |w.sems| ==>
      s < |Next(w, step).sems| && Next(w, step).sems[s].vacant == step.vacant
    ensures !(step.NewSemaphore? && s == |w.sems|) ==> |Next(w, step).sems| <= s
  {
    hide Inv, Numbered;
    NextAdds(w, step);
    AskedOne(step);
    assert |InitialsOf(Next(w, step))| == |InitialsOf(w)| + |Vacancies([step])|;
  }

  /** What a semaphore has in the end, and what it has granted, is what it was made with
      and what has been released. */
  lemma {:induction false} PermitsSinceMade(w: Sys, steps: seq<Step>, s: nat)
    requires Inv(w) && Numbered(w) && Valid(w, steps) && |w.sems| <= s < |w.sems| + |Vacancies(steps)|
    ensures var v := Execute(w, steps);
      && s < |v.sems|
      && v.sems[s].vacant + Tally(w, steps, s, Granted)
           == Vacancies(steps)[s - |w.sems|] + Tally(w, steps, s, SchedulerPermits.Released)
    decreases |steps|
  {
    hide Inv, Numbered, Enabled, Next, ChangeOf;
    if steps != [] {
      var u := Next(w, steps[0]);
      NextKeepsInv(w, steps[0]);
      NextAdds(w, steps[0]);
      NoNewSemaphore(w, steps[0], s);
      AskedCons(steps);
      if steps[0].NewSemaphore? && s == |w.sems| {
        PermitsConserved(u, steps[1..], s);
      } else {
        assert |InitialsOf(u)| == |InitialsOf(w)| + |Vacancies([steps[0]])|;
        PermitsSinceMade(u, steps[1..], s);
      }
    }
  }
}
