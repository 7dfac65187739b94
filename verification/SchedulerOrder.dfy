/** First come, first served: in what order tasks leave the run queues and the blocked
    lists, over every run. */
module SchedulerOrder {
  import opened Basics
  import opened SchedulerModel
  import opened SchedulerInvariant
  import opened SchedulerRuns
  import opened SchedulerPermits

  // ---------- lists ----------

  /** One task leaves the list, wherever it stands, and one joins it at its end. */
  function Turn(q: seq<nat>, leaves: Option<nat>, joins: Option<nat>): seq<nat> {
    var p := if leaves.Some? then Without(q, leaves.value) else q;
    if joins.Some? then p + [joins.value] else p
  }

  ghost predicate Before(q: seq<nat>, a: nat, b: nat) {
    exists i, j :: 0 <= i < j < |q| && q[i] == a && q[j] == b
  }

  /** `a` is in the list, and `b` not ahead of it. */
  ghost predicate Ahead(q: seq<nat>, a: nat, b: nat) {
    a in q && (b in q ==> Before(q, a, b))
  }

  lemma {:induction false} WithoutKeepsBefore(q: seq<nat>, x: nat, a: nat, b: nat)
    requires Before(q, a, b) && x != a && x != b
    ensures Before(Without(q, x), a, b)
  {
    var i, j :| 0 <= i < j < |q| && q[i] == a && q[j] == b;
    if i == 0 {
      WithoutElement(q[1..], x, b);
      assert b == q[1..][j - 1] && b in Without(q[1..], x);
      var k :| 0 <= k < |Without(q[1..], x)| && Without(q[1..], x)[k] == b;
      assert Without(q, x) == [a] + Without(q[1..], x);
      assert Without(q, x)[0] == a && Without(q, x)[k + 1] == b;
    } else {
      assert q[1..][i - 1] == a && q[1..][j - 1] == b;
      WithoutKeepsBefore(q[1..], x, a, b);
      var k, l :| 0 <= k < l < |Without(q[1..], x)| && Without(q[1..], x)[k] == a && Without(q[1..], x)[l] == b;
      if q[0] != x {
        assert Without(q, x) == [q[0]] + Without(q[1..], x);
        assert Without(q, x)[k + 1] == a && Without(q, x)[l + 1] == b;
      } else {
        assert Without(q, x) == Without(q[1..], x);
      }
    }
  }

  lemma JoiningKeepsAhead(q: seq<nat>, x: nat, a: nat, b: nat)
    requires Ahead(q, a, b) && a != b && x !in q
    ensures Ahead(q + [x], a, b)
  {
    if b in q {
      var i, j :| 0 <= i < j < |q| && q[i] == a && q[j] == b;
      assert (q + [x])[i] == a && (q + [x])[j] == b;
    } else if x == b {
      var i :| 0 <= i < |q| && q[i] == a;
      assert (q + [x])[i] == a && (q + [x])[|q|] == b;
    }
  }

  lemma LeavingKeepsAhead(q: seq<nat>, x: nat, a: nat, b: nat)
    requires Ahead(q, a, b) && a != b && x != a
    ensures Ahead(Without(q, x), a, b)
  {
    WithoutElement(q, x, a);
    WithoutElement(q, x, b);
    if b in q && x != b {
      WithoutKeepsBefore(q, x, a, b);
    }
  }

  /** Who is ahead stays ahead, until it leaves. */
  lemma TurnKeepsAhead(q: seq<nat>, leaves: Option<nat>, joins: Option<nat>, a: nat, b: nat)
    requires Ahead(q, a, b) && a != b && a in Turn(q, leaves, joins) && Distinct(Turn(q, leaves, joins))
    requires leaves == None || joins != leaves
    ensures Ahead(Turn(q, leaves, joins), a, b)
  {
    hide Ahead;
    var p := if leaves.Some? then Without(q, leaves.value) else q;
    if leaves.Some? {
      WithoutElement(q, leaves.value, a);
      LeavingKeepsAhead(q, leaves.value, a, b);
    }
    if joins.Some? {
      assert Turn(q, leaves, joins) == p + [joins.value];
      LastIsNew(p, joins.value);
      JoiningKeepsAhead(p, joins.value, a, b);
    } else {
      assert Turn(q, leaves, joins) == p;
    }
  }

  lemma LastIsNew(p: seq<nat>, x: nat)
    requires Distinct(p + [x])
    ensures x !in p
  {
    forall i | 0 <= i < |p| ensures p[i] != x {
      assert p[i] == (p + [x])[i] && x == (p + [x])[|p|];
    }
  }

  /** The head of the list has nobody ahead of it. */
  lemma HeadIsFirst(q: seq<nat>, a: nat, b: nat)
    requires Distinct(q) && Ahead(q, a, b) && a != b
    ensures q != [] && q[0] != b
  {
    if b in q {
      var i, j :| 0 <= i < j < |q| && q[i] == a && q[j] == b;
      assert q[0] != q[j];
    }
  }

  lemma {:induction false} WithoutHead(q: seq<nat>)
    requires Distinct(q) && q != []
    ensures Without(q, q[0]) == q[1..]
  {
    WithoutAbsent(q[1..], q[0]);
  }

  // ---------- run queues ----------

  /** The task that leaves the queue of `slot` in this step: it is popped, or removed. */
  function QueueLeaver(w: Sys, step: Step, slot: Slot): Option<nat>
    requires Enabled(w, step) && slot in w.queues
  {
    match step
    case Pop(worker, part) => if Slot(worker.ctx, part) == slot then Some(w.queues[slot][0]) else None
    case Remove(t) => if w.tasks[t].home == slot then Some(t) else None
    case _ => None
  }

  function IfAt(w: Sys, q: seq<nat>, slot: Slot): Option<nat> {
    if q != [] && q[0] < |w.tasks| && w.tasks[q[0]].home == slot then Some(q[0]) else None
  }

  /** The task that joins it: it is created, it yields, or it is woken. */
  function QueueJoiner(w: Sys, step: Step, slot: Slot): Option<nat>
    requires Enabled(w, step)
  {
    match step
    case Spawn(c) => if Slot(c, w.ctxs[c].nextId % w.ctxs[c].parts) == slot then Some(|w.tasks|) else None
    case Yield(worker) => if w.tasks[Current(w, worker)].home == slot then Some(Current(w, worker)) else None
    case Notify(s) => IfAt(w, w.sems[s].blocked, slot)
    case Remove(t) =>
      var sem := w.sems[w.tasks[t].waiting.value];
      if HandsOn(sem, w.tasks[t].home.ctx) then IfAt(w, Without(sem.blocked, t), slot) else None
    case _ => None
  }

  lemma WakeQueues(w: Sys, s: nat, slot: Slot)
    requires s < |w.sems| && (w.sems[s].blocked != [] ==> TaskOk(w, w.sems[s].blocked[0])) && slot in w.queues
    ensures slot in Wake(w, s).queues && Wake(w, s).queues[slot] == Turn(w.queues[slot], None, IfAt(w, w.sems[s].blocked, slot))
  {
  }

  lemma DestroyQueues(w: Sys, s: nat, t: nat, slot: Slot)
    requires TaskOk(w, t) && s < |w.sems| && slot in w.queues
    ensures var v := Destroy(w, s, t);
      && slot in v.queues && |v.tasks| == |w.tasks| && (forall u | 0 <= u < |w.tasks| :: v.tasks[u].home == w.tasks[u].home)
      && v.queues[slot] == if w.tasks[t].home == slot then Without(w.queues[slot], t) else w.queues[slot]
  {
  }

  lemma RemoveQueues(w: Sys, t: nat, slot: Slot)
    requires Enabled(w, Remove(t)) && slot in w.queues
    ensures slot in Next(w, Remove(t)).queues
    ensures Next(w, Remove(t)).queues[slot] ==
      Turn(w.queues[slot], QueueLeaver(w, Remove(t), slot), QueueJoiner(w, Remove(t), slot))
  {
    hide Wake, Destroy, Without;
    var s := w.tasks[t].waiting.value;
    var v := Destroy(w, s, t);
    DestroyQueues(w, s, t, slot);
    if v.sems[s].blocked != [] {
      WithoutElement(w.sems[s].blocked, t, v.sems[s].blocked[0]);
    }
    WakeQueues(v, s, slot);
  }

  lemma PopQueues(w: Sys, step: Step, slot: Slot)
    requires Enabled(w, step) && step.Pop? && slot in w.queues && Distinct(w.queues[slot])
    ensures slot in Next(w, step).queues
    ensures Next(w, step).queues[slot] == Turn(w.queues[slot], QueueLeaver(w, step, slot), QueueJoiner(w, step, slot))
  {
    if Slot(step.worker.ctx, step.part) == slot {
      WithoutHead(w.queues[slot]);
    }
  }

  lemma OtherQueues(w: Sys, step: Step, slot: Slot)
    requires Enabled(w, step) && !step.Pop? && !step.Remove? && !step.Notify? && slot in w.queues
    requires step.NewContext? ==> slot.ctx != |w.ctxs|
    ensures slot in Next(w, step).queues
    ensures Next(w, step).queues[slot] == Turn(w.queues[slot], QueueLeaver(w, step, slot), QueueJoiner(w, step, slot))
  {
  }

  lemma NotifyQueues(w: Sys, s: nat, slot: Slot)
    requires Enabled(w, Notify(s)) && slot in w.queues
    ensures slot in Next(w, Notify(s)).queues
    ensures Next(w, Notify(s)).queues[slot] == Turn(w.queues[slot], None, QueueJoiner(w, Notify(s), slot))
    ensures QueueLeaver(w, Notify(s), slot) == None
  {
    hide Wake;
    WakeQueues(w, s, slot);
  }

  lemma QueueIsDistinct(w: Sys, slot: Slot)
    requires Inv(w) && slot in w.queues
    ensures Distinct(w.queues[slot]) && slot.ctx < |w.ctxs|
    ensures forall t | t in w.queues[slot] :: t < |w.tasks| && w.tasks[t].home == slot
  {
    assert QueueExact(w, slot, w.queues[slot]) && SlotExists(w.ctxs, slot);
    forall t | t in w.queues[slot] ensures t < |w.tasks| && w.tasks[t].home == slot {
      assert QueuedAt(w, t, slot);
    }
  }

  /** What any step does to a run queue: the task popped or removed leaves, and the task
      created, yielded or woken comes last.  The others keep their order. */
  lemma QueueFollows(w: Sys, step: Step, slot: Slot)
    requires Inv(w) && Enabled(w, step) && slot in w.queues
    ensures slot in Next(w, step).queues
    ensures Next(w, step).queues[slot] == Turn(w.queues[slot], QueueLeaver(w, step, slot), QueueJoiner(w, step, slot))
  {
    QueueIsDistinct(w, slot);
    hide Inv, Turn, Enabled, Next, QueueLeaver, QueueJoiner;
    if step.Pop? {
      PopQueues(w, step, slot);
    } else if step.Remove? {
      RemoveQueues(w, step.task, slot);
    } else if step.Notify? {
      NotifyQueues(w, step.sem, slot);
    } else {
      OtherQueues(w, step, slot);
    }
  }

  // ---------- blocked lists ----------

  /** The task that a step wakes from the blocked list of `s`. */
  function Woken(w: Sys, step: Step, s: nat): Option<nat>
    requires Enabled(w, step) && s < |w.sems|
  {
    match step
    case Notify(r) => if r == s && w.sems[s].blocked != [] then Some(w.sems[s].blocked[0]) else None
    case Remove(t) =>
      var rest := Without(w.sems[s].blocked, t);
      if w.tasks[t].waiting == Some(s) && HandsOn(w.sems[s], w.tasks[t].home.ctx) && rest != [] then Some(rest[0]) else None
    case _ => None
  }

  /** The waiting task that a step removes. */
  function Torn(w: Sys, step: Step, s: nat): Option<nat>
    requires Enabled(w, step) && s < |w.sems|
  {
    if step.Remove? && w.tasks[step.task].waiting == Some(s) then Some(step.task) else None
  }

  /** The task that a step blocks. */
  function Blocks(w: Sys, step: Step, s: nat): Option<nat>
    requires Enabled(w, step) && s < |w.sems|
  {
    if step.Attempt? && w.tasks[Current(w, step.worker)].holds == Some(s) && w.sems[s].vacant == 0
    then Some(Current(w, step.worker)) else None
  }

  lemma RecordTurns(w: Sys, step: Step, s: nat)
    requires Enabled(w, step) && s < |w.sems| && Distinct(w.sems[s].blocked)
    requires forall t: nat :: Distinct(Without(w.sems[s].blocked, t))
    ensures var q := Turn(w.sems[s].blocked, Torn(w, step, s), None);
      After(w.sems[s], ChangeOf(w, step, s)).blocked == Turn(q, Woken(w, step, s), Blocks(w, step, s))
  {
    hide Distinct, Without;
    var q := w.sems[s].blocked;
    if step.Notify? && q != [] {
      WithoutHead(q);
    } else if step.Remove? {
      var rest := Without(q, step.task);
      if rest != [] {
        WithoutHead(rest);
      }
    }
  }

  /** What any step does to a blocked list: a task that is torn down leaves it, then the
      first of the others if a wake-up is due, and a task that blocks comes last. */
  lemma BlockedFollows(w: Sys, step: Step, s: nat)
    requires Inv(w) && Enabled(w, step) && s < |w.sems|
    ensures s < |Next(w, step).sems|
    ensures var q := Turn(w.sems[s].blocked, Torn(w, step, s), None);
      Next(w, step).sems[s].blocked == Turn(q, Woken(w, step, s), Blocks(w, step, s))
  {
    hide Inv, Enabled, Next, ChangeOf, After, Turn, Torn, Woken, Blocks, Distinct;
    WokenNotBlocked(w, s);
    forall t: nat ensures Distinct(Without(w.sems[s].blocked, t)) {
      WithoutDistinct(w.sems[s].blocked, t);
    }
    RecordTurns(w, step, s);
    NextFollows(w, step, s);
  }

  // ---------- over runs ----------

  /** In every state of the run the task is queued at `slot`. */
  predicate StaysQueued(w: Sys, steps: seq<Step>, slot: Slot, t: nat)
    requires Valid(w, steps)
    decreases |steps|
  {
    slot in w.queues && t in w.queues[slot] && (steps == [] || StaysQueued(Next(w, steps[0]), steps[1..], slot, t))
  }

  /** The tasks popped from `slot`, in order. */
  function PoppedFrom(w: Sys, steps: seq<Step>, slot: Slot): seq<nat>
    requires Valid(w, steps)
    decreases |steps|
  {
    if steps == [] then []
    else
      (if steps[0].Pop? && Slot(steps[0].worker.ctx, steps[0].part) == slot then [w.queues[slot][0]] else [])
      + PoppedFrom(Next(w, steps[0]), steps[1..], slot)
  }

  lemma JoinerIsAnother(w: Sys, step: Step, slot: Slot)
    requires Enabled(w, step) && slot in w.queues
    ensures QueueLeaver(w, step, slot) == None || QueueJoiner(w, step, slot) != QueueLeaver(w, step, slot)
  {
    if step.Remove? {
      var rest := Without(w.sems[w.tasks[step.task].waiting.value].blocked, step.task);
      if rest != [] {
        WithoutElement(w.sems[w.tasks[step.task].waiting.value].blocked, step.task, rest[0]);
      }
    }
  }

  lemma StepServesInOrder(w: Sys, step: Step, slot: Slot, a: nat, b: nat)
    requires Inv(w) && Enabled(w, step) && slot in w.queues && a != b && Ahead(w.queues[slot], a, b)
    requires slot in Next(w, step).queues && a in Next(w, step).queues[slot]
    ensures Ahead(Next(w, step).queues[slot], a, b)
    ensures step.Pop? && Slot(step.worker.ctx, step.part) == slot ==> w.queues[slot] != [] && w.queues[slot][0] != b
  {
    hide Inv, Enabled, Next, Turn, QueueLeaver, QueueJoiner, Ahead, Distinct;
    QueueFollows(w, step, slot);
    QueueIsDistinct(w, slot);
    NextKeepsInv(w, step);
    QueueIsDistinct(Next(w, step), slot);
    JoinerIsAnother(w, step, slot);
    TurnKeepsAhead(w.queues[slot], QueueLeaver(w, step, slot), QueueJoiner(w, step, slot), a, b);
    HeadIsFirst(w.queues[slot], a, b);
  }

  /** As long as a task stays in its run queue, no task is popped that was not ahead of
      it: whoever joined later waits. */
  lemma {:induction false} QueuesServeInOrder(w: Sys, steps: seq<Step>, slot: Slot, a: nat, b: nat)
    requires Inv(w) && Valid(w, steps) && StaysQueued(w, steps, slot, a) && a != b && Ahead(w.queues[slot], a, b)
    ensures b !in PoppedFrom(w, steps, slot)
    ensures slot in Execute(w, steps).queues && Ahead(Execute(w, steps).queues[slot], a, b)
    decreases |steps|
  {
    hide Inv, Enabled, Next, Ahead;
    if steps != [] {
      NextKeepsInv(w, steps[0]);
      QueueFollows(w, steps[0], slot);
      StaysHere(Next(w, steps[0]), steps[1..], slot, a);
      StepServesInOrder(w, steps[0], slot, a, b);
      QueuesServeInOrder(Next(w, steps[0]), steps[1..], slot, a, b);
    }
  }

  lemma StaysHere(w: Sys, steps: seq<Step>, slot: Slot, t: nat)
    requires Valid(w, steps) && StaysQueued(w, steps, slot, t)
    ensures slot in w.queues && t in w.queues[slot]
  {
  }

  /** In every state of the run the task is blocked on `s`. */
  predicate StaysBlocked(w: Sys, steps: seq<Step>, s: nat, t: nat)
    requires Valid(w, steps)
    decreases |steps|
  {
    s < |w.sems| && t in w.sems[s].blocked && (steps == [] || StaysBlocked(Next(w, steps[0]), steps[1..], s, t))
  }

  /** The tasks woken from the blocked list of `s`, in order. */
  function WokenFrom(w: Sys, steps: seq<Step>, s: nat): seq<nat>
    requires Valid(w, steps)
    decreases |steps|
  {
    if steps == [] then []
    else
      (if s < |w.sems| && Woken(w, steps[0], s).Some? then [Woken(w, steps[0], s).value] else [])
      + WokenFrom(Next(w, steps[0]), steps[1..], s)
  }

  lemma BlockedStays(w: Sys, steps: seq<Step>, s: nat, t: nat)
    requires Valid(w, steps) && StaysBlocked(w, steps, s, t)
    ensures s < |w.sems| && t in w.sems[s].blocked
  {
  }

  lemma WokenIsHead(w: Sys, step: Step, s: nat)
    requires Enabled(w, step) && s < |w.sems| && Woken(w, step, s).Some?
    ensures var q := Turn(w.sems[s].blocked, Torn(w, step, s), None); q != [] && q[0] == Woken(w, step, s).value
    ensures Blocks(w, step, s) == None
  {
    hide Without;
  }

  lemma BlockerIsNew(w: Sys, step: Step, s: nat)
    requires Enabled(w, step) && s < |w.sems|
    ensures Blocks(w, step, s) == None || (Torn(w, step, s) == None && Woken(w, step, s) == None)
  {
  }

  lemma LeavingKeepsDistinct(q: seq<nat>, leaves: Option<nat>)
    requires Distinct(q)
    ensures Distinct(Turn(q, leaves, None))
  {
    if leaves.Some? {
      WithoutDistinct(q, leaves.value);
      assert Turn(q, leaves, None) == Without(q, leaves.value);
    } else {
      assert Turn(q, leaves, None) == q;
    }
  }

  lemma StaysThrough(q: seq<nat>, torn: Option<nat>, leaves: Option<nat>, joins: Option<nat>, t: nat)
    requires t in q && t in Turn(Turn(q, torn, None), leaves, joins)
    requires joins == None || (torn == None && leaves == None)
    ensures t in Turn(q, torn, None)
  {
    if leaves.Some? {
      WithoutElement(Turn(q, torn, None), leaves.value, t);
    }
  }

  lemma StepWakesInOrder(w: Sys, step: Step, s: nat, a: nat, b: nat)
    requires Inv(w) && Enabled(w, step) && s < |w.sems| && a != b && Ahead(w.sems[s].blocked, a, b)
    requires s < |Next(w, step).sems| && a in Next(w, step).sems[s].blocked
    ensures Ahead(Next(w, step).sems[s].blocked, a, b)
    ensures Woken(w, step, s) != Some(b)
  {
    hide Inv, Enabled, Next, Turn, Torn, Woken, Blocks, Before, Distinct;
    var blocked := w.sems[s].blocked;
    var q := Turn(blocked, Torn(w, step, s), None);
    BlockedFollows(w, step, s);
    WokenNotBlocked(w, s);
    NextKeepsInv(w, step);
    WokenNotBlocked(Next(w, step), s);
    BlockerIsNew(w, step, s);
    LeavingKeepsDistinct(blocked, Torn(w, step, s));
    StaysThrough(blocked, Torn(w, step, s), Woken(w, step, s), Blocks(w, step, s), a);
    TurnKeepsAhead(blocked, Torn(w, step, s), None, a, b);
    TurnKeepsAhead(q, Woken(w, step, s), Blocks(w, step, s), a, b);
    if Woken(w, step, s).Some? {
      WokenIsHead(w, step, s);
      HeadIsFirst(q, a, b);
    }
  }

  /** As long as a task stays blocked, no task is woken that was not blocked before it. */
  lemma {:induction false} ConditionsWakeInOrder(w: Sys, steps: seq<Step>, s: nat, a: nat, b: nat)
    requires Inv(w) && Valid(w, steps) && StaysBlocked(w, steps, s, a) && a != b && Ahead(w.sems[s].blocked, a, b)
    ensures b !in WokenFrom(w, steps, s)
    ensures s < |Execute(w, steps).sems| && Ahead(Execute(w, steps).sems[s].blocked, a, b)
    decreases |steps|
  {
    hide Inv, Enabled, Next, Ahead, Woken;
    BlockedStays(w, steps, s, a);
    if steps != [] {
      NextKeepsInv(w, steps[0]);
      BlockedFollows(w, steps[0], s);
      BlockedStays(Next(w, steps[0]), steps[1..], s, a);
      StepWakesInOrder(w, steps[0], s, a, b);
      ConditionsWakeInOrder(Next(w, steps[0]), steps[1..], s, a, b);
    }
  }
}
