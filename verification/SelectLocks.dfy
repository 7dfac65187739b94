/** A transfer that commits selects, lock by lock: why it may be taken as one step.

    `BaseMsg::send_to` locks one select or two, reads their keys, commits each, and
    unlocks; `Select::operator()` locks its own to settle for the default.  Between any
    two of these any other thread may act. */
module SelectLocks {
  import opened Basics
  import Model = ChannelModel

  /** What the lock of a select protects, and who holds it. */
  datatype Locked = Locked(key: Option<int>, signal: nat, owner: Option<nat>)

  /** A select to commit, with this key; a default does not release its semaphore. */
  datatype End = End(select: nat, key: int, signals: bool)

  datatype Stage = Locking(taken: nat) | Committing(done: nat) | Unlocking(given: nat, ok: bool) | Over(ok: bool)

  /** A transfer under way.  The ends commit in this order. */
  datatype Thread = Thread(ends: seq<End>, stage: Stage)

  datatype State = State(selects: seq<Locked>, threads: seq<Thread>)

  predicate EndsOk(selects: nat, ends: seq<End>) {
    && |ends| <= 2 && (forall i | 0 <= i < |ends| :: ends[i].select < selects)
    && (|ends| == 2 ==> ends[0].select != ends[1].select)
  }

  /** The lock taken at position `k`: in the order of the selects' addresses. */
  function Nth(ends: seq<End>, k: nat): nat
    requires k < |ends| <= 2
  {
    if |ends| == 2 && ends[0].select > ends[1].select then ends[1 - k].select else ends[k].select
  }

  predicate StageOk(x: Thread) {
    match x.stage
    case Locking(i) => i <= |x.ends|
    case Committing(i) => i <= |x.ends|
    case Unlocking(i, _) => i <= |x.ends|
    case Over(_) => true
  }

  predicate ThreadOk(w: State, t: nat) {
    t < |w.threads| && EndsOk(|w.selects|, w.threads[t].ends) && StageOk(w.threads[t])
  }

  predicate Unset(w: State, ends: seq<End>)
    requires EndsOk(|w.selects|, ends)
  {
    forall i | 0 <= i < |ends| :: w.selects[ends[i].select].key == None
  }

  /** A thread spins until the next lock is free; nothing else makes it wait. */
  predicate CanStep(w: State, t: nat) {
    && ThreadOk(w, t) && !w.threads[t].stage.Over?
    && (w.threads[t].stage.Locking? && w.threads[t].stage.taken < |w.threads[t].ends| ==>
          w.selects[Nth(w.threads[t].ends, w.threads[t].stage.taken)].owner == None)
  }

  function SetOwner(w: State, s: nat, owner: Option<nat>): State
    requires s < |w.selects|
  {
    w.(selects := w.selects[s := w.selects[s].(owner := owner)])
  }

  function CommitOne(x: Locked, e: End): Locked {
    x.(key := Some(e.key), signal := x.signal + if e.signals then 1 else 0)
  }

  function At(w: State, t: nat, stage: Stage): State
    requires t < |w.threads|
  {
    w.(threads := w.threads[t := w.threads[t].(stage := stage)])
  }

  function Step(w: State, t: nat): State
    requires CanStep(w, t)
  {
    var x := w.threads[t];
    match x.stage
    case Locking(i) =>
      if i < |x.ends| then At(SetOwner(w, Nth(x.ends, i), Some(t)), t, Locking(i + 1))
      else At(w, t, if Unset(w, x.ends) then Committing(0) else Unlocking(0, false))
    case Committing(i) =>
      if i < |x.ends| then
        var s := x.ends[i].select;
        At(w.(selects := w.selects[s := CommitOne(w.selects[s], x.ends[i])]), t, Committing(i + 1))
      else At(w, t, Unlocking(0, true))
    case Unlocking(i, ok) =>
      if i < |x.ends| then At(SetOwner(w, Nth(x.ends, i), None), t, Unlocking(i + 1, ok))
      else At(w, t, Over(ok))
  }

  // ---------- who holds what ----------

  /** The positions of the locks that a thread holds. */
  function From(x: Thread): nat {
    if x.stage.Unlocking? then x.stage.given else 0
  }

  function To(x: Thread): nat {
    match x.stage
    case Locking(i) => i
    case Over(_) => 0
    case _ => |x.ends|
  }

  predicate Holds(x: Thread, s: nat) {
    && To(x) <= |x.ends| <= 2
    && ((From(x) <= 0 < To(x) && Nth(x.ends, 0) == s) || (From(x) <= 1 < To(x) && Nth(x.ends, 1) == s))
  }

  /** A thread that is committing has committed its first ends, and nobody the others. */
  predicate CommittedSoFar(w: State, x: Thread)
    requires EndsOk(|w.selects|, x.ends)
  {
    x.stage.Committing? ==>
      forall j | 0 <= j < |x.ends| ::
        w.selects[x.ends[j].select].key == if j < x.stage.done then Some(x.ends[j].key) else None
  }

  ghost predicate OwnersOk(w: State) {
    && (forall s | 0 <= s < |w.selects| && w.selects[s].owner.Some? :: w.selects[s].owner.value < |w.threads|)
    && forall s, t: nat | 0 <= s < |w.selects| && t < |w.threads| ::
         w.selects[s].owner == Some(t) <==> Holds(w.threads[t], s)
  }

  ghost predicate Inv(w: State) {
    && (forall t | 0 <= t < |w.threads| :: ThreadOk(w, t) && CommittedSoFar(w, w.threads[t]))
    && OwnersOk(w)
  }

  lemma StepKeepsThreads(w: State, t: nat)
    requires Inv(w) && CanStep(w, t)
    ensures var v := Step(w, t);
      && |v.selects| == |w.selects| && |v.threads| == |w.threads|
      && (forall u | 0 <= u < |w.threads| :: ThreadOk(v, u) && v.threads[u].ends == w.threads[u].ends)
      && forall u | 0 <= u < |w.threads| && u != t :: v.threads[u] == w.threads[u]
  {
    assert forall u | 0 <= u < |w.threads| :: ThreadOk(w, u);
  }

  /** Locking and unlocking change who holds one select, in the order of the addresses. */
  lemma StepKeepsOwner(w: State, t: nat, s: nat, u: nat)
    requires Inv(w) && CanStep(w, t) && s < |w.selects| && u < |w.threads|
    ensures s < |Step(w, t).selects| && u < |Step(w, t).threads|
    ensures Step(w, t).selects[s].owner == Some(u) <==> Holds(Step(w, t).threads[u], s)
  {
    StepKeepsThreads(w, t);
    assert w.selects[s].owner == Some(u) <==> Holds(w.threads[u], s);
    assert w.selects[s].owner == Some(t) <==> Holds(w.threads[t], s);
  }

  lemma StepKeepsOwners(w: State, t: nat)
    requires Inv(w) && CanStep(w, t)
    ensures OwnersOk(Step(w, t))
  {
    StepKeepsThreads(w, t);
    OwnersBounded(w, t);
    hide Inv, Step, CanStep, Holds;
    forall s, u: nat | 0 <= s < |w.selects| && u < |w.threads|
      ensures Step(w, t).selects[s].owner == Some(u) <==> Holds(Step(w, t).threads[u], s)
    {
      StepKeepsOwner(w, t, s, u);
    }
  }

  lemma OwnersBounded(w: State, t: nat)
    requires Inv(w) && CanStep(w, t)
    ensures var v := Step(w, t);
      forall s | 0 <= s < |v.selects| && v.selects[s].owner.Some? :: v.selects[s].owner.value < |v.threads|
  {
  }

  /** A thread that commits holds all its selects. */
  lemma CommitterOwns(w: State, t: nat, j: nat)
    requires Inv(w) && t < |w.threads| && w.threads[t].stage.Committing? && j < |w.threads[t].ends|
    ensures w.threads[t].ends[j].select < |w.selects| && w.selects[w.threads[t].ends[j].select].owner == Some(t)
  {
    var x, s := w.threads[t], w.threads[t].ends[j].select;
    assert ThreadOk(w, t);
    assert Holds(x, s);
    assert w.selects[s].owner == Some(t) <==> Holds(x, s);
  }

  /** A select that a thread holds is written by nobody else. */
  lemma StepKeepsCommitted(w: State, t: nat, u: nat)
    requires Inv(w) && CanStep(w, t) && u < |w.threads|
    ensures ThreadOk(Step(w, t), u) && CommittedSoFar(Step(w, t), Step(w, t).threads[u])
  {
    var x, y := w.threads[t], w.threads[u];
    StepKeepsThreads(w, t);
    assert ThreadOk(w, u) && CommittedSoFar(w, y) && CommittedSoFar(w, x);
    if u != t && y.stage.Committing? && x.stage.Committing? && x.stage.done < |x.ends| {
      CommitterOwns(w, t, x.stage.done);
      forall j | 0 <= j < |y.ends| ensures y.ends[j].select != x.ends[x.stage.done].select {
        CommitterOwns(w, u, j);
      }
    }
  }

  lemma StepKeepsInv(w: State, t: nat)
    requires Inv(w) && CanStep(w, t)
    ensures Inv(Step(w, t))
  {
    hide Step, CanStep, CommittedSoFar, OwnersOk;
    StepKeepsThreads(w, t);
    StepKeepsOwners(w, t);
    forall u | 0 <= u < |w.threads| ensures ThreadOk(Step(w, t), u) && CommittedSoFar(Step(w, t), Step(w, t).threads[u]) {
      StepKeepsCommitted(w, t, u);
    }
  }

  // ---------- what others can see ----------

  /** The end of the thread that is still to commit select `s`. */
  function Pending(x: Thread, s: nat): Option<End> {
    if !x.stage.Committing? then None
    else if x.stage.done <= 0 < |x.ends| && x.ends[0].select == s then Some(x.ends[0])
    else if x.stage.done <= 1 < |x.ends| && x.ends[1].select == s then Some(x.ends[1])
    else None
  }

  /** A select as a thread sees it that takes its lock next: while a transfer commits,
      its lock is held, and by the time it is free all is committed. */
  function View(w: State, s: nat): Locked
    requires s < |w.selects|
  {
    var x := w.selects[s];
    var e := if x.owner.Some? && x.owner.value < |w.threads| then Pending(w.threads[x.owner.value], s) else None;
    (if e.Some? then CommitOne(x, e.value) else x).(owner := None)
  }

  function Views(w: State): (views: seq<Locked>)
    ensures |views| == |w.selects| && forall s | 0 <= s < |views| :: views[s] == View(w, s)
  {
    seq(|w.selects|, s requires 0 <= s < |w.selects| => View(w, s))
  }

  predicate AllUnset(views: seq<Locked>, ends: seq<End>)
    requires EndsOk(|views|, ends)
  {
    forall i | 0 <= i < |ends| :: views[ends[i].select].key == None
  }

  function CommitAll(views: seq<Locked>, ends: seq<End>): (after: seq<Locked>)
    requires EndsOk(|views|, ends)
    ensures |after| == |views|
  {
    if ends == [] then views
    else
      var one := views[ends[0].select := CommitOne(views[ends[0].select], ends[0])];
      if |ends| == 1 then one else one[ends[1].select := CommitOne(one[ends[1].select], ends[1])]
  }

  /** The transfer as one step: all its ends commit, or nothing changes. */
  function Atomic(views: seq<Locked>, ends: seq<End>): (after: seq<Locked>)
    requires EndsOk(|views|, ends)
    ensures |after| == |views|
  {
    if AllUnset(views, ends) then CommitAll(views, ends) else views
  }

  /** The thread is about to read the keys, all its locks taken. */
  predicate Decides(x: Thread) {
    x.stage == Locking(|x.ends|)
  }

  /** Committing an end that is pending leaves the view alone. */
  lemma CommitViews(w: State, t: nat, s: nat)
    requires Inv(w) && CanStep(w, t) && w.threads[t].stage.Committing? && s < |w.selects|
    ensures s < |Step(w, t).selects| && View(Step(w, t), s) == View(w, s)
  {
    var x := w.threads[t];
    if x.stage.done < |x.ends| {
      CommitterOwns(w, t, x.stage.done);
    }
  }

  /** Taking or giving back a lock does too, for nothing is pending. */
  lemma LockViews(w: State, t: nat, s: nat)
    requires Inv(w) && CanStep(w, t) && !Decides(w.threads[t]) && !w.threads[t].stage.Committing? && s < |w.selects|
    ensures s < |Step(w, t).selects| && View(Step(w, t), s) == View(w, s)
  {
    var x := w.threads[t];
    var v := Step(w, t);
    StepKeepsThreads(w, t);
    assert v.selects[s].key == w.selects[s].key && v.selects[s].signal == w.selects[s].signal;
    assert Pending(x, s) == None && Pending(v.threads[t], s) == None;
    if x.stage.Unlocking? && x.stage.given < |x.ends| && Nth(x.ends, x.stage.given) == s {
      assert Holds(x, s) && w.selects[s].owner == Some(t);
    }
  }

  lemma DecisionViews(w: State, t: nat, s: nat)
    requires Inv(w) && CanStep(w, t) && Decides(w.threads[t]) && s < |w.selects|
    ensures s < |Step(w, t).selects| && EndsOk(|w.selects|, w.threads[t].ends)
    ensures Unset(w, w.threads[t].ends) <==> AllUnset(Views(w), w.threads[t].ends)
    ensures View(Step(w, t), s) == Atomic(Views(w), w.threads[t].ends)[s]
  {
    var x := w.threads[t];
    assert ThreadOk(w, t);
    assert w.selects[s].owner == Some(t) <==> Holds(x, s);
    forall i | 0 <= i < |x.ends| ensures View(w, x.ends[i].select).key == w.selects[x.ends[i].select].key {
      assert Holds(x, x.ends[i].select) && w.selects[x.ends[i].select].owner == Some(t);
    }
  }

  /** Any step of any thread is, to whoever takes a lock, either nothing or one whole
      transfer: it happens when the thread reads the keys, and as those views decide. */
  lemma StepIsAtomic(w: State, t: nat)
    requires Inv(w) && CanStep(w, t)
    ensures EndsOk(|w.selects|, w.threads[t].ends)
    ensures Views(Step(w, t)) == if Decides(w.threads[t]) then Atomic(Views(w), w.threads[t].ends) else Views(w)
    ensures Decides(w.threads[t]) ==>
      Step(w, t).threads[t].stage == if AllUnset(Views(w), w.threads[t].ends) then Committing(0) else Unlocking(0, false)
  {
    hide Inv, Step, View, CommitAll;
    InvThreads(w, t);
    StepKeepsThreads(w, t);
    var v := Step(w, t);
    forall s | 0 <= s < |w.selects|
      ensures View(v, s) == (if Decides(w.threads[t]) then Atomic(Views(w), w.threads[t].ends) else Views(w))[s]
    {
      if Decides(w.threads[t]) {
        DecisionViews(w, t, s);
      } else {
        if w.threads[t].stage.Committing? {
          CommitViews(w, t, s);
        } else {
          LockViews(w, t, s);
        }
      }
    }
    if Decides(w.threads[t]) {
      DecisionStage(w, t);
    }
  }

  lemma InvThreads(w: State, t: nat)
    requires Inv(w) && t < |w.threads|
    ensures ThreadOk(w, t)
  {
  }

  lemma DecisionStage(w: State, t: nat)
    requires Inv(w) && CanStep(w, t) && Decides(w.threads[t])
    ensures EndsOk(|w.selects|, w.threads[t].ends) && t < |Step(w, t).threads|
    ensures Step(w, t).threads[t].stage == if AllUnset(Views(w), w.threads[t].ends) then Committing(0) else Unlocking(0, false)
  {
    var x := w.threads[t];
    forall i | 0 <= i < |x.ends| ensures View(w, x.ends[i].select).key == w.selects[x.ends[i].select].key {
      assert Holds(x, x.ends[i].select) && w.selects[x.ends[i].select].owner == Some(t);
    }
  }

  // ---------- over whole runs ----------

  predicate Valid(w: State, schedule: seq<nat>)
    decreases |schedule|
  {
    schedule == [] || (CanStep(w, schedule[0]) && Valid(Step(w, schedule[0]), schedule[1..]))
  }

  function Execute(w: State, schedule: seq<nat>): State
    requires Valid(w, schedule)
    decreases |schedule|
  {
    if schedule == [] then w else Execute(Step(w, schedule[0]), schedule[1..])
  }

  /** The transfers of a run in the order in which their threads decide. */
  function Decisions(w: State, schedule: seq<nat>): seq<seq<End>>
    requires Valid(w, schedule)
    decreases |schedule|
  {
    if schedule == [] then []
    else
      (if Decides(w.threads[schedule[0]]) then [w.threads[schedule[0]].ends] else [])
      + Decisions(Step(w, schedule[0]), schedule[1..])
  }

  function AtomicRun(views: seq<Locked>, transfers: seq<seq<End>>): seq<Locked>
    requires forall i | 0 <= i < |transfers| :: EndsOk(|views|, transfers[i])
    decreases |transfers|
  {
    if transfers == [] then views else AtomicRun(Atomic(views, transfers[0]), transfers[1..])
  }

  lemma RunStep(w: State, schedule: seq<nat>)
    requires Valid(w, schedule) && schedule != []
    ensures var t := schedule[0];
      && CanStep(w, t) && t < |w.threads| && Valid(Step(w, t), schedule[1..])
      && Execute(w, schedule) == Execute(Step(w, t), schedule[1..])
      && Decisions(w, schedule) ==
           (if Decides(w.threads[t]) then [w.threads[t].ends] else []) + Decisions(Step(w, t), schedule[1..])
  {
  }

  lemma AtomicFirst(views: seq<Locked>, ends: seq<End>, rest: seq<seq<End>>)
    requires EndsOk(|views|, ends) && forall i | 0 <= i < |rest| :: EndsOk(|views|, rest[i])
    ensures forall i | 0 <= i < |[ends] + rest| :: EndsOk(|views|, ([ends] + rest)[i])
    ensures AtomicRun(views, [ends] + rest) == AtomicRun(Atomic(views, ends), rest)
  {
    assert ([ends] + rest)[1..] == rest;
  }

  /** In every interleaving the selects end as if the transfers had been made one after
      another, each in one step. */
  lemma {:induction false} TransfersAreAtomic(w: State, schedule: seq<nat>)
    requires Inv(w) && Valid(w, schedule)
    ensures forall i | 0 <= i < |Decisions(w, schedule)| :: EndsOk(|w.selects|, Decisions(w, schedule)[i])
    ensures Views(Execute(w, schedule)) == AtomicRun(Views(w), Decisions(w, schedule))
    decreases |schedule|
  {
    if schedule != [] {
      hide Inv, CanStep, Step, View, Atomic, Valid, Execute, Decisions, AtomicRun, EndsOk;
      var t := schedule[0];
      RunStep(w, schedule);
      StepKeepsInv(w, t);
      StepKeepsThreads(w, t);
      StepIsAtomic(w, t);
      TransfersAreAtomic(Step(w, t), schedule[1..]);
      if Decides(w.threads[t]) {
        AtomicFirst(Views(w), w.threads[t].ends, Decisions(Step(w, t), schedule[1..]));
      } else {
        assert [] + Decisions(Step(w, t), schedule[1..]) == Decisions(Step(w, t), schedule[1..]);
      }
    }
  }

  // ---------- what a transfer reports ----------

  /** What a thread has to report at this stage, once it has decided. */
  function Report(stage: Stage): seq<bool> {
    match stage
    case Locking(_) => []
    case Committing(_) => [true]
    case Unlocking(_, ok) => [ok]
    case Over(ok) => [ok]
  }

  /** Whether the transfer of thread `t` commits, when it decides. */
  function Verdict(w: State, t: nat, u: nat): seq<bool>
    requires CanStep(w, u)
  {
    if u == t && Decides(w.threads[u]) then [AllUnset(Views(w), w.threads[u].ends)] else []
  }

  function Verdicts(w: State, schedule: seq<nat>, t: nat): seq<bool>
    requires Valid(w, schedule)
    decreases |schedule|
  {
    if schedule == [] then [] else Verdict(w, t, schedule[0]) + Verdicts(Step(w, schedule[0]), schedule[1..], t)
  }

  lemma StepReports(w: State, u: nat, t: nat)
    requires Inv(w) && CanStep(w, u) && t < |w.threads|
    ensures t < |Step(w, u).threads|
    ensures Report(Step(w, u).threads[t].stage) == Report(w.threads[t].stage) + Verdict(w, t, u)
  {
    hide Inv, AllUnset, Views;
    if u == t && Decides(w.threads[t]) {
      DecisionStage(w, t);
    }
  }

  /** In every interleaving a transfer reports exactly what was decided: that it was
      `Ok` if and only if both keys were unset, and then both ends have committed. */
  lemma {:induction false} ReportsOutcome(w: State, schedule: seq<nat>, t: nat)
    requires Inv(w) && Valid(w, schedule) && t < |w.threads|
    ensures t < |Execute(w, schedule).threads|
    ensures Report(Execute(w, schedule).threads[t].stage) == Report(w.threads[t].stage) + Verdicts(w, schedule, t)
    decreases |schedule|
  {
    hide Inv, CanStep, Step, Report, Verdict;
    if schedule != [] {
      StepKeepsInv(w, schedule[0]);
      StepReports(w, schedule[0], t);
      ReportsOutcome(Step(w, schedule[0]), schedule[1..], t);
    }
  }

  // ---------- the steps of the channel model ----------

  /** A select of `ChannelModel`, as a thread sees it that holds its lock. */
  function Shown(x: Model.Select): Locked {
    Locked(if x.key == Model.INVALID_SELECT_KEY then None else Some(x.key), x.signal, None)
  }

  function Shows(w: Model.World): (views: seq<Locked>)
    ensures |views| == |w.selects| && forall s | 0 <= s < |views| :: views[s] == Shown(w.selects[s])
  {
    seq(|w.selects|, s requires 0 <= s < |w.selects| => Shown(w.selects[s]))
  }

  function EndsOf(w: Model.World, m: nat): seq<End>
    requires Model.MsgOk(w, m)
  {
    match w.msgs[m].end
    case Simplex => []
    case Multiplex(s, key) => [End(s, key, true)]
  }

  lemma UnsetIsLive(w: Model.World, m: nat)
    requires Model.MsgOk(w, m)
    ensures EndsOk(|w.selects|, EndsOf(w, m)) && (AllUnset(Shows(w), EndsOf(w, m)) <==> Model.Live(w, m))
  {
    if w.msgs[m].end.Multiplex? {
      assert EndsOf(w, m)[0].select == w.msgs[m].end.select;
    }
  }

  lemma AllOfBoth(views: seq<Locked>, a: seq<End>, b: seq<End>)
    requires EndsOk(|views|, a) && EndsOk(|views|, b) && EndsOk(|views|, a + b)
    ensures AllUnset(views, a + b) <==> AllUnset(views, a) && AllUnset(views, b)
  {
    assert forall i | 0 <= i < |a| :: (a + b)[i] == a[i];
    assert forall i | 0 <= i < |b| :: (a + b)[|a| + i] == b[i];
  }

  lemma ExchangeCommitsAll(w: Model.World, src: nat, dst: nat)
    requires Model.MsgOk(w, src) && Model.MsgOk(w, dst) && src != dst
    requires EndsOk(|w.selects|, EndsOf(w, src) + EndsOf(w, dst))
    ensures Shows(Model.Exchange(w, src, dst)) == CommitAll(Shows(w), EndsOf(w, src) + EndsOf(w, dst))
  {
    assert |EndsOf(w, src) + EndsOf(w, dst)| == |EndsOf(w, src)| + |EndsOf(w, dst)|;
  }

  /** What `ChannelModel` does in one step when a sender meets a receiver is the transfer
      that the locks make atomic. */
  lemma ExchangeIsOneTransfer(w: Model.World, src: nat, dst: nat)
    requires Model.MsgOk(w, src) && Model.MsgOk(w, dst) && src != dst && Model.Match(w, src, dst) != Model.Threw
    requires w.staleRecv in {Model.AS_WRITTEN, Model.CORRECTED}
    ensures var ends := EndsOf(w, src) + EndsOf(w, dst);
      && EndsOk(|w.selects|, ends)
      && Shows(if Model.Match(w, src, dst) == Model.Ok then Model.Exchange(w, src, dst) else w) == Atomic(Shows(w), ends)
  {
    UnsetIsLive(w, src);
    UnsetIsLive(w, dst);
    var ends := EndsOf(w, src) + EndsOf(w, dst);
    assert EndsOk(|w.selects|, ends);
    hide EndsOf, Model.Exchange, CommitAll, AllUnset, Shows;
    AllOfBoth(Shows(w), EndsOf(w, src), EndsOf(w, dst));
    ExchangeCommitsAll(w, src, dst);
  }

  /** So is a commit of one message alone, to or from the buffer. */
  lemma CommitIsOneTransfer(w: Model.World, m: nat)
    requires Model.MsgOk(w, m)
    ensures EndsOk(|w.selects|, EndsOf(w, m))
    ensures Shows(if Model.Live(w, m) then Model.Commit(w, m) else w) == Atomic(Shows(w), EndsOf(w, m))
  {
    UnsetIsLive(w, m);
  }
}
