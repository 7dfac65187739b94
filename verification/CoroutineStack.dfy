/** The trampoline: the loop that runs nested coroutines without nesting calls, what it
    does, and why that is what recursion does unless an exception is caught. */
module CoroutineStack {
  import opened Basics
  import opened CoroutineModel

  // ---------- what is left to run ----------

  /** A caller: what it does with its callee's outcome, and the shape of that run. */
  datatype Cont = Cont(resume: Outcome -> Prog, run: Run)

  function Last<T>(s: seq<T>): T
    requires s != []
  {
    s[|s| - 1]
  }

  function Front<T>(s: seq<T>): seq<T>
    requires s != []
  {
    s[..|s| - 1]
  }

  /** The current frame's program and its callers' all run to their ends in these
      shapes. */
  predicate Runnable(p: Prog, flag: Option<int>, r: Run, conts: seq<Cont>)
    decreases |conts|
  {
    && Goes(p, flag, r)
    && (conts != [] ==>
          var o := Yields(p, flag, r); Runnable(Last(conts).resume(o), FlagOf(o), Last(conts).run, Front(conts)))
  }

  function Remaining(p: Prog, flag: Option<int>, r: Run, conts: seq<Cont>): seq<Obs>
    requires Runnable(p, flag, r, conts)
    decreases |conts|
  {
    if conts == [] then Log(p, flag, r)
    else
      var o := Yields(p, flag, r);
      Log(p, flag, r) + Remaining(Last(conts).resume(o), FlagOf(o), Last(conts).run, Front(conts))
  }

  function Final(p: Prog, flag: Option<int>, r: Run, conts: seq<Cont>): Outcome
    requires Runnable(p, flag, r, conts)
    decreases |conts|
  {
    var o := Yields(p, flag, r);
    if conts == [] then o else Final(Last(conts).resume(o), FlagOf(o), Last(conts).run, Front(conts))
  }

  /** Every frame left to run that has its error set will throw. */
  predicate AllObey(p: Prog, flag: Option<int>, r: Run, conts: seq<Cont>)
    requires Runnable(p, flag, r, conts)
    decreases |conts|
  {
    && Obeys(p, flag, r)
    && (conts != [] ==>
          var o := Yields(p, flag, r); AllObey(Last(conts).resume(o), FlagOf(o), Last(conts).run, Front(conts)))
  }

  function Work(conts: seq<Cont>): nat {
    if conts == [] then 0 else Size(Last(conts).run) + Work(Front(conts))
  }

  // ---------- the machine holds just that ----------

  /** A caller on the stack waits for the frame above it. */
  ghost predicate Awaits(x: Frame, callee: nat, cont: Cont) {
    x.prog.Await? && x.callee == Some(callee) && x.error == None && !x.done && x.prog.resume == cont.resume
  }

  /** The current frame is to run `p`, with this error set in advance. */
  ghost predicate Current(frames: seq<Frame>, f: nat, p: Prog, flag: Option<int>)
    requires f < |frames|
  {
    !frames[f].done && Effective(frames, f) == p && frames[f].error == flag
  }

  ghost predicate StackOk(frames: seq<Frame>, stack: seq<nat>, conts: seq<Cont>) {
    && |stack| == |conts| + 1
    && Distinct(stack) && (forall i | 0 <= i < |stack| :: stack[i] < |frames|)
    && forall i | 0 <= i < |conts| :: Awaits(frames[stack[i]], stack[i + 1], conts[i])
  }

  ghost predicate Config(m: Machine, p: Prog, flag: Option<int>, r: Run, conts: seq<Cont>) {
    && Runnable(p, flag, r, conts) && StackOk(m.frames, m.stack, conts)
    && Current(m.frames, Last(m.stack), p, flag)
  }

  // ---------- one resumption ----------

  /** `_call_stack_pop`. */
  function Popped(m: Machine): Machine
    requires m.stack != []
  {
    m.(stack := Front(m.stack))
  }

  /** The loop puts the error of a frame that has failed on the frame below. */
  function Blamed(m: Machine, error: int): Machine
    requires m.stack != [] && Last(m.stack) < |m.frames|
  {
    var f := Last(m.stack);
    m.(frames := m.frames[f := m.frames[f].(error := Some(error))])
  }

  /** A frame that is over is popped, and its error given to its caller. */
  function HandedOver(m: Machine, error: Option<int>): Machine
    requires m.stack != [] && forall i | 0 <= i < |m.stack| :: m.stack[i] < |m.frames|
  {
    if |m.stack| > 1 && error.Some? then Blamed(Popped(m), error.value) else Popped(m)
  }

  /** At its next stop the frame is over: it ends, or its error is set and it suspends. */
  predicate Over(p: Prog, flag: Option<int>) {
    var q := StopAt(p);
    q.Return? || q.Throw? || (q.Suspend? && flag.Some?)
  }

  lemma SegmentRunnable(p: Prog, flag: Option<int>, r: Run, conts: seq<Cont>)
    requires Runnable(p, flag, r, conts)
    ensures Goes(p, flag, r) && Size(RestOf(p, flag, r)) <= Size(r)
    ensures Runnable(StopAt(p), flag, RestOf(p, flag, r), conts)
  {
    hide Goes, Yields;
    SegmentMeans(p, flag, r);
  }

  lemma SegmentObeys(p: Prog, flag: Option<int>, r: Run, conts: seq<Cont>)
    requires Runnable(p, flag, r, conts) && Goes(p, flag, r) && Runnable(StopAt(p), flag, RestOf(p, flag, r), conts)
    ensures var q, s := StopAt(p), RestOf(p, flag, r);
      && Final(p, flag, r, conts) == Final(q, flag, s, conts)
      && (AllObey(p, flag, r, conts) <==> AllObey(q, flag, s, conts))
  {
    hide Goes, Yields, Log, Obeys, Runnable, Effects, StopAt, RestOf;
    SegmentMeans(p, flag, r);
  }

  lemma SegmentRuns(p: Prog, flag: Option<int>, r: Run, conts: seq<Cont>)
    requires Runnable(p, flag, r, conts)
    ensures Goes(p, flag, r) && Size(RestOf(p, flag, r)) <= Size(r)
    ensures var q, s := StopAt(p), RestOf(p, flag, r);
      && Runnable(q, flag, s, conts)
      && Remaining(p, flag, r, conts) == Effects(p) + Remaining(q, flag, s, conts)
      && Final(p, flag, r, conts) == Final(q, flag, s, conts)
      && (AllObey(p, flag, r, conts) <==> AllObey(q, flag, s, conts))
  {
    hide Goes, Yields, Log, Obeys, Runnable, Effects, StopAt, RestOf, Final, AllObey;
    SegmentRunnable(p, flag, r, conts);
    SegmentObeys(p, flag, r, conts);
    SegmentMeans(p, flag, r);
    var q, s := StopAt(p), RestOf(p, flag, r);
    var tail := Remaining(q, flag, s, conts)[|Log(q, flag, s)|..];
    assert Effects(p) + Log(q, flag, s) + tail == Effects(p) + (Log(q, flag, s) + tail);
  }

  lemma OverMeans(p: Prog, flag: Option<int>, r: Run)
    requires Goes(p, flag, r) && Over(p, flag)
    ensures Log(p, flag, r) == Effects(p) && (Obeys(p, flag, r) <==> flag == None || StopAt(p).Throw?)
    ensures Yields(p, flag, r) ==
      match StopAt(p)
      case Throw(error) => Error(error)
      case Return(value) => if flag.Some? then Error(flag.value) else Value(value)
      case _ => Error(flag.value)
  {
    SegmentMeans(p, flag, r);
  }

  /** A frame that is over shows its outcome to the loop. */
  lemma OverFrame(m: Machine, p: Prog, flag: Option<int>, r: Run, conts: seq<Cont>)
    requires Config(m, p, flag, r, conts) && Over(p, flag)
    ensures Goes(p, flag, r) && Last(m.stack) < |m.frames|
    ensures var v := Resumed(m, Last(m.stack));
      var x := v.frames[Last(m.stack)];
      && v.stack == m.stack && v.trace == m.trace + Effects(p) && StackOk(v.frames, v.stack, conts)
      && OutcomeOf(x) == Yields(p, flag, r) && FlagOf(Yields(p, flag, r)) == x.error
      && (x.error == None ==> x.done && Value(x.value) == Yields(p, flag, r))
  {
    OverMeans(p, flag, r);
  }

  /** It gives that outcome to the frame below it. */
  lemma OverHandsOver(m: Machine, o: Outcome, conts: seq<Cont>, v: Machine)
    requires conts != [] && StackOk(m.frames, m.stack, conts) && OutcomeOf(m.frames[Last(m.stack)]) == o
    requires v == HandedOver(m, FlagOf(o))
    ensures StackOk(v.frames, v.stack, Front(conts))
    ensures Current(v.frames, Last(v.stack), Last(conts).resume(o), FlagOf(o))
    ensures Last(v.stack) != Last(m.stack) && v.trace == m.trace && v.stack[0] == m.stack[0]
  {
    var n := |conts|;
    var caller := m.stack[n - 1];
    assert Last(v.stack) == caller;
    assert Awaits(m.frames[caller], m.stack[n], conts[n - 1]);
    forall i | 0 <= i < n - 1 ensures Awaits(v.frames[v.stack[i]], v.stack[i + 1], Front(conts)[i]) {
      assert Awaits(m.frames[m.stack[i]], m.stack[i + 1], conts[i]);
    }
  }

  lemma NextCaller(p: Prog, flag: Option<int>, r: Run, conts: seq<Cont>)
    requires Runnable(p, flag, r, conts) && conts != []
    ensures Goes(p, flag, r)
    ensures var o := Yields(p, flag, r);
      var q, s, rest := Last(conts).resume(o), Last(conts).run, Front(conts);
      && Runnable(q, FlagOf(o), s, rest)
      && Remaining(p, flag, r, conts) == Log(p, flag, r) + Remaining(q, FlagOf(o), s, rest)
      && Final(p, flag, r, conts) == Final(q, FlagOf(o), s, rest)
      && (AllObey(p, flag, r, conts) <==> Obeys(p, flag, r) && AllObey(q, FlagOf(o), s, rest))
      && Size(s) + Work(rest) < Size(r) + Work(conts)
  {
    hide Goes, Yields, Log, Obeys;
  }

  lemma PauseUnfolds(p: Prog, r: Run)
    requires Goes(p, None, r) && p.Suspend?
    ensures r.Pause? && Goes(p.next, None, r.rest) && Yields(p, None, r) == Yields(p.next, None, r.rest)
    ensures Log(p, None, r) == [Paused] + Log(p.next, None, r.rest) && (Obeys(p, None, r) <==> Obeys(p.next, None, r.rest))
  {
  }

  lemma PauseMeans(p: Prog, r: Run, conts: seq<Cont>)
    requires Runnable(p, None, r, conts) && p.Suspend?
    ensures r.Pause? && Runnable(p.next, None, r.rest, conts) && Size(r.rest) < Size(r)
    ensures Remaining(p, None, r, conts) == [Paused] + Remaining(p.next, None, r.rest, conts)
    ensures Final(p, None, r, conts) == Final(p.next, None, r.rest, conts)
    ensures AllObey(p, None, r, conts) <==> AllObey(p.next, None, r.rest, conts)
  {
    hide Goes, Yields, Log, Obeys;
    PauseUnfolds(p, r);
  }

  lemma SuspendedStack(m: Machine, p: Prog, r: Run, conts: seq<Cont>)
    requires Config(m, p, None, r, conts) && StopAt(p).Suspend?
    ensures Last(m.stack) < |m.frames|
    ensures var v := Resumed(m, Last(m.stack));
      && v.stack == m.stack && v.trace == m.trace + Effects(p)
      && StackOk(v.frames, v.stack, conts) && Current(v.frames, Last(v.stack), StopAt(p).next, None)
  {
  }

  lemma ConfigRuns(m: Machine, p: Prog, flag: Option<int>, r: Run, conts: seq<Cont>)
    requires Config(m, p, flag, r, conts)
    ensures Runnable(p, flag, r, conts) && Goes(p, flag, r) && |m.stack| == |conts| + 1 && Distinct(m.stack)
    ensures StackOk(m.frames, m.stack, conts) && Current(m.frames, Last(m.stack), p, flag)
    ensures forall i | 0 <= i < |m.stack| :: m.stack[i] < |m.frames|
  {
  }

  lemma AwaitMeans(p: Prog, r: Run)
    requires Goes(p, None, r) && p.Await?
    ensures r.Call? && Goes(p.callee, None, r.callee)
    ensures var o := Yields(p.callee, None, r.callee);
      var q := p.resume(o);
      && Goes(q, FlagOf(o), r.rest) && Yields(p, None, r) == Yields(q, FlagOf(o), r.rest)
      && Log(p, None, r) == Log(p.callee, None, r.callee) + Log(q, FlagOf(o), r.rest)
      && (Obeys(p, None, r) <==> Obeys(p.callee, None, r.callee) && Obeys(q, FlagOf(o), r.rest))
  {
  }

  lemma CallRuns(p: Prog, r: Run, conts: seq<Cont>)
    requires Goes(p, None, r) && Runnable(p, None, r, conts) && p.Await?
    ensures r.Call?
    ensures var more := conts + [Cont(p.resume, r.rest)];
      && Goes(p.callee, None, r.callee) && Runnable(p.callee, None, r.callee, more)
      && var o := Yields(p.callee, None, r.callee);
      && Runnable(p.resume(o), FlagOf(o), r.rest, conts)
      && Front(more) == conts && Last(more) == Cont(p.resume, r.rest)
  {
    hide Goes, Yields;
    AwaitMeans(p, r);
    var more := conts + [Cont(p.resume, r.rest)];
    assert Front(more) == conts && Last(more) == Cont(p.resume, r.rest);
    var o := Yields(p.callee, None, r.callee);
    assert Runnable(p.resume(o), FlagOf(o), r.rest, conts);
  }

  lemma CallMeans(p: Prog, r: Run, conts: seq<Cont>)
    requires Goes(p, None, r) && Runnable(p, None, r, conts) && p.Await? && r.Call?
    ensures var more := conts + [Cont(p.resume, r.rest)];
      && Runnable(p.callee, None, r.callee, more)
      && Final(p, None, r, conts) == Final(p.callee, None, r.callee, more)
      && Remaining(p, None, r, conts) == Remaining(p.callee, None, r.callee, more)
  {
    hide Goes, Yields, Log, Runnable;
    AwaitMeans(p, r);
    CallRuns(p, r, conts);
    var o := Yields(p.callee, None, r.callee);
    var q := p.resume(o);
    var tail := Remaining(q, FlagOf(o), r.rest, conts)[|Log(q, FlagOf(o), r.rest)|..];
    assert Remaining(q, FlagOf(o), r.rest, conts) == Log(q, FlagOf(o), r.rest) + tail;
    assert Log(p.callee, None, r.callee) + (Log(q, FlagOf(o), r.rest) + tail)
        == Log(p.callee, None, r.callee) + Log(q, FlagOf(o), r.rest) + tail;
  }

  lemma CallObeys(p: Prog, r: Run, conts: seq<Cont>)
    requires Goes(p, None, r) && Runnable(p, None, r, conts) && p.Await? && r.Call?
    ensures var more := conts + [Cont(p.resume, r.rest)];
      Runnable(p.callee, None, r.callee, more) && (AllObey(p, None, r, conts) <==> AllObey(p.callee, None, r.callee, more))
  {
    hide Goes, Yields, Log, Runnable, Obeys, Remaining, Final;
    AwaitMeans(p, r);
    CallRuns(p, r, conts);
  }

  lemma CallWorks(r: Run, conts: seq<Cont>, c: Cont)
    requires r.Call? && c.run == r.rest
    ensures Size(r.callee) + Work(conts + [c]) < Size(r) + Work(conts)
  {
    assert Front(conts + [c]) == conts && Last(conts + [c]) == c;
  }

  lemma CallingStack(m: Machine, p: Prog, r: Run, conts: seq<Cont>, c: Cont)
    requires Config(m, p, None, r, conts) && StopAt(p).Await? && c.resume == StopAt(p).resume
    ensures Last(m.stack) < |m.frames|
    ensures var v := Resumed(m, Last(m.stack));
      && StackOk(v.frames, v.stack, conts + [c])
      && v.trace == m.trace + Effects(p) && Last(v.stack) != Last(m.stack) && v.stack[0] == m.stack[0]
      && v.frames[Last(m.stack)].error == None && !v.frames[Last(m.stack)].done
      && Current(v.frames, Last(v.stack), StopAt(p).callee, None)
  {
    var v := Resumed(m, Last(m.stack));
    var more := conts + [c];
    AppendDistinct(m.stack, |m.frames|);
    forall i | 0 <= i < |more| ensures Awaits(v.frames[v.stack[i]], v.stack[i + 1], more[i]) {
      if i < |conts| {
        assert Awaits(m.frames[m.stack[i]], m.stack[i + 1], conts[i]);
      }
    }
  }

  lemma SkipUnfolds(p: Prog, flag: Option<int>, r: Run)
    requires Goes(p, flag, r) && p.Await? && flag.Some?
    ensures r.Pause?
    ensures var q := p.resume(Value(0));
      && Goes(q, flag, r.rest) && Yields(p, flag, r) == Yields(q, flag, r.rest)
      && Log(p, flag, r) == [Paused] + Log(q, flag, r.rest) && !Obeys(p, flag, r)
  {
  }

  lemma SkipMeans(p: Prog, flag: Option<int>, r: Run, conts: seq<Cont>)
    requires Runnable(p, flag, r, conts) && p.Await? && flag.Some?
    ensures r.Pause? && Size(r.rest) < Size(r)
    ensures var q := p.resume(Value(0));
      && Runnable(q, flag, r.rest, conts)
      && Remaining(p, flag, r, conts) == [Paused] + Remaining(q, flag, r.rest, conts)
      && Final(p, flag, r, conts) == Final(q, flag, r.rest, conts) && !AllObey(p, flag, r, conts)
  {
    hide Goes, Yields, Log, Obeys;
    SkipUnfolds(p, flag, r);
  }

  lemma SkippingStack(m: Machine, p: Prog, flag: Option<int>, r: Run, conts: seq<Cont>)
    requires Config(m, p, flag, r, conts) && StopAt(p).Await? && flag.Some?
    ensures Last(m.stack) < |m.frames|
    ensures var u := Resumed(m, Last(m.stack));
      && |u.stack| == |m.stack| + 1 && Front(u.stack) == m.stack && u.trace == m.trace + Effects(p)
      && (forall i | 0 <= i < |u.stack| :: u.stack[i] < |u.frames|) && u.frames[Last(m.stack)].error == flag
      && var v := HandedOver(u, flag);
      && v.stack == m.stack && v.trace == u.trace && StackOk(v.frames, v.stack, conts)
      && Current(v.frames, Last(v.stack), StopAt(p).resume(Value(0)), flag)
  {
    var u := Resumed(m, Last(m.stack));
    assert Front(u.stack) == m.stack;
    var v := HandedOver(u, flag);
    forall i | 0 <= i < |conts| ensures Awaits(v.frames[v.stack[i]], v.stack[i + 1], conts[i]) {
      assert Awaits(m.frames[m.stack[i]], m.stack[i + 1], conts[i]);
    }
  }

  // ---------- the call stack ----------

  /** An entry frame and everything that runs under it. */
  class CallStack {
    var frames: seq<Frame>
    /** The promises from the entry to its `_current`. */
    var stack: seq<nat>
    var trace: seq<Obs>

    function State(): Machine
      reads this
    {
      Machine(frames, stack, trace)
    }

    /** `_call_stack_create`: the entry is its own current frame. */
    constructor (p: Prog, ghost r: Run)
      requires Goes(p, None, r)
      ensures Config(State(), p, None, r, []) && trace == [] && stack == [0] && frames == [Fresh(p)]
    {
      frames, stack, trace := [Fresh(p)], [0], [];
    }

    /** `_call_stack_push`. */
    method Push(callee: nat)
      modifies this`stack
      ensures stack == old(stack) + [callee]
    {
      stack := stack + [callee];
    }

    /** `_call_stack_pop`: the caller becomes current; none is left after the entry. */
    method Pop() returns (next: Option<nat>)
      requires stack != []
      modifies this`stack
      ensures State() == Popped(old(State()))
      ensures next == if stack == [] then None else Some(Last(stack))
    {
      stack := stack[..|stack| - 1];
      next := if stack == [] then None else Some(stack[|stack| - 1]);
    }

    /** `_handler.resume()`: the frame runs until it suspends itself, awaits another
        or ends. */
    method Resume(f: nat)
      requires f < |frames|
      modifies this
      ensures State() == Resumed(old(State()), f)
    {
      var p := Effective(frames, f);
      ghost var p0 := p;
      ghost var trace0 := trace;
      while p.Emit?
        invariant StopAt(p) == StopAt(p0) && trace + Effects(p) == trace0 + Effects(p0)
        invariant frames == old(frames) && stack == old(stack)
        decreases p
      {
        trace := trace + [Did(p.effect)];
        p := p.next;
      }
      var x := frames[f];
      match p {
        case Return(value) =>
          frames := frames[f := x.(prog := p, callee := None, value := value, done := true)];
        case Throw(error) =>
          frames := frames[f := x.(prog := p, callee := None, error := Some(error), done := true)];
        case Suspend(next) =>
          frames := frames[f := x.(prog := next, callee := None)];
        case Await(callee, _) =>
          var c := |frames|;
          frames := frames[f := x.(prog := p, callee := Some(c))] + [Fresh(callee)];
          Push(c);
      }
    }

    /** How `_call_stack_execute` leaves a frame: pop, and give the frame's error, if
        any, to the caller. */
    method Leave(current: nat) returns (next: Option<nat>)
      requires stack != [] && current < |frames|
      requires forall i | 0 <= i < |stack| :: stack[i] < |frames|
      modifies this
      ensures next == if |old(stack)| == 1 then None else Some(Last(Front(old(stack))))
      ensures State() == HandedOver(old(State()), old(frames)[current].error)
    {
      next := Pop();
      if next.Some? && frames[current].error.Some? {
        var caller := next.value;
        frames := frames[caller := frames[caller].(error := frames[current].error)];
      }
    }

    /** `_call_stack_execute`: one `resume` of the entry.  It ends the whole run, with
        the entry's exception if there is one, or it returns with the run suspended.
        `right` says whether each frame with its error set has thrown. */
    method Execute(ghost a: Rest) returns (thrown: Option<int>, ghost b: Rest, ghost right: bool)
      requires Fits(State(), a)
      modifies this
      ensures Concluded(old(State()), a, State(), thrown, right) || Interrupted(old(State()), a, State(), b, thrown, right)
    {
      hide Fits, RemainingOf, FinalOf, AllObeyOf, Effort, Resumed;
      ghost var m0 := State();
      b, right, thrown := a, true, None;
      NothingDone(m0, a);
      FitsStack(m0, a);
      var next := stack[|stack| - 1];
      while true
        invariant Progress(m0, a, State(), b, right) && stack != [] && next == Last(stack)
        decreases Effort(b)
      {
        var current := next;
        ghost var m := State();
        FitsStack(m, b);
        Resume(current);
        ghost var u := State();
        ResumedStack(m, b, u);
        if frames[current].error.Some? || frames[current].done {
          var error := frames[current].error;
          var caller := Leave(current);
          if caller == None {
            Ends(m0, a, m, b, right, u, State());
            right := right && Rightly(b);
            thrown := error;
            return;
          }
          next := caller.value;
          if next == current {
            b := Skips(m0, a, m, b, right, u, State());
            right := false;
            return;
          }
          ghost var rightly := Rightly(b);
          b := GoesOn(m0, a, m, b, right, u, State());
          right := right && rightly;
        } else {
          next := stack[|stack| - 1];
          if next == current {
            b := Pauses(m0, a, m, b, right, u);
            return;
          }
          b := Calls(m0, a, m, b, right, u);
        }
      }
    }
  }

  /** Resume an entry until it is done, and mark where each `resume` returned before.
      What was done, where it was suspended, and the outcome are those of the program as
      written.  Every frame with its error set threw (`right`) if and only if no frame
      catches what a callee threw. */
  method RunToEnd(p: Prog, ghost r: Run) returns (outcome: Outcome, trace: seq<Obs>, ghost right: bool)
    requires Goes(p, None, r)
    ensures trace == Log(p, None, r) && outcome == Yields(p, None, r)
    ensures right <==> Follows(p, r) && Uncaught(p, r)
    ensures right ==> trace == Trace(p, r) && outcome == Result(p, r)
  {
    hide Fits, RemainingOf, FinalOf, AllObeyOf, Effort;
    RightExactlyWhenUncaught(p, r);
    var entry := new CallStack(p, r);
    ghost var a := Rest(p, None, r, []);
    Whole(entry.State(), p, r);
    right := true;
    while true
      invariant Fits(entry.State(), a)
      invariant entry.stack != [] && entry.stack[0] == 0 && entry.frames != [] && !entry.frames[0].done
      invariant entry.trace + RemainingOf(a) == Log(p, None, r) && FinalOf(a) == Yields(p, None, r)
      invariant right && AllObeyOf(a) <==> Obeys(p, None, r)
      decreases Effort(a)
    {
      ghost var m, a0 := entry.State(), a;
      var thrown;
      ghost var here;
      thrown, a, here := entry.Execute(a);
      right := right && here;
      if thrown.Some? {
        return Error(thrown.value), entry.trace, right;
      }
      EntryIsDone(m, a0, entry.State(), a, here);
      if entry.frames[0].done {
        return Value(entry.frames[0].value), entry.trace, right;
      }
      entry.trace := entry.trace + [Paused];
      MarkKeepsFit(entry.State(), a);
    }
  }

  // ---------- one resume of the entry ----------

  /** What is left to run. */
  datatype Rest = Rest(prog: Prog, flag: Option<int>, run: Run, conts: seq<Cont>)

  ghost predicate Fits(m: Machine, a: Rest) {
    Config(m, a.prog, a.flag, a.run, a.conts)
  }

  ghost predicate CanRun(a: Rest) {
    Runnable(a.prog, a.flag, a.run, a.conts)
  }

  ghost function RemainingOf(a: Rest): seq<Obs> {
    if CanRun(a) then Remaining(a.prog, a.flag, a.run, a.conts) else []
  }

  ghost function FinalOf(a: Rest): Outcome {
    if CanRun(a) then Final(a.prog, a.flag, a.run, a.conts) else Value(0)
  }

  ghost predicate AllObeyOf(a: Rest) {
    CanRun(a) && AllObey(a.prog, a.flag, a.run, a.conts)
  }

  function Effort(a: Rest): nat {
    Size(a.run) + Work(a.conts)
  }

  /** The current frame throws, unless its error is not set. */
  predicate Rightly(a: Rest) {
    a.flag == None || StopAt(a.prog).Throw?
  }

  /** From `m0` the loop has come to `m`, and `b` is what is left of `a`. */
  ghost predicate Progress(m0: Machine, a: Rest, m: Machine, b: Rest, right: bool) {
    && Fits(m0, a) && Fits(m, b)
    && m0.stack != [] && m.stack != [] && m.stack[0] == m0.stack[0]
    && m.trace + RemainingOf(b) == m0.trace + RemainingOf(a)
    && FinalOf(b) == FinalOf(a)
    && (AllObeyOf(a) <==> right && AllObeyOf(b))
    && Effort(b) <= Effort(a)
  }

  /** The run is over: all its effects are there, and the entry has its outcome. */
  ghost predicate Concluded(m0: Machine, a: Rest, m: Machine, thrown: Option<int>, right: bool) {
    && m0.stack != [] && m.stack == []
    && m.trace == m0.trace + RemainingOf(a)
    && m0.stack[0] < |m.frames| && (thrown == None ==> m.frames[m0.stack[0]].done)
    && FinalOf(a) == (if thrown.Some? then Error(thrown.value) else Value(m.frames[m0.stack[0]].value))
    && (AllObeyOf(a) <==> right)
  }

  /** The run is where `resume` returns next. */
  ghost predicate Interrupted(m0: Machine, a: Rest, m: Machine, b: Rest, thrown: Option<int>, right: bool) {
    && thrown == None && Fits(m0, a) && Fits(m, b)
    && m0.stack != [] && m.stack != [] && m.stack[0] == m0.stack[0]
    && m0.trace + RemainingOf(a) == m.trace + [Paused] + RemainingOf(b)
    && FinalOf(b) == FinalOf(a)
    && (AllObeyOf(a) <==> right && AllObeyOf(b))
    && Effort(b) < Effort(a)
  }

  lemma FitsStack(m: Machine, a: Rest)
    requires Fits(m, a)
    ensures CanRun(a) && Goes(a.prog, a.flag, a.run) && |m.stack| == |a.conts| + 1 && Distinct(m.stack)
    ensures forall i | 0 <= i < |m.stack| :: m.stack[i] < |m.frames|
  {
    ConfigRuns(m, a.prog, a.flag, a.run, a.conts);
  }

  lemma NothingDone(m: Machine, a: Rest)
    requires Fits(m, a)
    ensures Progress(m, a, m, a, true)
  {
    FitsStack(m, a);
  }

  /** What the loop finds after resuming the current frame. */
  lemma ResumedStack(m: Machine, b: Rest, u: Machine)
    requires Fits(m, b) && m.stack != [] && Last(m.stack) < |m.frames| && u == Resumed(m, Last(m.stack))
    ensures Last(m.stack) < |u.frames| && u.stack != [] && forall i | 0 <= i < |u.stack| :: u.stack[i] < |u.frames|
    ensures var x := u.frames[Last(m.stack)];
      && (x.error.Some? || x.done <==> Over(b.prog, b.flag) || b.flag.Some?)
      && (Over(b.prog, b.flag) ==> u.stack == m.stack)
      && (!Over(b.prog, b.flag) && b.flag.Some? ==> x.error.Some? && |u.stack| > 1 && Last(Front(u.stack)) == Last(m.stack))
      && (!Over(b.prog, b.flag) && b.flag == None ==> (Last(u.stack) == Last(m.stack) <==> StopAt(b.prog).Suspend?))
  {
    FitsStack(m, b);
    hide Fits, Config, Runnable, Resumed, Current;
    if Over(b.prog, b.flag) {
      OverStack(m, b);
    } else if b.flag.Some? {
      SkipStack(m, b);
    } else if StopAt(b.prog).Suspend? {
      PauseStack(m, b);
    } else {
      CallStackGrows(m, b);
    }
  }

  lemma OverStack(m: Machine, b: Rest)
    requires Fits(m, b) && Over(b.prog, b.flag)
    ensures Last(m.stack) < |m.frames|
    ensures var u := Resumed(m, Last(m.stack));
      var x := u.frames[Last(m.stack)];
      u.stack == m.stack && |u.frames| >= |m.frames| && (x.error.Some? || x.done)
  {
  }

  lemma SkipStack(m: Machine, b: Rest)
    requires Fits(m, b) && StopAt(b.prog).Await? && b.flag.Some?
    ensures Last(m.stack) < |m.frames|
    ensures var u := Resumed(m, Last(m.stack));
      && u.stack == m.stack + [|m.frames|] && |u.frames| == |m.frames| + 1 && u.frames[Last(m.stack)].error.Some?
  {
  }

  lemma PauseStack(m: Machine, b: Rest)
    requires Fits(m, b) && StopAt(b.prog).Suspend? && b.flag == None
    ensures Last(m.stack) < |m.frames|
    ensures var u := Resumed(m, Last(m.stack));
      var x := u.frames[Last(m.stack)];
      u.stack == m.stack && |u.frames| == |m.frames| && x.error == None && !x.done
  {
  }

  lemma CallStackGrows(m: Machine, b: Rest)
    requires Fits(m, b) && StopAt(b.prog).Await? && b.flag == None
    ensures Last(m.stack) < |m.frames|
    ensures var u := Resumed(m, Last(m.stack));
      var x := u.frames[Last(m.stack)];
      && u.stack == m.stack + [|m.frames|] && |u.frames| == |m.frames| + 1 && x.error == None && !x.done
  {
  }

  lemma OverObeys(b: Rest)
    requires CanRun(b) && Over(b.prog, b.flag)
    ensures Goes(b.prog, b.flag, b.run)
    ensures Obeys(b.prog, b.flag, b.run) <==> Rightly(b)
    ensures Log(b.prog, b.flag, b.run) == Effects(b.prog)
    ensures b.conts == [] ==>
      && RemainingOf(b) == Effects(b.prog) && FinalOf(b) == Yields(b.prog, b.flag, b.run)
      && (AllObeyOf(b) <==> Rightly(b))
  {
    OverMeans(b.prog, b.flag, b.run);
  }

  /** The entry is over. */
  lemma Ends(m0: Machine, a: Rest, m: Machine, b: Rest, right: bool, u: Machine, v: Machine)
    requires Progress(m0, a, m, b, right) && Over(b.prog, b.flag)
    requires m.stack != [] && Last(m.stack) < |m.frames| && u == Resumed(m, Last(m.stack))
    requires |m.stack| == 1 && Last(m.stack) < |u.frames| && v == Popped(u)
    ensures Concluded(m0, a, v, u.frames[Last(m.stack)].error, right && Rightly(b))
  {
    hide Resumed, Runnable, Effort, RemainingOf, FinalOf, AllObeyOf;
    FitsStack(m, b);
    OverFrame(m, b.prog, b.flag, b.run, b.conts);
    OverObeys(b);
  }

  lemma NextOf(b: Rest) returns (c: Rest)
    requires CanRun(b) && b.conts != [] && Over(b.prog, b.flag)
    ensures Goes(b.prog, b.flag, b.run)
    ensures var o := Yields(b.prog, b.flag, b.run);
      c == Rest(Last(b.conts).resume(o), FlagOf(o), Last(b.conts).run, Front(b.conts))
    ensures CanRun(c) && RemainingOf(b) == Effects(b.prog) + RemainingOf(c) && FinalOf(b) == FinalOf(c)
    ensures AllObeyOf(b) <==> Rightly(b) && AllObeyOf(c)
    ensures Effort(c) < Effort(b)
  {
    OverObeys(b);
    NextCaller(b.prog, b.flag, b.run, b.conts);
    var o := Yields(b.prog, b.flag, b.run);
    c := Rest(Last(b.conts).resume(o), FlagOf(o), Last(b.conts).run, Front(b.conts));
  }

  /** A frame above the entry is over: its caller goes on. */
  lemma GoesOn(m0: Machine, a: Rest, m: Machine, b: Rest, right: bool, u: Machine, v: Machine) returns (c: Rest)
    requires Progress(m0, a, m, b, right) && Over(b.prog, b.flag)
    requires m.stack != [] && Last(m.stack) < |m.frames| && u == Resumed(m, Last(m.stack))
    requires |u.stack| > 1 && (forall i | 0 <= i < |u.stack| :: u.stack[i] < |u.frames|) && Last(m.stack) < |u.frames|
    requires v == HandedOver(u, u.frames[Last(m.stack)].error)
    ensures Progress(m0, a, v, c, right && Rightly(b)) && Effort(c) < Effort(b)
  {
    hide Resumed, Runnable, Effort, RemainingOf, FinalOf, AllObeyOf, HandedOver, StackOk;
    FitsStack(m, b);
    OverFrame(m, b.prog, b.flag, b.run, b.conts);
    c := NextOf(b);
    OverHandsOver(u, Yields(b.prog, b.flag, b.run), b.conts, v);
  }

  lemma SkipOf(b: Rest) returns (c: Rest)
    requires CanRun(b) && StopAt(b.prog).Await? && b.flag.Some?
    ensures c.prog == StopAt(b.prog).resume(Value(0)) && c.flag == b.flag && c.conts == b.conts
    ensures CanRun(c) && RemainingOf(b) == Effects(b.prog) + [Paused] + RemainingOf(c) && FinalOf(b) == FinalOf(c)
    ensures !AllObeyOf(b) && Effort(c) < Effort(b)
  {
    hide Runnable, Remaining, Final, AllObey;
    SegmentRuns(b.prog, b.flag, b.run, b.conts);
    SkipMeans(StopAt(b.prog), b.flag, RestOf(b.prog, b.flag, b.run), b.conts);
    c := Rest(StopAt(b.prog).resume(Value(0)), b.flag, RestOf(b.prog, b.flag, b.run).rest, b.conts);
  }

  /** A frame with its error set awaits another: the callee is popped, and never runs;
      the frame stays current, and `resume` returns. */
  lemma Skips(m0: Machine, a: Rest, m: Machine, b: Rest, right: bool, u: Machine, v: Machine) returns (c: Rest)
    requires Progress(m0, a, m, b, right) && StopAt(b.prog).Await? && b.flag.Some?
    requires m.stack != [] && Last(m.stack) < |m.frames| && u == Resumed(m, Last(m.stack))
    requires u.stack != [] && (forall i | 0 <= i < |u.stack| :: u.stack[i] < |u.frames|) && Last(m.stack) < |u.frames|
    requires v == HandedOver(u, u.frames[Last(m.stack)].error)
    ensures Interrupted(m0, a, v, c, None, false)
  {
    hide Resumed, Runnable, HandedOver, StackOk, RemainingOf, FinalOf, AllObeyOf, Effort, Current;
    FitsStack(m, b);
    SkippingStack(m, b.prog, b.flag, b.run, b.conts);
    c := SkipOf(b);
  }

  lemma PauseOf(b: Rest) returns (c: Rest)
    requires CanRun(b) && StopAt(b.prog).Suspend? && b.flag == None
    ensures c.prog == StopAt(b.prog).next && c.flag == None && c.conts == b.conts
    ensures CanRun(c) && RemainingOf(b) == Effects(b.prog) + [Paused] + RemainingOf(c) && FinalOf(b) == FinalOf(c)
    ensures (AllObeyOf(b) <==> AllObeyOf(c)) && Effort(c) < Effort(b)
  {
    hide Runnable, Remaining, Final, AllObey;
    SegmentRuns(b.prog, None, b.run, b.conts);
    PauseMeans(StopAt(b.prog), RestOf(b.prog, None, b.run), b.conts);
    c := Rest(StopAt(b.prog).next, None, RestOf(b.prog, None, b.run).rest, b.conts);
  }

  /** A frame suspends itself: it stays current, and `resume` returns. */
  lemma Pauses(m0: Machine, a: Rest, m: Machine, b: Rest, right: bool, u: Machine) returns (c: Rest)
    requires Progress(m0, a, m, b, right) && StopAt(b.prog).Suspend? && b.flag == None
    requires m.stack != [] && Last(m.stack) < |m.frames| && u == Resumed(m, Last(m.stack))
    ensures Interrupted(m0, a, u, c, None, right)
  {
    hide Resumed, Runnable, StackOk, RemainingOf, FinalOf, AllObeyOf, Effort, Current;
    FitsStack(m, b);
    SuspendedStack(m, b.prog, b.run, b.conts);
    c := PauseOf(b);
  }

  lemma CallOf(b: Rest) returns (c: Rest)
    requires CanRun(b) && StopAt(b.prog).Await? && b.flag == None
    ensures c.prog == StopAt(b.prog).callee && c.flag == None
    ensures |c.conts| == |b.conts| + 1 && Front(c.conts) == b.conts && Last(c.conts).resume == StopAt(b.prog).resume
    ensures CanRun(c) && RemainingOf(b) == Effects(b.prog) + RemainingOf(c) && FinalOf(b) == FinalOf(c)
    ensures (AllObeyOf(b) <==> AllObeyOf(c)) && Effort(c) < Effort(b)
  {
    hide Runnable, Remaining, Final, AllObey, Goes, Size, Work;
    SegmentRuns(b.prog, None, b.run, b.conts);
    var q, s := StopAt(b.prog), RestOf(b.prog, None, b.run);
    AwaitMeans(q, s);
    CallMeans(q, s, b.conts);
    CallObeys(q, s, b.conts);
    CallWorks(s, b.conts, Cont(q.resume, s.rest));
    c := Rest(q.callee, None, s.callee, b.conts + [Cont(q.resume, s.rest)]);
    assert Front(c.conts) == b.conts;
  }

  /** A frame awaits another: the callee becomes current, and goes on. */
  lemma Calls(m0: Machine, a: Rest, m: Machine, b: Rest, right: bool, u: Machine) returns (c: Rest)
    requires Progress(m0, a, m, b, right) && StopAt(b.prog).Await? && b.flag == None
    requires m.stack != [] && Last(m.stack) < |m.frames| && u == Resumed(m, Last(m.stack))
    ensures Progress(m0, a, u, c, right) && Effort(c) < Effort(b)
  {
    hide Resumed, Runnable, StackOk, RemainingOf, FinalOf, AllObeyOf, Effort, Current;
    FitsStack(m, b);
    c := CallOf(b);
    CallingStack(m, b.prog, b.run, b.conts, Last(c.conts));
    assert b.conts + [Last(c.conts)] == c.conts;
  }

  // ---------- from resume to resume ----------

  lemma Whole(m: Machine, p: Prog, r: Run)
    requires Config(m, p, None, r, [])
    ensures var a := Rest(p, None, r, []);
      && Fits(m, a) && Goes(p, None, r) && RemainingOf(a) == Log(p, None, r) && FinalOf(a) == Yields(p, None, r)
      && (AllObeyOf(a) <==> Obeys(p, None, r))
  {
  }

  /** While a run is under way its entry is not done. */
  lemma EntryNotDone(m: Machine, a: Rest)
    requires Fits(m, a)
    ensures m.stack != [] && m.stack[0] < |m.frames| && !m.frames[m.stack[0]].done
  {
    if a.conts != [] {
      assert Awaits(m.frames[m.stack[0]], m.stack[1], a.conts[0]);
    }
  }

  lemma EntryIsDone(m0: Machine, a: Rest, m: Machine, b: Rest, right: bool)
    requires m0.stack != [] && m0.stack[0] == 0
    requires Concluded(m0, a, m, None, right) || Interrupted(m0, a, m, b, None, right)
    ensures m.frames != [] && (m.frames[0].done <==> Concluded(m0, a, m, None, right))
  {
    if Interrupted(m0, a, m, b, None, right) {
      EntryNotDone(m, b);
    }
  }

  lemma MarkKeepsFit(m: Machine, a: Rest)
    requires m.trace != [] && Fits(m.(trace := Front(m.trace)), a)
    ensures Fits(m, a)
  {
  }

  // ---------- the loop's judgement of one frame ----------

  datatype Decision = Failed(error: int) | Finished(value: int) | Unfinished

  /** What the loop makes of a frame it has resumed. */
  function Verdict(x: Frame): Decision {
    if x.error.Some? then Failed(x.error.value) else if x.done then Finished(x.value) else Unfinished
  }

  /** The loop sets a caller's `_error` before the caller has seen the exception, and
      nothing clears it.  So it judges the caller rightly, as if it had left the field
      alone, if and only if the caller throws before its next suspension point. */
  lemma FlagIsRightExactlyWhenThrowing(m: Machine, f: nat, error: int)
    requires f < |m.frames| && m.frames[f].error == None && !m.frames[f].done
    requires m.frames[f].callee.Some? ==> m.frames[f].callee.value != f
    ensures var flagged := m.(frames := m.frames[f := m.frames[f].(error := Some(error))]);
      Verdict(Resumed(flagged, f).frames[f]) == Verdict(Resumed(m, f).frames[f]) <==> StopAt(Effective(m.frames, f)).Throw?
  {
  }
}
