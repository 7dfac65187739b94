/** Coroutines as programs, what running one means by ordinary recursion and by the code
    as written, and the call stack that the runtime keeps. */
module CoroutineModel {
  import opened Basics

  datatype Outcome = Value(value: int) | Error(error: int)

  /** What a coroutine does next.  A frame goes on from `co_await` with what its callee
      returned or threw. */
  datatype Prog =
    | Return(value: int)
    | Throw(error: int)
    | Emit(effect: int, next: Prog)
    | Suspend(next: Prog)
    | Await(callee: Prog, resume: Outcome -> Prog)

  datatype Obs = Did(effect: int) | Paused

  /** The shape of a finite run of a program. */
  datatype Run = End | Effect(rest: Run) | Pause(rest: Run) | Call(callee: Run, rest: Run)

  // ---------- ordinary recursion ----------

  /** The program runs to its end in this shape. */
  predicate Follows(p: Prog, r: Run)
    decreases r, 0
  {
    match p
    case Return(_) => r.End?
    case Throw(_) => r.End?
    case Emit(_, next) => r.Effect? && Follows(next, r.rest)
    case Suspend(next) => r.Pause? && Follows(next, r.rest)
    case Await(callee, resume) =>
      r.Call? && Follows(callee, r.callee) && Follows(resume(Result(callee, r.callee)), r.rest)
  }

  function Result(p: Prog, r: Run): Outcome
    requires Follows(p, r)
    decreases r, 1
  {
    match p
    case Return(value) => Value(value)
    case Throw(error) => Error(error)
    case Emit(_, next) => Result(next, r.rest)
    case Suspend(next) => Result(next, r.rest)
    case Await(callee, resume) => Result(resume(Result(callee, r.callee)), r.rest)
  }

  /** The effects of the run in order, with a mark where it is suspended. */
  function Trace(p: Prog, r: Run): seq<Obs>
    requires Follows(p, r)
    decreases r
  {
    match p
    case Return(_) => []
    case Throw(_) => []
    case Emit(effect, next) => [Did(effect)] + Trace(next, r.rest)
    case Suspend(next) => [Paused] + Trace(next, r.rest)
    case Await(callee, resume) => Trace(callee, r.callee) + Trace(resume(Result(callee, r.callee)), r.rest)
  }

  /** A frame whose callee threw goes no further than its own clean-up. */
  predicate Unwinds(p: Prog) {
    match p
    case Throw(_) => true
    case Emit(_, next) => Unwinds(next)
    case _ => false
  }

  /** No frame of the run catches what a callee threw. */
  predicate Uncaught(p: Prog, r: Run)
    requires Follows(p, r)
    decreases r
  {
    match p
    case Return(_) => true
    case Throw(_) => true
    case Emit(_, next) => Uncaught(next, r.rest)
    case Suspend(next) => Uncaught(next, r.rest)
    case Await(callee, resume) =>
      var o := Result(callee, r.callee);
      Uncaught(callee, r.callee) && Uncaught(resume(o), r.rest) && (o.Error? ==> Unwinds(resume(o)))
  }

  function Size(r: Run): nat {
    match r
    case End => 1
    case Effect(rest) => 1 + Size(rest)
    case Pause(rest) => 1 + Size(rest)
    case Call(callee, rest) => 1 + Size(callee) + Size(rest)
  }

  // ---------- the code as written ----------

  function FlagOf(o: Outcome): Option<int> {
    if o.Error? then Some(o.error) else None
  }

  /** The program runs to its end in this shape when a frame's `_error`, which the loop
      sets as soon as its callee has thrown, sticks to the frame: `flag` is that error.
      A frame with the error set is over at its next suspension point or return.  If it
      awaits, its callee is thrown away unstarted, the entry's `resume` returns, and the
      frame goes on with the default value. */
  predicate Goes(p: Prog, flag: Option<int>, r: Run)
    decreases r, 0
  {
    match p
    case Return(_) => r.End?
    case Throw(_) => r.End?
    case Emit(_, next) => r.Effect? && Goes(next, flag, r.rest)
    case Suspend(next) => if flag.Some? then r.End? else r.Pause? && Goes(next, None, r.rest)
    case Await(callee, resume) =>
      if flag.Some? then r.Pause? && Goes(resume(Value(0)), flag, r.rest)
      else
        && r.Call? && Goes(callee, None, r.callee)
        && var o := Yields(callee, None, r.callee); Goes(resume(o), FlagOf(o), r.rest)
  }

  function Yields(p: Prog, flag: Option<int>, r: Run): Outcome
    requires Goes(p, flag, r)
    decreases r, 1
  {
    match p
    case Return(value) => if flag.Some? then Error(flag.value) else Value(value)
    case Throw(error) => Error(error)
    case Emit(_, next) => Yields(next, flag, r.rest)
    case Suspend(next) => if flag.Some? then Error(flag.value) else Yields(next, None, r.rest)
    case Await(callee, resume) =>
      if flag.Some? then Yields(resume(Value(0)), flag, r.rest)
      else
        var o := Yields(callee, None, r.callee);
        Yields(resume(o), FlagOf(o), r.rest)
  }

  function Log(p: Prog, flag: Option<int>, r: Run): seq<Obs>
    requires Goes(p, flag, r)
    decreases r
  {
    match p
    case Return(_) => []
    case Throw(_) => []
    case Emit(effect, next) => [Did(effect)] + Log(next, flag, r.rest)
    case Suspend(next) => if flag.Some? then [] else [Paused] + Log(next, None, r.rest)
    case Await(callee, resume) =>
      if flag.Some? then [Paused] + Log(resume(Value(0)), flag, r.rest)
      else
        var o := Yields(callee, None, r.callee);
        Log(callee, None, r.callee) + Log(resume(o), FlagOf(o), r.rest)
  }

  /** Every frame with its error set throws before its next suspension point. */
  predicate Obeys(p: Prog, flag: Option<int>, r: Run)
    requires Goes(p, flag, r)
    decreases r
  {
    match p
    case Return(_) => flag == None
    case Throw(_) => true
    case Emit(_, next) => Obeys(next, flag, r.rest)
    case Suspend(next) => flag == None && Obeys(next, None, r.rest)
    case Await(callee, resume) =>
      flag == None && var o := Yields(callee, None, r.callee); Obeys(callee, None, r.callee) && Obeys(resume(o), FlagOf(o), r.rest)
  }

  /** As written, a coroutine one of whose callees has thrown never returns a value,
      whatever it does with the exception. */
  lemma {:induction false} FailedAwaitFails(p: Prog, flag: Option<int>, r: Run)
    requires Goes(p, flag, r) && flag.Some?
    ensures Yields(p, flag, r).Error?
    decreases r
  {
    match p
    case Emit(_, next) => FailedAwaitFails(next, flag, r.rest);
    case Await(_, resume) => FailedAwaitFails(resume(Value(0)), flag, r.rest);
    case _ =>
  }

  /** A frame that unwinds means the same in both ways. */
  lemma {:induction false} UnwindingAgrees(p: Prog, flag: Option<int>, r: Run)
    requires Unwinds(p)
    ensures Follows(p, r) <==> Goes(p, flag, r)
    ensures Follows(p, r) ==> Uncaught(p, r) && Obeys(p, flag, r)
    ensures Follows(p, r) ==> Yields(p, flag, r) == Result(p, r) && Log(p, flag, r) == Trace(p, r)
    decreases r
  {
    if p.Emit? && r.Effect? {
      UnwindingAgrees(p.next, flag, r.rest);
    }
  }

  /** A run in which no frame catches goes, as written, as recursion says. */
  lemma {:induction false} UncaughtAgrees(p: Prog, r: Run)
    requires Follows(p, r) && Uncaught(p, r)
    ensures Goes(p, None, r) && Obeys(p, None, r)
    ensures Yields(p, None, r) == Result(p, r) && Log(p, None, r) == Trace(p, r)
    decreases r
  {
    match p
    case Emit(_, next) => UncaughtAgrees(next, r.rest);
    case Suspend(next) => UncaughtAgrees(next, r.rest);
    case Await(callee, resume) =>
      UncaughtAgrees(callee, r.callee);
      var o := Result(callee, r.callee);
      if o.Error? {
        UnwindingAgrees(resume(o), FlagOf(o), r.rest);
      } else {
        UncaughtAgrees(resume(o), r.rest);
      }
    case _ =>
  }

  lemma {:induction false} FlaggedObeys(p: Prog, flag: Option<int>, r: Run)
    requires Goes(p, flag, r) && Obeys(p, flag, r) && flag.Some?
    ensures Unwinds(p) && Follows(p, r)
    decreases r
  {
    if p.Emit? {
      FlaggedObeys(p.next, flag, r.rest);
    }
  }

  lemma {:induction false} ObedientIsUncaught(p: Prog, r: Run)
    requires Goes(p, None, r) && Obeys(p, None, r)
    ensures Follows(p, r) && Uncaught(p, r) && Result(p, r) == Yields(p, None, r)
    decreases r
  {
    match p
    case Emit(_, next) => ObedientIsUncaught(next, r.rest);
    case Suspend(next) => ObedientIsUncaught(next, r.rest);
    case Await(callee, resume) =>
      ObedientIsUncaught(callee, r.callee);
      var o := Yields(callee, None, r.callee);
      if o.Error? {
        FlaggedObeys(resume(o), FlagOf(o), r.rest);
        UnwindingAgrees(resume(o), FlagOf(o), r.rest);
      } else {
        ObedientIsUncaught(resume(o), r.rest);
      }
    case _ =>
  }

  /** Every frame that is left with an error set in advance has thrown, if and only if
      no frame catches what a callee threw; and then the code as written and recursion
      mean the same. */
  lemma RightExactlyWhenUncaught(p: Prog, r: Run)
    requires Goes(p, None, r)
    ensures Obeys(p, None, r) <==> Follows(p, r) && Uncaught(p, r)
    ensures Obeys(p, None, r) ==> Yields(p, None, r) == Result(p, r) && Log(p, None, r) == Trace(p, r)
  {
    if Obeys(p, None, r) {
      ObedientIsUncaught(p, r);
      UncaughtAgrees(p, r);
    } else if Follows(p, r) && Uncaught(p, r) {
      UncaughtAgrees(p, r);
    }
  }

  /** A coroutine that catches: its callee throws, and it returns a value all the same. */
  predicate CatchesAndReturns(p: Prog, r: Run)
    requires Follows(p, r)
    decreases r
  {
    match p
    case Emit(_, next) => CatchesAndReturns(next, r.rest)
    case Suspend(next) => CatchesAndReturns(next, r.rest)
    case Await(callee, resume) =>
      var o := Result(callee, r.callee);
      (o.Error? && Uncaught(callee, r.callee) && Result(p, r).Value?)
      || (o.Value? && Uncaught(callee, r.callee) && CatchesAndReturns(resume(o), r.rest))
    case _ => false
  }

  /** Wherever in a coroutine that is, and however its callee came to throw: recursion
      gives the value, and the code as written, if it comes to an end, an exception. */
  lemma {:induction false} CaughtIsLost(p: Prog, r: Run, s: Run)
    requires Follows(p, r) && CatchesAndReturns(p, r) && Goes(p, None, s)
    ensures Result(p, r).Value? && Yields(p, None, s).Error?
    decreases r
  {
    match p
    case Emit(_, next) => CaughtIsLost(next, r.rest, s.rest);
    case Suspend(next) => CaughtIsLost(next, r.rest, s.rest);
    case Await(callee, resume) =>
      var o := Result(callee, r.callee);
      UncaughtAgrees(callee, r.callee);
      OneRun(callee, None, r.callee, s.callee);
      if o.Error? {
        FailedAwaitFails(resume(o), FlagOf(o), s.rest);
      } else {
        CaughtIsLost(resume(o), r.rest, s.rest);
      }
  }

  /** A program has one run. */
  lemma {:induction false} OneRun(p: Prog, flag: Option<int>, r: Run, s: Run)
    requires Goes(p, flag, r) && Goes(p, flag, s)
    ensures r == s
    decreases r
  {
    match p
    case Emit(_, next) => OneRun(next, flag, r.rest, s.rest);
    case Suspend(next) =>
      if flag == None {
        OneRun(next, None, r.rest, s.rest);
      }
    case Await(callee, resume) =>
      if flag.Some? {
        OneRun(resume(Value(0)), flag, r.rest, s.rest);
      } else {
        OneRun(callee, None, r.callee, s.callee);
        var o := Yields(callee, None, r.callee);
        OneRun(resume(o), FlagOf(o), r.rest, s.rest);
      }
    case _ =>
  }

  // ---------- up to the next suspension point ----------

  function Effects(p: Prog): seq<Obs> {
    if p.Emit? then [Did(p.effect)] + Effects(p.next) else []
  }

  function StopAt(p: Prog): (q: Prog)
    ensures !q.Emit?
  {
    if p.Emit? then StopAt(p.next) else p
  }

  function RestOf(p: Prog, flag: Option<int>, r: Run): (s: Run)
    requires Goes(p, flag, r)
    ensures Goes(StopAt(p), flag, s) && Size(s) <= Size(r)
    decreases r
  {
    if p.Emit? then RestOf(p.next, flag, r.rest) else r
  }

  lemma EmitUnfolds(p: Prog, flag: Option<int>, r: Run)
    requires Goes(p, flag, r) && p.Emit?
    ensures r.Effect? && Goes(p.next, flag, r.rest)
    ensures Log(p, flag, r) == [Did(p.effect)] + Log(p.next, flag, r.rest) && Yields(p, flag, r) == Yields(p.next, flag, r.rest)
    ensures Obeys(p, flag, r) <==> Obeys(p.next, flag, r.rest)
  {
  }

  lemma {:induction false} SegmentMeans(p: Prog, flag: Option<int>, r: Run)
    requires Goes(p, flag, r)
    ensures var q, s := StopAt(p), RestOf(p, flag, r);
      && Log(p, flag, r) == Effects(p) + Log(q, flag, s) && Yields(p, flag, r) == Yields(q, flag, s)
      && (Obeys(p, flag, r) <==> Obeys(q, flag, s))
    decreases r
  {
    hide Goes, Log, Yields, Obeys;
    if p.Emit? {
      EmitUnfolds(p, flag, r);
      SegmentMeans(p.next, flag, r.rest);
    }
  }

  // ---------- the machine ----------

  /** A frame and its promise.  `prog` is what is left of it; at a `co_await` that it is
      suspended in, `callee` is the frame awaited. */
  datatype Frame = Frame(prog: Prog, callee: Option<nat>, value: int, error: Option<int>, done: bool)

  /** `stack` links the entry's promise to its `_current`. */
  datatype Machine = Machine(frames: seq<Frame>, stack: seq<nat>, trace: seq<Obs>)

  function Fresh(p: Prog): Frame {
    Frame(p, None, 0, None, false)
  }

  function OutcomeOf(x: Frame): Outcome {
    if x.error.Some? then Error(x.error.value) else Value(x.value)
  }

  /** What the frame runs when it is resumed: `await_resume` hands it the outcome of the
      frame it awaits. */
  function Effective(frames: seq<Frame>, f: nat): Prog
    requires f < |frames|
  {
    var x := frames[f];
    if x.callee.Some? && x.callee.value < |frames| && x.prog.Await?
    then x.prog.resume(OutcomeOf(frames[x.callee.value]))
    else x.prog
  }

  /** `_handler.resume()`: the frame runs to its next suspension point. */
  function Resumed(m: Machine, f: nat): (v: Machine)
    requires f < |m.frames|
    ensures |v.frames| >= |m.frames| && m.trace <= v.trace
  {
    var p := Effective(m.frames, f);
    var q := StopAt(p);
    var trace := m.trace + Effects(p);
    var x := m.frames[f];
    match q
    case Return(value) => m.(frames := m.frames[f := x.(prog := q, callee := None, value := value, done := true)], trace := trace)
    case Throw(error) => m.(frames := m.frames[f := x.(prog := q, callee := None, error := Some(error), done := true)], trace := trace)
    case Suspend(next) => m.(frames := m.frames[f := x.(prog := next, callee := None)], trace := trace)
    case Await(callee, _) =>
      var c := |m.frames|;
      m.(frames := m.frames[f := x.(prog := q, callee := Some(c))] + [Fresh(callee)], stack := m.stack + [c], trace := trace)
    case Emit(_, _) => m
  }
}
