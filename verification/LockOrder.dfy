/** The order in which the runtime takes its locks, and why no thread waits for ever. */
module LockOrder {
  import opened Basics

  // ---------- locks ----------

  /** The spinlocks of channels, selects, semaphores, their conditions and run queues;
      a select is named by the address of its lock. */
  datatype Lock = OfChannel(id: nat) | OfSelect(address: nat) | OfSemaphore(id: nat) | OfCondition(id: nat) | OfQueue(id: nat)

  function Level(l: Lock): nat {
    match l
    case OfChannel(_) => 0
    case OfSelect(_) => 1
    case OfSemaphore(_) => 2
    case OfCondition(_) => 3
    case OfQueue(_) => 4
  }

  /** `a` may be held while `b` is requested. */
  predicate Below(a: Lock, b: Lock) {
    Level(a) < Level(b) || (a.OfSelect? && b.OfSelect? && a.address < b.address)
  }

  // ---------- what the code does with them ----------

  datatype Action = Take(lock: Lock) | Drop(lock: Lock)

  /** A critical section. */
  function Within(l: Lock, body: seq<Action>): seq<Action> {
    [Take(l)] + body + [Drop(l)]
  }

  /** Waking a task, or finding nobody blocked. */
  function WakeCode(queue: Option<nat>): seq<Action> {
    if queue.Some? then Within(OfQueue(queue.value), []) else []
  }

  /** `Semaphore::release`. */
  function ReleaseCode(s: nat, queue: Option<nat>): seq<Action> {
    Within(OfSemaphore(s), Within(OfCondition(s), WakeCode(queue)))
  }

  /** An end of a transfer: a plain message, with its semaphore unless it is oneshot, or
      a case of a select.  `queue` is where a task woken by its signal goes. */
  datatype End = Plain(own: Option<nat>, queue: Option<nat>) | Case(select: nat, signal: nat, queue: Option<nat>)

  function CommitCode(e: End): seq<Action> {
    match e
    case Plain(own, queue) => if own.Some? then ReleaseCode(own.value, queue) else []
    case Case(_, signal, queue) => ReleaseCode(signal, queue)
  }

  /** A transfer between one message and the buffer; `ok` unless its select is spent. */
  function BufferCode(e: End, ok: bool): seq<Action> {
    if e.Case? then Within(OfSelect(e.select), if ok then CommitCode(e) else []) else CommitCode(e)
  }

  /** A transfer between two messages.  The locks of two selects are taken in the order
      of their addresses; a select meeting itself throws. */
  function MeetCode(src: End, dst: End, ok: bool): seq<Action> {
    if src.Case? && dst.Case? then
      if src.select == dst.select then []
      else
        var (low, high) := if src.select > dst.select then (dst.select, src.select) else (src.select, dst.select);
        Within(OfSelect(low), Within(OfSelect(high), if ok then CommitCode(src) + CommitCode(dst) else []))
    else if src.Case? then BufferCode(src, ok) + if ok then CommitCode(dst) else []
    else BufferCode(dst, ok) + if ok then CommitCode(src) else []
  }

  datatype Transfer = Buffered(end: End, ok: bool) | Met(src: End, dst: End, ok: bool)

  function TransfersCode(transfers: seq<Transfer>): seq<Action> {
    if transfers == [] then []
    else
      (match transfers[0]
       case Buffered(end, ok) => BufferCode(end, ok)
       case Met(src, dst, ok) => MeetCode(src, dst, ok))
      + TransfersCode(transfers[1..])
  }

  /** The ways a thread goes through the locks. */
  datatype Path =
    | ChannelOp(chan: nat, transfers: seq<Transfer>)  // `BaseChannel::send_to`, `recv_from`
    | DropMsg(chan: nat)                              // `BaseMsg::drop`
    | ReadKey(select: nat)                            // in `Select::operator()`
    | AquireOk(sem: nat)                              // `aquire`, a permit being there
    | AquireWait(sem: nat)                            // `aquire` up to `_suspend_to_this`
    | ReleaseSem(sem: nat, woken: Option<nat>)
    | RemoveTask(sem: nat, woken: Option<nat>)        // `Condition::_remove`
    | UseQueue(queue: nat)                            // `push` and `pop`

  function Code(path: Path): seq<Action> {
    match path
    case ChannelOp(chan, transfers) => Within(OfChannel(chan), TransfersCode(transfers))
    case DropMsg(chan) => Within(OfChannel(chan), [])
    case ReadKey(select) => Within(OfSelect(select), [])
    case AquireOk(sem) => Within(OfSemaphore(sem), [])
    case AquireWait(sem) => Within(OfSemaphore(sem), Within(OfCondition(sem), []))
    case ReleaseSem(sem, queue) => ReleaseCode(sem, queue)
    case RemoveTask(sem, queue) => Within(OfCondition(sem), WakeCode(queue))
    case UseQueue(queue) => Within(OfQueue(queue), [])
  }

  /** What a thread does, one path after another. */
  function Program(paths: seq<Path>): seq<Action> {
    if paths == [] then [] else Code(paths[0]) + Program(paths[1..])
  }

  // ---------- ascending code ----------

  /** From holding `held`, the code requests only locks above all that it holds, drops
      only what it holds, and ends holding nothing. */
  predicate Ascends(held: set<Lock>, code: seq<Action>)
    decreases |code|
  {
    if code == [] then held == {}
    else
      match code[0]
      case Take(l) => (forall h | h in held :: Below(h, l)) && Ascends(held + {l}, code[1..])
      case Drop(l) => l in held && Ascends(held - {l}, code[1..])
  }

  ghost predicate AllBelow(held: set<Lock>, l: Lock) {
    forall h | h in held :: Below(h, l)
  }

  /** A critical section, entered below its lock, ascends if its body does. */
  lemma WithinAscends(held: set<Lock>, l: Lock, body: seq<Action>, rest: seq<Action>)
    requires AllBelow(held, l) && Ascends(held + {l}, body + ([Drop(l)] + rest))
    ensures Ascends(held, Within(l, body) + rest)
  {
    var code := Within(l, body) + rest;
    assert code[1..] == body + ([Drop(l)] + rest);
  }

  lemma DropAscends(held: set<Lock>, l: Lock, rest: seq<Action>)
    requires AllBelow(held, l) && Ascends(held, rest)
    ensures Ascends(held + {l}, [Drop(l)] + rest)
  {
    assert l !in held;
    assert held + {l} - {l} == held;
    assert ([Drop(l)] + rest)[1..] == rest;
  }

  lemma EmptyWithinAscends(held: set<Lock>, l: Lock, rest: seq<Action>)
    requires AllBelow(held, l) && Ascends(held, rest)
    ensures Ascends(held, Within(l, []) + rest)
  {
    DropAscends(held, l, rest);
    assert [] + ([Drop(l)] + rest) == [Drop(l)] + rest;
    WithinAscends(held, l, [], rest);
  }

  ghost predicate Under(held: set<Lock>, level: nat) {
    forall h | h in held :: Level(h) < level
  }

  lemma WakeAscends(held: set<Lock>, queue: Option<nat>, rest: seq<Action>)
    requires Under(held, 4) && Ascends(held, rest)
    ensures Ascends(held, WakeCode(queue) + rest)
  {
    if queue.Some? {
      EmptyWithinAscends(held, OfQueue(queue.value), rest);
    } else {
      assert [] + rest == rest;
    }
  }

  lemma NotifyAscends(held: set<Lock>, s: nat, queue: Option<nat>, rest: seq<Action>)
    requires Under(held, 3) && Ascends(held, rest)
    ensures Ascends(held, Within(OfCondition(s), WakeCode(queue)) + rest)
  {
    var l := OfCondition(s);
    DropAscends(held, l, rest);
    WakeAscends(held + {l}, queue, [Drop(l)] + rest);
    WithinAscends(held, l, WakeCode(queue), rest);
  }

  lemma ReleaseAscends(held: set<Lock>, s: nat, queue: Option<nat>, rest: seq<Action>)
    requires Under(held, 2) && Ascends(held, rest)
    ensures Ascends(held, ReleaseCode(s, queue) + rest)
  {
    var l := OfSemaphore(s);
    DropAscends(held, l, rest);
    NotifyAscends(held + {l}, s, queue, [Drop(l)] + rest);
    WithinAscends(held, l, Within(OfCondition(s), WakeCode(queue)), rest);
  }

  lemma CommitAscends(held: set<Lock>, e: End, rest: seq<Action>)
    requires Under(held, 2) && Ascends(held, rest)
    ensures Ascends(held, CommitCode(e) + rest)
  {
    match e
    case Plain(own, queue) =>
      if own.Some? {
        ReleaseAscends(held, own.value, queue, rest);
      } else {
        assert [] + rest == rest;
      }
    case Case(_, signal, queue) => ReleaseAscends(held, signal, queue, rest);
  }

  lemma MaybeCommitAscends(held: set<Lock>, e: End, ok: bool, rest: seq<Action>)
    requires Under(held, 2) && Ascends(held, rest)
    ensures Ascends(held, (if ok then CommitCode(e) else []) + rest)
  {
    if ok {
      CommitAscends(held, e, rest);
    } else {
      assert [] + rest == rest;
    }
  }

  lemma BufferAscends(held: set<Lock>, e: End, ok: bool, rest: seq<Action>)
    requires Under(held, 1) && Ascends(held, rest)
    ensures Ascends(held, BufferCode(e, ok) + rest)
  {
    if e.Case? {
      var l := OfSelect(e.select);
      DropAscends(held, l, rest);
      MaybeCommitAscends(held + {l}, e, ok, [Drop(l)] + rest);
      WithinAscends(held, l, if ok then CommitCode(e) else [], rest);
    } else {
      CommitAscends(held, e, rest);
    }
  }

  lemma Associates(a: seq<Action>, b: seq<Action>, c: seq<Action>)
    ensures a + (b + c) == (a + b) + c
  {
  }

  lemma BothCommitAscends(held: set<Lock>, src: End, dst: End, ok: bool, rest: seq<Action>)
    requires Under(held, 2) && Ascends(held, rest)
    ensures Ascends(held, (if ok then CommitCode(src) + CommitCode(dst) else []) + rest)
  {
    hide Ascends, Under, CommitCode;
    if ok {
      CommitAscends(held, dst, rest);
      CommitAscends(held, src, CommitCode(dst) + rest);
      Associates(CommitCode(src), CommitCode(dst), rest);
    } else {
      assert [] + rest == rest;
    }
  }

  lemma TwoSelectsAscend(held: set<Lock>, low: nat, high: nat, src: End, dst: End, ok: bool, rest: seq<Action>)
    requires Under(held, 1) && Ascends(held, rest) && low < high
    ensures var body := if ok then CommitCode(src) + CommitCode(dst) else [];
      Ascends(held, Within(OfSelect(low), Within(OfSelect(high), body)) + rest)
  {
    var body := if ok then CommitCode(src) + CommitCode(dst) else [];
    var l, h := OfSelect(low), OfSelect(high);
    DropAscends(held, l, rest);
    DropAscends(held + {l}, h, [Drop(l)] + rest);
    BothCommitAscends(held + {l} + {h}, src, dst, ok, [Drop(h)] + ([Drop(l)] + rest));
    WithinAscends(held + {l}, h, body, [Drop(l)] + rest);
    WithinAscends(held, l, Within(h, body), rest);
  }

  lemma MeetAscends(held: set<Lock>, src: End, dst: End, ok: bool, rest: seq<Action>)
    requires Under(held, 1) && Ascends(held, rest)
    ensures Ascends(held, MeetCode(src, dst, ok) + rest)
  {
    if src.Case? && dst.Case? {
      if src.select == dst.select {
        assert [] + rest == rest;
      } else if src.select > dst.select {
        TwoSelectsAscend(held, dst.select, src.select, src, dst, ok, rest);
      } else {
        TwoSelectsAscend(held, src.select, dst.select, src, dst, ok, rest);
      }
    } else {
      var (first, second) := if src.Case? then (src, dst) else (dst, src);
      var last := if ok then CommitCode(second) else [];
      MaybeCommitAscends(held, second, ok, rest);
      BufferAscends(held, first, ok, last + rest);
      Associates(BufferCode(first, ok), last, rest);
    }
  }

  lemma {:induction false} TransfersAscend(held: set<Lock>, transfers: seq<Transfer>, rest: seq<Action>)
    requires Under(held, 1) && Ascends(held, rest)
    ensures Ascends(held, TransfersCode(transfers) + rest)
  {
    hide Ascends, Under, BufferCode, MeetCode;
    if transfers == [] {
      assert [] + rest == rest;
    } else {
      var more := TransfersCode(transfers[1..]);
      TransfersAscend(held, transfers[1..], rest);
      match transfers[0] {
        case Buffered(end, ok) =>
          BufferAscends(held, end, ok, more + rest);
          Associates(BufferCode(end, ok), more, rest);
        case Met(src, dst, ok) =>
          MeetAscends(held, src, dst, ok, more + rest);
          Associates(MeetCode(src, dst, ok), more, rest);
      }
    }
  }

  lemma PathAscends(path: Path, rest: seq<Action>)
    requires Ascends({}, rest)
    ensures Ascends({}, Code(path) + rest)
  {
    match path
    case ChannelOp(chan, transfers) =>
      var l := OfChannel(chan);
      DropAscends({}, l, rest);
      TransfersAscend({} + {l}, transfers, [Drop(l)] + rest);
      WithinAscends({}, l, TransfersCode(transfers), rest);
    case DropMsg(chan) => EmptyWithinAscends({}, OfChannel(chan), rest);
    case ReadKey(select) => EmptyWithinAscends({}, OfSelect(select), rest);
    case AquireOk(sem) => EmptyWithinAscends({}, OfSemaphore(sem), rest);
    case AquireWait(sem) => ReleaseAscends({}, sem, None, rest);
    case ReleaseSem(sem, woken) => ReleaseAscends({}, sem, woken, rest);
    case RemoveTask(sem, woken) => NotifyAscends({}, sem, woken, rest);
    case UseQueue(queue) => EmptyWithinAscends({}, OfQueue(queue), rest);
  }

  /** Every thread asks only for locks above all those it holds. */
  lemma {:induction false} ProgramAscends(paths: seq<Path>)
    ensures Ascends({}, Program(paths))
  {
    if paths != [] {
      ProgramAscends(paths[1..]);
      PathAscends(paths[0], Program(paths[1..]));
    }
  }

  // ---------- threads ----------

  datatype Thread = Thread(held: set<Lock>, code: seq<Action>)

  /** Thread `i` spins on a lock that thread `j` holds. */
  predicate WaitsFor(threads: seq<Thread>, i: nat, j: nat) {
    && i < |threads| && j < |threads| && threads[i].code != [] && threads[i].code[0].Take?
    && threads[i].code[0].lock in threads[j].held
  }

  predicate CanRun(threads: seq<Thread>, i: nat) {
    && i < |threads| && threads[i].code != []
    && (threads[i].code[0].Take? ==> forall j | 0 <= j < |threads| :: threads[i].code[0].lock !in threads[j].held)
  }

  /** A thread takes a free lock, or drops one. */
  function Ran(threads: seq<Thread>, i: nat): seq<Thread>
    requires CanRun(threads, i)
  {
    var x := threads[i];
    var held := match x.code[0] case Take(l) => x.held + {l} case Drop(l) => x.held - {l};
    threads[i := Thread(held, x.code[1..])]
  }

  predicate Valid(threads: seq<Thread>, schedule: seq<nat>)
    decreases |schedule|
  {
    schedule == [] || (CanRun(threads, schedule[0]) && Valid(Ran(threads, schedule[0]), schedule[1..]))
  }

  function Execute(threads: seq<Thread>, schedule: seq<nat>): seq<Thread>
    requires Valid(threads, schedule)
    decreases |schedule|
  {
    if schedule == [] then threads else Execute(Ran(threads, schedule[0]), schedule[1..])
  }

  function Started(programs: seq<seq<Path>>): seq<Thread> {
    seq(|programs|, i requires 0 <= i < |programs| => Thread({}, Program(programs[i])))
  }

  ghost predicate Orderly(threads: seq<Thread>) {
    && (forall i | 0 <= i < |threads| :: Ascends(threads[i].held, threads[i].code))
    && (forall i, j, l | 0 <= i < |threads| && 0 <= j < |threads| && l in threads[i].held && l in threads[j].held :: i == j)
  }

  lemma StartedIsOrderly(programs: seq<seq<Path>>)
    ensures Orderly(Started(programs))
  {
    forall i | 0 <= i < |programs| ensures Ascends({}, Program(programs[i])) {
      ProgramAscends(programs[i]);
    }
  }

  lemma RanKeepsOrder(threads: seq<Thread>, i: nat)
    requires Orderly(threads) && CanRun(threads, i)
    ensures Orderly(Ran(threads, i))
  {
    assert Ascends(threads[i].held, threads[i].code);
  }

  lemma {:induction false} RunsKeepOrder(threads: seq<Thread>, schedule: seq<nat>)
    requires Orderly(threads) && Valid(threads, schedule)
    ensures Orderly(Execute(threads, schedule))
    decreases |schedule|
  {
    if schedule != [] {
      RanKeepsOrder(threads, schedule[0]);
      RunsKeepOrder(Ran(threads, schedule[0]), schedule[1..]);
    }
  }

  // ---------- no deadlock ----------

  predicate Chain(threads: seq<Thread>, chain: seq<nat>) {
    forall k | 0 <= k < |chain| - 1 :: WaitsFor(threads, chain[k], chain[k + 1])
  }

  lemma BelowTransitive(a: Lock, b: Lock, c: Lock)
    requires Below(a, b) && Below(b, c)
    ensures Below(a, c) && a != c
  {
  }

  /** Along a chain of waiting threads the locks requested rise. */
  lemma {:induction false} ChainRises(threads: seq<Thread>, chain: seq<nat>)
    requires |chain| >= 2 && WaitsFor(threads, chain[0], chain[1]) && Chain(threads, chain) && Orderly(threads)
    requires chain[|chain| - 1] < |threads| && threads[chain[|chain| - 1]].code != [] && threads[chain[|chain| - 1]].code[0].Take?
    ensures Below(threads[chain[0]].code[0].lock, threads[chain[|chain| - 1]].code[0].lock)
  {
    assert Ascends(threads[chain[1]].held, threads[chain[1]].code);
    if |chain| > 2 {
      assert WaitsFor(threads, chain[1], chain[2]);
      ChainRises(threads, chain[1..]);
      BelowTransitive(threads[chain[0]].code[0].lock, threads[chain[1]].code[0].lock, threads[chain[|chain| - 1]].code[0].lock);
    }
  }

  /** In no reachable state do threads wait for one another in a circle. */
  lemma NoCycle(programs: seq<seq<Path>>, schedule: seq<nat>, chain: seq<nat>)
    requires Valid(Started(programs), schedule) && |chain| >= 2 && chain[0] == chain[|chain| - 1]
    ensures !Chain(Execute(Started(programs), schedule), chain)
  {
    var threads := Execute(Started(programs), schedule);
    StartedIsOrderly(programs);
    RunsKeepOrder(Started(programs), schedule);
    if Chain(threads, chain) {
      assert WaitsFor(threads, chain[0], chain[1]);
      ChainRises(threads, chain);
    }
  }

  /** A chain of waiting threads does not come back to one of them. */
  lemma ChainIsNew(threads: seq<Thread>, chain: seq<nat>, j: nat)
    requires Orderly(threads) && chain != [] && Chain(threads, chain) && WaitsFor(threads, chain[|chain| - 1], j)
    ensures j !in chain
  {
    if j in chain {
      var k :| 0 <= k < |chain| && chain[k] == j;
      var circle := chain[k..] + [j];
      forall i | 0 <= i < |circle| - 1 ensures WaitsFor(threads, circle[i], circle[i + 1]) {
        if i < |circle| - 2 {
          assert WaitsFor(threads, chain[k + i], chain[k + i + 1]);
        }
      }
      assert WaitsFor(threads, circle[0], circle[1]);
      ChainRises(threads, circle);
    }
  }

  /** Whoever holds a lock has code left, to drop it. */
  lemma HolderHasCode(threads: seq<Thread>, j: nat)
    requires Orderly(threads) && j < |threads| && threads[j].held != {}
    ensures threads[j].code != []
  {
    assert Ascends(threads[j].held, threads[j].code);
  }

  lemma EndOfChainRuns(threads: seq<Thread>, chain: seq<nat>, unseen: set<nat>) returns (j: nat)
    requires Orderly(threads) && chain != [] && Chain(threads, chain)
    requires chain[|chain| - 1] < |threads| && threads[chain[|chain| - 1]].code != []
    requires forall i: nat | i < |threads| :: i in chain || i in unseen
    ensures CanRun(threads, j)
    decreases |unseen|
  {
    j := chain[|chain| - 1];
    if !CanRun(threads, j) {
      var holder: nat :| holder < |threads| && threads[j].code[0].lock in threads[holder].held;
      assert WaitsFor(threads, j, holder);
      ChainIsNew(threads, chain, holder);
      HolderHasCode(threads, holder);
      j := EndOfChainRuns(threads, chain + [holder], unseen - {holder});
    }
  }

  function UpTo(n: nat): (s: set<nat>)
    ensures forall k: nat :: k in s <==> k < n
  {
    if n == 0 then {} else UpTo(n - 1) + {n - 1}
  }

  function Left(threads: seq<Thread>): nat {
    if threads == [] then 0 else Left(threads[..|threads| - 1]) + |threads[|threads| - 1].code|
  }

  lemma {:induction false} RanLeavesLess(threads: seq<Thread>, i: nat, x: Thread)
    requires i < |threads| && |x.code| < |threads[i].code|
    ensures Left(threads[i := x]) < Left(threads)
  {
    var n := |threads| - 1;
    if i == n {
      assert threads[i := x][..n] == threads[..n];
    } else {
      assert threads[i := x][..n] == threads[..n][i := x];
      RanLeavesLess(threads[..n], i, x);
    }
  }

  predicate AllDone(threads: seq<Thread>) {
    forall i | 0 <= i < |threads| :: threads[i].code == []
  }

  lemma {:induction false} OrderlyCanFinish(threads: seq<Thread>) returns (schedule: seq<nat>)
    requires Orderly(threads)
    ensures Valid(threads, schedule) && AllDone(Execute(threads, schedule))
    decreases Left(threads)
  {
    schedule := [];
    if !AllDone(threads) {
      var i: nat :| i < |threads| && threads[i].code != [];
      var j := EndOfChainRuns(threads, [i], UpTo(|threads|));
      RanKeepsOrder(threads, j);
      RanLeavesLess(threads, j, Ran(threads, j)[j]);
      var rest := OrderlyCanFinish(Ran(threads, j));
      schedule := [j] + rest;
      assert schedule[1..] == rest;
    }
  }

  /** Whatever the threads have done so far, they can all run to their ends. */
  lemma NobodyIsStuck(programs: seq<seq<Path>>, schedule: seq<nat>) returns (rest: seq<nat>)
    requires Valid(Started(programs), schedule)
    ensures var threads := Execute(Started(programs), schedule);
      Valid(threads, rest) && AllDone(Execute(threads, rest))
  {
    StartedIsOrderly(programs);
    RunsKeepOrder(Started(programs), schedule);
    rest := OrderlyCanFinish(Execute(Started(programs), schedule));
  }
}
