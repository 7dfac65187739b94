/** The shared state of channels and selects, and one lock-level step of it.

    A channel operation holds its channel's lock from start to end, but it takes
    the lock of a select only around a single transfer, so other channels may
    commit that select between two of its transfers.  `Advance` is therefore one
    such transfer (or one queue update), and a run of the system interleaves the
    `Advance` steps of all channels with the steps of selects and plain waiters. */
module ChannelModel {
  import opened Basics

  type Value = int

  const INVALID_SELECT_KEY: int := -0x8000_0000

  datatype Status = Ok | InvalidSrc | InvalidDst | InvalidOneshot | Inprocess | Threw

  datatype Role = Sender | Receiver

  /** What a message reports its commit to: its own semaphore, or its select. */
  datatype Endpoint = Simplex | Multiplex(select: nat, key: int)

  /** `woken` tells a plain operation that acquired its semaphore from one whose
      coroutine was destroyed while it waited. */
  datatype Phase = Active | Returned(status: Status) | Leaving(woken: bool) | Dropped(woken: bool)

  /** A message's index in `World.msgs` is its ticket: the order in which
      operations took their channel's lock. */
  datatype Msg = Msg(chan: nat, role: Role, end: Endpoint, data: Value, oneshot: bool,
                     phase: Phase, done: bool, signal: nat, inbox: Option<Value>)

  /** The stage of the operation that holds a channel's lock. */
  datatype Op = Idle | Entering(msg: nat) | Refilling(msg: nat) | Offering(msg: nat) | Exiting(msg: nat, status: Status)

  datatype Chan = Chan(capacity: nat, buffer: seq<Value>, senders: seq<nat>, recvers: seq<nat>, op: Op)

  datatype SelectPhase = Listening | Calling(msg: nat) | Checking | Settling
                       | Dropping(result: Option<int>) | Finished(result: Option<int>)

  datatype Select = Select(fallback: int, key: int, signal: nat, phase: SelectPhase)

  datatype Event = Sent(chan: nat, msg: nat, end: Endpoint, value: Value)
                 | Received(chan: nat, msg: nat, end: Endpoint, value: Value)
                 | Defaulted(select: nat, key: int)

  /** `staleRecv` is the status that `recv_from(void*)` reports for a receiving
      select that is already spent: `InvalidSrc` in the code as written. */
  datatype World = World(chans: seq<Chan>, selects: seq<Select>, msgs: seq<Msg>, log: seq<Event>, staleRecv: Status)

  const AS_WRITTEN: Status := InvalidSrc
  const CORRECTED: Status := InvalidDst

  // ---------- well-formed indices ----------

  predicate EndOk(w: World, end: Endpoint) {
    end.Multiplex? ==> end.select < |w.selects| && end.key != INVALID_SELECT_KEY
  }

  predicate MsgOk(w: World, m: nat) {
    && m < |w.msgs|
    && w.msgs[m].chan < |w.chans|
    && EndOk(w, w.msgs[m].end)
    && (w.msgs[m].end.Multiplex? ==> !w.msgs[m].oneshot)
  }

  /** A message is live unless its select has already committed elsewhere. */
  predicate Live(w: World, m: nat)
    requires MsgOk(w, m)
  {
    w.msgs[m].end.Multiplex? ==> w.selects[w.msgs[m].end.select].key == INVALID_SELECT_KEY
  }

  // ---------- effects of a commit ----------

  /** The two worlds have the same channels, selects and messages, up to the
      fields that a commit writes. */
  ghost predicate SameShape(w: World, v: World) {
    && v.chans == w.chans && v.staleRecv == w.staleRecv
    && |v.selects| == |w.selects|
    && |v.msgs| == |w.msgs|
    && forall i | 0 <= i < |w.msgs| :: SameMessage(w.msgs[i], v.msgs[i]) && v.msgs[i].phase == w.msgs[i].phase
  }

  /** The fields of a message that never change. */
  predicate SameMessage(x: Msg, y: Msg) {
    y.chan == x.chan && y.role == x.role && y.end == x.end && y.data == x.data && y.oneshot == x.oneshot
  }

  /** `commit`: record the key, release the semaphore. */
  function Commit(w: World, m: nat): (v: World)
    requires MsgOk(w, m)
    ensures SameShape(w, v)
  {
    match w.msgs[m].end
    case Simplex =>
      w.(msgs := w.msgs[m := w.msgs[m].(done := true, signal := w.msgs[m].signal + if w.msgs[m].oneshot then 0 else 1)])
    case Multiplex(s, k) =>
      w.(msgs := w.msgs[m := w.msgs[m].(done := true)],
         selects := w.selects[s := w.selects[s].(key := k, signal := w.selects[s].signal + 1)])
  }

  function SendCommit(w: World, m: nat): (v: World)
    requires MsgOk(w, m)
    ensures SameShape(w, v)
  {
    var x := w.msgs[m];
    Commit(w, m).(log := w.log + [Sent(x.chan, m, x.end, x.data)])
  }

  function RecvCommit(w: World, m: nat, value: Value): (v: World)
    requires MsgOk(w, m)
    ensures SameShape(w, v)
  {
    var x := w.msgs[m];
    var w1 := Commit(w, m);
    w1.(msgs := w1.msgs[m := w1.msgs[m].(inbox := Some(value))],
        log := w.log + [Received(x.chan, m, x.end, value)])
  }

  // ---------- one transfer between two messages ----------

  /** The status of handing `src`'s value to `dst`, both locks taken. */
  function Match(w: World, src: nat, dst: nat): Status
    requires MsgOk(w, src) && MsgOk(w, dst)
  {
    match (w.msgs[src].end, w.msgs[dst].end)
    case (Multiplex(s, _), Multiplex(d, _)) =>
      if s == d then Threw
      else if !Live(w, src) then InvalidSrc
      else if !Live(w, dst) then InvalidDst
      else Ok
    case (Multiplex(_, _), Simplex) => if Live(w, src) then Ok else InvalidSrc
    case (Simplex, Multiplex(_, _)) => if Live(w, dst) then Ok else w.staleRecv
    case (Simplex, Simplex) => Ok
  }

  // ---------- one step of a channel operation ----------

  datatype Effect =
    | Offer                // the buffer does not serve the message: turn to the waiters
    | Take                 // the message receives the front of the buffer
    | Put                  // the message sends into the buffer
    | Refill               // the first waiting sender fills the freed slot
    | Hand                 // the first waiting receiver takes the front of the buffer
    | Direct               // the message and the first waiter exchange directly
    | Unlink               // the first waiter is unlinked without a transfer
    | Park                 // the message joins the queue of its own role
    | Stop(status: Status) // the operation is over without a transfer
    | Unlock               // the operation returns and releases the lock

  predicate OpOk(w: World, c: nat) {
    && c < |w.chans|
    && !w.chans[c].op.Idle?
    && MsgOk(w, w.chans[c].op.msg)
    && (w.chans[c].senders != [] ==> MsgOk(w, w.chans[c].senders[0]))
    && (w.chans[c].recvers != [] ==> MsgOk(w, w.chans[c].recvers[0]))
  }

  /** The branch taken by the operation that holds channel `c`. */
  function Decide(w: World, c: nat): (e: Effect)
    requires OpOk(w, c)
  {
    var ch := w.chans[c];
    var m := ch.op.msg;
    var receiving := w.msgs[m].role.Receiver?;
    match ch.op
    case Entering(_) =>
      if receiving then
        if ch.buffer != [] && Live(w, m) then Take else Offer
      else
        if |ch.buffer| != ch.capacity && Live(w, m) then Put else Offer
    case Refilling(_) =>
      if receiving then
        if ch.senders == [] then Stop(Ok)
        else if |ch.buffer| != ch.capacity && Live(w, ch.senders[0]) then Refill
        else Unlink
      else
        if ch.recvers == [] then Stop(Ok)
        else if ch.buffer != [] && Live(w, ch.recvers[0]) then Hand
        else Unlink
    case Offering(_) =>
      if receiving then
        if ch.senders == [] then (if w.msgs[m].oneshot then Stop(InvalidOneshot) else Park)
        else (match Match(w, ch.senders[0], m)
          case Ok => Direct
          case InvalidSrc => Unlink
          case Threw => Stop(Threw)
          case _ => Stop(InvalidDst))
      else
        if ch.recvers == [] then (if w.msgs[m].oneshot then Stop(InvalidOneshot) else Park)
        else (match Match(w, m, ch.recvers[0])
          case Ok => Direct
          case InvalidDst => Unlink
          case Threw => Stop(Threw)
          case _ => Stop(InvalidSrc))
    case Exiting(_, _) => Unlock
  }

  function SetChan(w: World, c: nat, ch: Chan): World
    requires c < |w.chans|
  {
    w.(chans := w.chans[c := ch])
  }

  /** Release the channel's lock and report `status` to the caller. */
  function Return(w: World, c: nat, m: nat, status: Status): World
    requires c < |w.chans| && MsgOk(w, m)
  {
    var w1 := w.(chans := w.chans[c := w.chans[c].(op := Idle)],
                 msgs := w.msgs[m := w.msgs[m].(phase := Returned(status))]);
    match w.msgs[m].end
    case Simplex => w1
    case Multiplex(s, _) =>
      w1.(selects := w.selects[s := w.selects[s].(phase := if status == Threw then Dropping(None) else Checking)])
  }

  function TakeBuffered(w: World, c: nat, m: nat): (v: World)
    requires c < |w.chans| && MsgOk(w, m) && w.chans[c].buffer != []
  {
    var ch := w.chans[c];
    SetChan(RecvCommit(w, m, ch.buffer[0]), c, ch.(buffer := ch.buffer[1..], op := Refilling(m)))
  }

  function PutBuffered(w: World, c: nat, m: nat): (v: World)
    requires c < |w.chans| && MsgOk(w, m)
  {
    var ch := w.chans[c];
    SetChan(SendCommit(w, m), c, ch.(buffer := ch.buffer + [w.msgs[m].data], op := Refilling(m)))
  }

  function RefillFromSender(w: World, c: nat, m: nat): (v: World)
    requires c < |w.chans| && w.chans[c].senders != [] && MsgOk(w, w.chans[c].senders[0])
  {
    var ch := w.chans[c];
    var s := ch.senders[0];
    SetChan(SendCommit(w, s), c,
            ch.(buffer := ch.buffer + [w.msgs[s].data], senders := ch.senders[1..], op := Exiting(m, Ok)))
  }

  function HandToReceiver(w: World, c: nat, m: nat): (v: World)
    requires c < |w.chans| && w.chans[c].buffer != []
    requires w.chans[c].recvers != [] && MsgOk(w, w.chans[c].recvers[0])
  {
    var ch := w.chans[c];
    SetChan(RecvCommit(w, ch.recvers[0], ch.buffer[0]), c,
            ch.(buffer := ch.buffer[1..], recvers := ch.recvers[1..], op := Exiting(m, Ok)))
  }

  /** A direct exchange: both messages commit, and the waiter leaves its queue. */
  function Exchange(w: World, src: nat, dst: nat): (v: World)
    requires MsgOk(w, src) && MsgOk(w, dst)
    ensures SameShape(w, v)
  {
    RecvCommit(SendCommit(w, src), dst, w.msgs[src].data)
  }

  function DirectFromSender(w: World, c: nat, m: nat): (v: World)
    requires c < |w.chans| && MsgOk(w, m) && w.chans[c].senders != [] && MsgOk(w, w.chans[c].senders[0])
  {
    var ch := w.chans[c];
    SetChan(Exchange(w, ch.senders[0], m), c, ch.(senders := ch.senders[1..], op := Exiting(m, Ok)))
  }

  function DirectToReceiver(w: World, c: nat, m: nat): (v: World)
    requires c < |w.chans| && MsgOk(w, m) && w.chans[c].recvers != [] && MsgOk(w, w.chans[c].recvers[0])
  {
    var ch := w.chans[c];
    SetChan(Exchange(w, m, ch.recvers[0]), c, ch.(recvers := ch.recvers[1..], op := Exiting(m, Ok)))
  }

  /** The waiting queue that an operation of this role serves itself from. */
  function Opposite(ch: Chan, role: Role): seq<nat> {
    if role.Receiver? then ch.senders else ch.recvers
  }

  function UnlinkFirst(ch: Chan, role: Role): Chan
    requires Opposite(ch, role) != []
  {
    if role.Receiver? then ch.(senders := ch.senders[1..]) else ch.(recvers := ch.recvers[1..])
  }

  function LinkLast(ch: Chan, role: Role, m: nat): Chan {
    if role.Receiver? then ch.(recvers := ch.recvers + [m]) else ch.(senders := ch.senders + [m])
  }

  predicate CanApply(w: World, c: nat, e: Effect) {
    && OpOk(w, c)
    && (e.Take? || e.Hand? ==> w.chans[c].buffer != [])
    && (e.Refill? ==> w.chans[c].senders != [])
    && (e.Hand? ==> w.chans[c].recvers != [])
    && (e.Direct? || e.Unlink? ==> Opposite(w.chans[c], w.msgs[w.chans[c].op.msg].role) != [])
    && (e.Unlock? ==> w.chans[c].op.Exiting?)
  }

  function Apply(w: World, c: nat, e: Effect): World
    requires CanApply(w, c, e)
  {
    var ch := w.chans[c];
    var m := ch.op.msg;
    var role := w.msgs[m].role;
    match e
    case Offer => SetChan(w, c, ch.(op := Offering(m)))
    case Take => TakeBuffered(w, c, m)
    case Put => PutBuffered(w, c, m)
    case Refill => RefillFromSender(w, c, m)
    case Hand => HandToReceiver(w, c, m)
    case Direct => if role.Receiver? then DirectFromSender(w, c, m) else DirectToReceiver(w, c, m)
    case Unlink => SetChan(w, c, UnlinkFirst(ch, role))
    case Park => SetChan(w, c, LinkLast(ch, role, m).(op := Exiting(m, Inprocess)))
    case Stop(status) => SetChan(w, c, ch.(op := Exiting(m, status)))
    case Unlock => Return(w, c, m, ch.op.status)
  }

  function Advance(w: World, c: nat): World
    requires OpOk(w, c)
  {
    Apply(w, c, Decide(w, c))
  }

  // ---------- the other steps of a run ----------

  datatype Step =
    | NewChannel(capacity: nat)
    | NewSelect(fallback: int)
    | Start(chan: nat, role: Role, end: Endpoint, data: Value, oneshot: bool)
    | Progress(chan: nat)
    | CheckKey(select: nat)
    | EndListeners(select: nat)
    | Settle(select: nat)
    | AbandonSelect(select: nat)
    | Wake(msg: nat)
    | AbandonPlain(msg: nat)
    | Drop(msg: nat)
    | FinishSelect(select: nat)

  predicate OwnerDropping(w: World, m: nat)
    requires MsgOk(w, m)
  {
    match w.msgs[m].end
    case Simplex => w.msgs[m].phase.Leaving?
    case Multiplex(s, _) => w.selects[s].phase.Dropping? && w.msgs[m].phase.Returned?
  }

  predicate Enabled(w: World, step: Step) {
    match step
    case NewChannel(_) => true
    case NewSelect(_) => true
    case Start(c, _, end, _, oneshot) =>
      && c < |w.chans| && w.chans[c].op.Idle?
      && EndOk(w, end)
      && (end.Multiplex? ==> !oneshot && w.selects[end.select].phase == Listening)
    case Progress(c) => OpOk(w, c)
    case CheckKey(s) => s < |w.selects| && w.selects[s].phase == Checking
    case EndListeners(s) => s < |w.selects| && w.selects[s].phase == Listening
    case Settle(s) =>
      && s < |w.selects| && w.selects[s].phase == Settling
      && (w.selects[s].fallback == INVALID_SELECT_KEY ==> w.selects[s].signal > 0)
    case AbandonSelect(s) => s < |w.selects| && w.selects[s].phase in {Listening, Settling}
    case Wake(m) =>
      MsgOk(w, m) && w.msgs[m].end.Simplex? && !w.msgs[m].oneshot && w.msgs[m].phase.Returned? && w.msgs[m].signal > 0
    case AbandonPlain(m) =>
      MsgOk(w, m) && w.msgs[m].end.Simplex? && !w.msgs[m].oneshot && w.msgs[m].phase.Returned?
    case Drop(m) => MsgOk(w, m) && w.chans[w.msgs[m].chan].op.Idle? && OwnerDropping(w, m)
    case FinishSelect(s) =>
      && s < |w.selects| && w.selects[s].phase.Dropping?
      && forall m | 0 <= m < |w.msgs| ::
           w.msgs[m].end.Multiplex? && w.msgs[m].end.select == s ==> w.msgs[m].phase.Dropped?
  }

  function SetSelect(w: World, s: nat, x: Select): World
    requires s < |w.selects|
  {
    w.(selects := w.selects[s := x])
  }

  function Next(w: World, step: Step): World
    requires Enabled(w, step)
  {
    match step
    case NewChannel(capacity) => w.(chans := w.chans + [Chan(capacity, [], [], [], Idle)])
    case NewSelect(fallback) => w.(selects := w.selects + [Select(fallback, INVALID_SELECT_KEY, 0, Listening)])
    case Start(c, role, end, data, oneshot) =>
      var w1 := w.(msgs := w.msgs + [Msg(c, role, end, data, oneshot, Active, false, 0, None)],
                   chans := w.chans[c := w.chans[c].(op := Entering(|w.msgs|))]);
      if end.Simplex? then w1
      else SetSelect(w1, end.select, w.selects[end.select].(phase := Calling(|w.msgs|)))
    case Progress(c) => Advance(w, c)
    case CheckKey(s) =>
      SetSelect(w, s, w.selects[s].(phase := if w.selects[s].key != INVALID_SELECT_KEY then Settling else Listening))
    case EndListeners(s) => SetSelect(w, s, w.selects[s].(phase := Settling))
    case Settle(s) =>
      var x := w.selects[s];
      if x.fallback == INVALID_SELECT_KEY then
        SetSelect(w, s, x.(signal := x.signal - 1, phase := Dropping(Some(x.key))))
      else if x.key == INVALID_SELECT_KEY then
        SetSelect(w, s, x.(key := x.fallback, phase := Dropping(Some(x.fallback))))
          .(log := w.log + [Defaulted(s, x.fallback)])
      else
        SetSelect(w, s, x.(phase := Dropping(Some(x.key))))
    case AbandonSelect(s) => SetSelect(w, s, w.selects[s].(phase := Dropping(None)))
    case Wake(m) => w.(msgs := w.msgs[m := w.msgs[m].(phase := Leaving(true), signal := w.msgs[m].signal - 1)])
    case AbandonPlain(m) => w.(msgs := w.msgs[m := w.msgs[m].(phase := Leaving(false))])
    case Drop(m) =>
      var c := w.msgs[m].chan;
      var ch := w.chans[c];
      w.(chans := w.chans[c := ch.(senders := Without(ch.senders, m), recvers := Without(ch.recvers, m))],
         msgs := w.msgs[m := w.msgs[m].(phase := Dropped(w.msgs[m].phase == Leaving(true)))])
    case FinishSelect(s) => SetSelect(w, s, w.selects[s].(phase := Finished(w.selects[s].phase.result)))
  }

  // ---------- runs ----------

  function Initial(staleRecv: Status): World {
    World([], [], [], [], staleRecv)
  }

  predicate Runs(w: World, steps: seq<Step>)
    decreases |steps|
  {
    steps == [] || (Enabled(w, steps[0]) && Runs(Next(w, steps[0]), steps[1..]))
  }

  function Execute(w: World, steps: seq<Step>): World
    requires Runs(w, steps)
    decreases |steps|
  {
    if steps == [] then w else Execute(Next(w, steps[0]), steps[1..])
  }

  lemma {:induction false} RunsConcat(w: World, first: seq<Step>, second: seq<Step>)
    requires Runs(w, first) && Runs(Execute(w, first), second)
    ensures Runs(w, first + second) && Execute(w, first + second) == Execute(Execute(w, first), second)
    decreases |first|
  {
    hide Enabled, Next;
    if first == [] {
      assert first + second == second;
    } else {
      RunsConcat(Next(w, first[0]), first[1..], second);
      assert (first + second)[1..] == first[1..] + second;
    }
  }

  lemma SingleRun(w: World, step: Step)
    requires Enabled(w, step)
    ensures Runs(w, [step]) && Execute(w, [step]) == Next(w, step)
  {
    hide Enabled, Next;
    assert [step][1..] == [];
  }
}
