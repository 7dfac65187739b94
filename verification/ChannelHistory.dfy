/** What the log of commits says about a run: each channel is a bounded FIFO, and
    each message and each select commits at most once. */
module ChannelHistory {
  import opened Basics
  import opened ChannelModel
  import opened ChannelInvariant
  import opened ChannelThrows

  // ---------- views of the log ----------

  /** The values sent on channel `c`, in the order of their commits. */
  function SentOn(log: seq<Event>, c: nat): seq<Value> {
    if log == [] then []
    else
      var e := log[|log| - 1];
      SentOn(log[..|log| - 1], c) + if e.Sent? && e.chan == c then [e.value] else []
  }

  /** The values received on channel `c`, in the order of their commits. */
  function ReceivedOn(log: seq<Event>, c: nat): seq<Value> {
    if log == [] then []
    else
      var e := log[|log| - 1];
      ReceivedOn(log[..|log| - 1], c) + if e.Received? && e.chan == c then [e.value] else []
  }

  predicate OfSelect(e: Event, s: nat) {
    match e
    case Defaulted(d, _) => d == s
    case _ => e.end.Multiplex? && e.end.select == s
  }

  predicate OfMsg(e: Event, m: nat) {
    !e.Defaulted? && e.msg == m
  }

  /** The commits of select `s`, on whatever channels. */
  function CommitsOf(log: seq<Event>, s: nat): seq<Event> {
    if log == [] then []
    else
      var e := log[|log| - 1];
      CommitsOf(log[..|log| - 1], s) + if OfSelect(e, s) then [e] else []
  }

  /** The transfers of message `m`. */
  function TransfersOf(log: seq<Event>, m: nat): seq<Event> {
    if log == [] then []
    else
      var e := log[|log| - 1];
      TransfersOf(log[..|log| - 1], m) + if OfMsg(e, m) then [e] else []
  }

  function KeyOf(e: Event): int
    requires e.Defaulted? || e.end.Multiplex?
  {
    if e.Defaulted? then e.key else e.end.key
  }

  lemma Append(log: seq<Event>, e: Event)
    ensures forall c :: SentOn(log + [e], c) == SentOn(log, c) + if e.Sent? && e.chan == c then [e.value] else []
    ensures forall c :: ReceivedOn(log + [e], c) == ReceivedOn(log, c) + if e.Received? && e.chan == c then [e.value] else []
    ensures forall s :: CommitsOf(log + [e], s) == CommitsOf(log, s) + if OfSelect(e, s) then [e] else []
    ensures forall m :: TransfersOf(log + [e], m) == TransfersOf(log, m) + if OfMsg(e, m) then [e] else []
  {
    assert (log + [e])[..|log|] == log;
  }

  // ---------- the history invariants ----------

  /** What was received, then what is buffered, is what was sent. */
  ghost predicate Fifo(log: seq<Event>, c: nat, buffer: seq<Value>) {
    ReceivedOn(log, c) + buffer == SentOn(log, c)
  }

  /** The select has settled, or has been given up. */
  predicate Over(x: Select) {
    x.phase.Dropping? || x.phase.Finished?
  }

  function Result(x: Select): Option<int> {
    if x.phase.Dropping? || x.phase.Finished? then x.phase.result else None
  }

  /** A select's key is written by exactly one commit, which is the default's only when
      the select is over; a case commit releases the
      select's semaphore once, and the select's coroutine takes it at most once. */
  ghost predicate SelectHistory(log: seq<Event>, s: nat, x: Select) {
    var commits := CommitsOf(log, s);
    && (if x.key == INVALID_SELECT_KEY then commits == []
        else |commits| == 1 && OfSelect(commits[0], s) && KeyOf(commits[0]) == x.key)
    && (commits != [] && commits[0].Defaulted? ==> x.key == x.fallback && Over(x))
    && x.signal + (if x.fallback == INVALID_SELECT_KEY && Result(x).Some? then 1 else 0)
       == (if commits != [] && !commits[0].Defaulted? then 1 else 0)
    && (Result(x).Some? ==> x.key != INVALID_SELECT_KEY && Result(x).value == x.key)
  }

  /** The event that records the transfer of a message. */
  function Transfer(x: Msg, m: nat): Event
    requires x.role.Receiver? ==> x.inbox.Some?
  {
    if x.role.Sender? then Sent(x.chan, m, x.end, x.data) else Received(x.chan, m, x.end, x.inbox.value)
  }

  /** A message transfers at most once, a receive target is written only by its
      transfer, and a plain operation wakes only after its transfer. */
  ghost predicate MsgHistory(log: seq<Event>, m: nat, x: Msg) {
    && (x.inbox.Some? <==> x.done && x.role.Receiver?)
    && TransfersOf(log, m) == (if x.done then [Transfer(x, m)] else [])
    && (x.end.Simplex? && !x.oneshot ==>
          x.signal + (if x.phase in {Leaving(true), Dropped(true)} then 1 else 0) == (if x.done then 1 else 0))
    && (x.phase == Returned(Inprocess) ==> !x.oneshot)
    && (x.phase.Returned? && x.phase.status != Inprocess ==> (x.done <==> x.phase.status == Ok))
  }

  /** The log speaks only of messages and selects that exist. */
  ghost predicate LogBounded(w: World) {
    forall i | 0 <= i < |w.log| ::
      if w.log[i].Defaulted? then w.log[i].select < |w.selects|
      else w.log[i].msg < |w.msgs| && w.log[i].chan < |w.chans| && EndOk(w, w.log[i].end)
  }

  ghost predicate SelectHistories(w: World) {
    forall s | 0 <= s < |w.selects| :: SelectHistory(w.log, s, w.selects[s])
  }

  ghost predicate MsgHistories(w: World) {
    forall m | 0 <= m < |w.msgs| :: MsgHistory(w.log, m, w.msgs[m])
  }

  ghost predicate Commits(w: World) {
    LogBounded(w) && SelectHistories(w) && MsgHistories(w)
  }

  ghost predicate Fifos(w: World) {
    forall c | 0 <= c < |w.chans| :: Fifo(w.log, c, w.chans[c].buffer)
  }

  lemma FreshHasNoHistory(log: seq<Event>, chans: nat, selects: nat, msgs: nat)
    requires forall i | 0 <= i < |log| ::
      if log[i].Defaulted? then log[i].select < selects
      else log[i].msg < msgs && log[i].chan < chans && (log[i].end.Multiplex? ==> log[i].end.select < selects)
    ensures SentOn(log, chans) == [] && ReceivedOn(log, chans) == []
    ensures CommitsOf(log, selects) == [] && TransfersOf(log, msgs) == []
  {
    if log != [] {
      FreshHasNoHistory(log[..|log| - 1], chans, selects, msgs);
    }
  }

  // ---------- commits ----------

  /** The message is waiting or being handled, and has not transferred. */
  predicate Pending(w: World, m: nat) {
    && MsgOk(w, m) && Live(w, m) && !w.msgs[m].done
    && (w.msgs[m].phase in {Active, Returned(Inprocess)} || w.msgs[m].phase.Leaving?)
  }

  lemma SendCommitKeepsCommits(w: World, m: nat)
    requires Commits(w) && Pending(w, m) && w.msgs[m].role.Sender?
    ensures Commits(SendCommit(w, m))
  {
    hide SentOn, ReceivedOn, CommitsOf, TransfersOf;
    var v := SendCommit(w, m);
    var x := w.msgs[m];
    Append(w.log, Sent(x.chan, m, x.end, x.data));
    forall s | 0 <= s < |v.selects| ensures SelectHistory(v.log, s, v.selects[s]) {
      assert SelectHistory(w.log, s, w.selects[s]);
    }
    assert MsgHistory(w.log, m, x);
  }

  lemma RecvCommitKeepsCommits(w: World, m: nat, value: Value)
    requires Commits(w) && Pending(w, m) && w.msgs[m].role.Receiver?
    ensures Commits(RecvCommit(w, m, value))
  {
    hide SentOn, ReceivedOn, CommitsOf, TransfersOf;
    var v := RecvCommit(w, m, value);
    var x := w.msgs[m];
    Append(w.log, Received(x.chan, m, x.end, value));
    forall s | 0 <= s < |v.selects| ensures SelectHistory(v.log, s, v.selects[s]) {
      assert SelectHistory(w.log, s, w.selects[s]);
    }
    assert MsgHistory(w.log, m, x);
  }

  lemma ExchangeKeepsCommits(w: World, src: nat, dst: nat)
    requires Commits(w) && Pending(w, src) && Pending(w, dst)
    requires w.msgs[src].role.Sender? && w.msgs[dst].role.Receiver?
    requires w.msgs[src].end.Multiplex? && w.msgs[dst].end.Multiplex? ==> w.msgs[src].end.select != w.msgs[dst].end.select
    ensures Commits(Exchange(w, src, dst))
  {
    SendCommitKeepsCommits(w, src);
    RecvCommitKeepsCommits(SendCommit(w, src), dst, w.msgs[src].data);
  }

  /** Commits do not depend on the state of the channels. */
  lemma CommitsAfter(u: World, v: World)
    requires Commits(u) && v.log == u.log && v.selects == u.selects && v.msgs == u.msgs && |v.chans| == |u.chans|
    ensures Commits(v)
  {
    hide SentOn, ReceivedOn, CommitsOf, TransfersOf;
  }

  /** The messages that a transfer commits were pending. */
  lemma TransfersArePending(w: World, c: nat, e: Effect)
    requires c < |w.chans| && OpOk(w, c) && ChanOk(w, c) && Justified(w, c, e)
    ensures e.Take? || e.Put? || e.Direct? ==> Pending(w, w.chans[c].op.msg)
    ensures e.Refill? || e.Hand? || e.Direct? ==>
      var q := Opposite(w.chans[c], w.msgs[w.chans[c].op.msg].role);
      Pending(w, q[0]) && w.msgs[q[0]].role != w.msgs[w.chans[c].op.msg].role && w.msgs[q[0]].chan == c
  {
    var ch := w.chans[c];
    if ch.senders != [] {
      assert Linkable(w, ch.senders[0], c, Sender);
    }
    if ch.recvers != [] {
      assert Linkable(w, ch.recvers[0], c, Receiver);
    }
    assert StageOk(w, c);
  }

  predicate Transferring(e: Effect) {
    e.Take? || e.Put? || e.Refill? || e.Hand? || e.Direct?
  }

  lemma TransferKeepsCommits(w: World, c: nat, e: Effect)
    requires Commits(w) && c < |w.chans| && OpOk(w, c) && ChanOk(w, c) && Justified(w, c, e) && Transferring(e)
    ensures Commits(Apply(w, c, e))
  {
    hide SentOn, ReceivedOn, CommitsOf, TransfersOf;
    var ch := w.chans[c];
    var m := ch.op.msg;
    TransfersArePending(w, c, e);
    var v := Apply(w, c, e);
    match e
    case Take =>
      RecvCommitKeepsCommits(w, m, ch.buffer[0]);
      CommitsAfter(RecvCommit(w, m, ch.buffer[0]), v);
    case Put =>
      SendCommitKeepsCommits(w, m);
      CommitsAfter(SendCommit(w, m), v);
    case Refill =>
      SendCommitKeepsCommits(w, ch.senders[0]);
      CommitsAfter(SendCommit(w, ch.senders[0]), v);
    case Hand =>
      RecvCommitKeepsCommits(w, ch.recvers[0], ch.buffer[0]);
      CommitsAfter(RecvCommit(w, ch.recvers[0], ch.buffer[0]), v);
    case Direct =>
      var src := if w.msgs[m].role.Receiver? then ch.senders[0] else m;
      var dst := if w.msgs[m].role.Receiver? then m else ch.recvers[0];
      ExchangeKeepsCommits(w, src, dst);
      CommitsAfter(Exchange(w, src, dst), v);
  }

  /** The log and the buffer of the channel after one step. */
  lemma ApplyLog(w: World, c: nat, e: Effect)
    requires c < |w.chans| && OpOk(w, c) && ChanOk(w, c) && Justified(w, c, e)
    ensures var ch := w.chans[c];
      var m := ch.op.msg;
      var v := Apply(w, c, e);
      |v.chans| == |w.chans| &&
      match e
      case Take => v.log == w.log + [Received(c, m, w.msgs[m].end, ch.buffer[0])] && v.chans[c].buffer == ch.buffer[1..]
      case Put => v.log == w.log + [Sent(c, m, w.msgs[m].end, w.msgs[m].data)] && v.chans[c].buffer == ch.buffer + [w.msgs[m].data]
      case Refill =>
        var s := ch.senders[0];
        v.log == w.log + [Sent(c, s, w.msgs[s].end, w.msgs[s].data)] && v.chans[c].buffer == ch.buffer + [w.msgs[s].data]
      case Hand =>
        var r := ch.recvers[0];
        v.log == w.log + [Received(c, r, w.msgs[r].end, ch.buffer[0])] && v.chans[c].buffer == ch.buffer[1..]
      case Direct =>
        var src := if w.msgs[m].role.Receiver? then ch.senders[0] else m;
        var dst := if w.msgs[m].role.Receiver? then m else ch.recvers[0];
        && v.log == w.log + [Sent(c, src, w.msgs[src].end, w.msgs[src].data)] + [Received(c, dst, w.msgs[dst].end, w.msgs[src].data)]
        && v.chans[c].buffer == ch.buffer == []
      case _ => v.log == w.log && v.chans[c].buffer == ch.buffer
  {
    hide SentOn, ReceivedOn, CommitsOf, TransfersOf;
    TransfersArePending(w, c, e);
    assert StageOk(w, c);
  }

  ghost predicate OthersFifo(log: seq<Event>, later: seq<Event>, c: nat) {
    forall d: nat, buffer | d != c && Fifo(log, d, buffer) :: Fifo(later, d, buffer)
  }

  lemma FifoSend(log: seq<Event>, c: nat, buffer: seq<Value>, e: Event)
    requires Fifo(log, c, buffer) && e.Sent? && e.chan == c
    ensures Fifo(log + [e], c, buffer + [e.value]) && OthersFifo(log, log + [e], c)
  {
    hide SentOn, ReceivedOn, CommitsOf, TransfersOf;
    Append(log, e);
    assert ReceivedOn(log, c) + (buffer + [e.value]) == ReceivedOn(log, c) + buffer + [e.value];
  }

  lemma FifoReceive(log: seq<Event>, c: nat, buffer: seq<Value>, e: Event)
    requires Fifo(log, c, buffer) && e.Received? && e.chan == c && buffer != [] && e.value == buffer[0]
    ensures Fifo(log + [e], c, buffer[1..]) && OthersFifo(log, log + [e], c)
  {
    hide SentOn, ReceivedOn, CommitsOf, TransfersOf;
    Append(log, e);
    assert buffer == [buffer[0]] + buffer[1..];
  }

  lemma ApplyKeepsFifo(w: World, c: nat, e: Effect)
    requires c < |w.chans| && OpOk(w, c) && ChanOk(w, c) && Justified(w, c, e)
    requires Fifo(w.log, c, w.chans[c].buffer)
    ensures |Apply(w, c, e).chans| == |w.chans|
    ensures Fifo(Apply(w, c, e).log, c, Apply(w, c, e).chans[c].buffer)
    ensures OthersFifo(w.log, Apply(w, c, e).log, c)
  {
    hide SentOn, ReceivedOn, CommitsOf, TransfersOf;
    var log := w.log;
    var ch := w.chans[c];
    var later := Apply(w, c, e).log;
    ApplyLog(w, c, e);
    match e
    case Take => FifoReceive(log, c, ch.buffer, later[|log|]);
    case Hand => FifoReceive(log, c, ch.buffer, later[|log|]);
    case Put => FifoSend(log, c, ch.buffer, later[|log|]);
    case Refill => FifoSend(log, c, ch.buffer, later[|log|]);
    case Direct =>
      FifoSend(log, c, ch.buffer, later[|log|]);
      FifoReceive(log + [later[|log|]], c, ch.buffer + [later[|log|].value], later[|log| + 1]);
    case _ =>
  }

  lemma ReturnKeepsCommits(w: World, c: nat, m: nat, status: Status)
    requires Commits(w) && c < |w.chans| && MsgOk(w, m) && w.msgs[m].phase == Active
    requires w.msgs[m].done <==> status == Ok
    requires status == Inprocess ==> !w.msgs[m].oneshot
    requires w.msgs[m].end.Multiplex? ==> w.selects[w.msgs[m].end.select].phase.Calling?
    ensures Commits(Return(w, c, m, status))
  {
    hide SentOn, ReceivedOn, CommitsOf, TransfersOf;
    var v := Return(w, c, m, status);
    assert MsgHistory(w.log, m, w.msgs[m]);
    forall s | 0 <= s < |v.selects| ensures SelectHistory(v.log, s, v.selects[s]) {
      assert SelectHistory(w.log, s, w.selects[s]);
    }
  }

  lemma UnlockKeepsCommits(w: World, c: nat)
    requires Commits(w) && MsgsOk(w) && c < |w.chans| && OpOk(w, c) && ChanOk(w, c) && w.chans[c].op.Exiting?
    ensures Commits(Return(w, c, w.chans[c].op.msg, w.chans[c].op.status))
  {
    hide SentOn, ReceivedOn, CommitsOf, TransfersOf;
    var m := w.chans[c].op.msg;
    assert MsgPlaced(w, m) && StageOk(w, c) && Holds(w, c, m);
    ReturnKeepsCommits(w, c, m, w.chans[c].op.status);
  }

  lemma SettleKeepsCommits(w: World, s: nat)
    requires Commits(w) && Enabled(w, Settle(s))
    ensures Commits(Next(w, Settle(s)))
  {
    hide SentOn, ReceivedOn, CommitsOf, TransfersOf;
    var v := Next(w, Settle(s));
    Append(w.log, Defaulted(s, w.selects[s].fallback));
    assert SelectHistory(w.log, s, w.selects[s]);
  }

  lemma NewSelectKeepsCommits(w: World, fallback: int)
    requires Commits(w)
    ensures Commits(Next(w, NewSelect(fallback)))
  {
    FreshHasNoHistory(w.log, |w.chans|, |w.selects|, |w.msgs|);
    SelectAdded(w, fallback);
  }

  lemma SelectAdded(w: World, fallback: int)
    requires Commits(w) && CommitsOf(w.log, |w.selects|) == []
    ensures Commits(Next(w, NewSelect(fallback)))
  {
    hide SentOn, ReceivedOn, CommitsOf, TransfersOf;
    var v := Next(w, NewSelect(fallback));
    forall s | 0 <= s < |v.selects| ensures SelectHistory(v.log, s, v.selects[s]) {
      assert s < |w.selects| ==> SelectHistory(w.log, s, w.selects[s]);
    }
  }

  /** A change of a select that leaves its key, its semaphore and its result alone. */
  predicate QuietSelect(x: Select, y: Select) {
    y.fallback == x.fallback && y.key == x.key && y.signal == x.signal && Result(y) == Result(x) && (Over(x) ==> Over(y))
  }

  lemma QuietSelectKeepsCommits(w: World, s: nat, x: Select)
    requires Commits(w) && s < |w.selects| && QuietSelect(w.selects[s], x)
    ensures Commits(SetSelect(w, s, x))
  {
    hide SentOn, ReceivedOn, CommitsOf, TransfersOf, Result;
    var v := SetSelect(w, s, x);
    forall d | 0 <= d < |v.selects| ensures SelectHistory(v.log, d, v.selects[d]) {
      assert SelectHistory(w.log, d, w.selects[d]);
    }
  }

  lemma SelectStepKeepsCommits(w: World, step: Step)
    requires Commits(w) && Enabled(w, step)
    requires step.NewSelect? || step.CheckKey? || step.EndListeners? || step.AbandonSelect? || step.FinishSelect?
    ensures Commits(Next(w, step))
  {
    hide SentOn, ReceivedOn, CommitsOf, TransfersOf, Commits;
    match step {
      case NewSelect(fallback) => NewSelectKeepsCommits(w, fallback);
      case CheckKey(s) => QuietSelectKeepsCommits(w, s, Next(w, step).selects[s]);
      case EndListeners(s) => QuietSelectKeepsCommits(w, s, Next(w, step).selects[s]);
      case AbandonSelect(s) => QuietSelectKeepsCommits(w, s, Next(w, step).selects[s]);
      case FinishSelect(s) => QuietSelectKeepsCommits(w, s, Next(w, step).selects[s]);
    }
  }

  lemma NewChannelKeepsCommits(w: World, capacity: nat)
    requires Commits(w)
    ensures Commits(Next(w, NewChannel(capacity)))
  {
    hide SelectHistory, MsgHistory;
  }

  lemma StartedKeepsSelects(w: World, step: Step)
    requires SelectHistories(w) && Enabled(w, step) && step.Start?
    ensures SelectHistories(Next(w, step))
  {
    hide SentOn, ReceivedOn, CommitsOf, TransfersOf;
    var v := Next(w, step);
    forall s | 0 <= s < |v.selects| ensures SelectHistory(v.log, s, v.selects[s]) {
      assert SelectHistory(w.log, s, w.selects[s]);
    }
  }

  lemma StartedKeepsMessages(w: World, step: Step)
    requires MsgHistories(w) && Enabled(w, step) && step.Start? && TransfersOf(w.log, |w.msgs|) == []
    ensures MsgHistories(Next(w, step))
  {
    hide SentOn, ReceivedOn, CommitsOf, TransfersOf;
    var v := Next(w, step);
    forall m | 0 <= m < |v.msgs| ensures MsgHistory(v.log, m, v.msgs[m]) {
      assert m < |w.msgs| ==> MsgHistory(w.log, m, w.msgs[m]);
    }
  }

  lemma StartKeepsCommits(w: World, step: Step)
    requires Commits(w) && Enabled(w, step) && step.Start?
    ensures Commits(Next(w, step))
  {
    hide SelectHistories, MsgHistories;
    FreshHasNoHistory(w.log, |w.chans|, |w.selects|, |w.msgs|);
    StartedKeepsSelects(w, step);
    StartedKeepsMessages(w, step);
  }

  lemma WaiterStepKeepsCommits(w: World, step: Step)
    requires Commits(w) && Enabled(w, step) && (step.Wake? || step.AbandonPlain? || step.Drop?)
    ensures Commits(Next(w, step))
  {
    hide SentOn, ReceivedOn, CommitsOf, TransfersOf, SelectHistory;
    var v := Next(w, step);
    forall m | 0 <= m < |v.msgs| ensures MsgHistory(v.log, m, v.msgs[m]) {
      assert MsgHistory(w.log, m, w.msgs[m]);
    }
  }

  lemma MsgStepKeepsCommits(w: World, step: Step)
    requires Commits(w) && Enabled(w, step)
    requires step.NewChannel? || step.Start? || step.Wake? || step.AbandonPlain? || step.Drop?
    ensures Commits(Next(w, step))
  {
    hide Commits, Enabled, Next;
    match step {
      case NewChannel(capacity) => NewChannelKeepsCommits(w, capacity);
      case Start(_, _, _, _, _) => StartKeepsCommits(w, step);
      case _ => WaiterStepKeepsCommits(w, step);
    }
  }

  lemma OtherStepKeepsFifos(w: World, step: Step)
    requires Fifos(w) && LogBounded(w) && Enabled(w, step) && !step.Progress?
    ensures Fifos(Next(w, step))
  {
    hide SentOn, ReceivedOn, CommitsOf, TransfersOf;
    var v := Next(w, step);
    FreshHasNoHistory(w.log, |w.chans|, |w.selects|, |w.msgs|);
    if step.Settle? {
      Append(w.log, Defaulted(step.select, w.selects[step.select].fallback));
    }
    forall c | 0 <= c < |v.chans| ensures Fifo(v.log, c, v.chans[c].buffer) {
      assert c < |w.chans| ==> Fifo(w.log, c, w.chans[c].buffer);
    }
  }

  // ---------- the invariant of every run ----------

  ghost predicate Inv(w: World) {
    Policy(w) && Shaped(w) && ThrowsOk(w) && Commits(w) && Fifos(w)
  }

  /** What every operation can rely on. */
  lemma OperationIsOk(w: World, c: nat)
    requires Inv(w) && OpOk(w, c)
    ensures ChanOk(w, c) && Justified(w, c, Decide(w, c)) && MsgPlaced(w, w.chans[c].op.msg)
  {
    hide ChanOk, Justified, Commits, Fifos;
    assert ChanOk(w, c);
    DecideIsJustified(w, c);
  }

  lemma AdvanceKeepsFifos(w: World, c: nat)
    requires Inv(w) && OpOk(w, c)
    ensures Fifos(Advance(w, c))
  {
    hide SentOn, ReceivedOn, CommitsOf, TransfersOf;
    assert Fifo(w.log, c, w.chans[c].buffer);
    OperationIsOk(w, c);
    var e := Decide(w, c);
    var v := Apply(w, c, e);
    ApplyConfined(w, c, e);
    ApplyKeepsFifo(w, c, e);
    forall d | 0 <= d < |v.chans| ensures Fifo(v.log, d, v.chans[d].buffer) {
      assert Fifo(w.log, d, w.chans[d].buffer);
    }
  }

  lemma ControlKeepsCommits(w: World, c: nat, e: Effect)
    requires Commits(w) && CanApply(w, c, e) && !Transferring(e) && !e.Unlock?
    ensures Commits(Apply(w, c, e))
  {
    hide SentOn, ReceivedOn, CommitsOf, TransfersOf;
    CommitsAfter(w, Apply(w, c, e));
  }

  lemma AdvanceKeepsCommits(w: World, c: nat)
    requires Inv(w) && OpOk(w, c)
    ensures Commits(Advance(w, c))
  {
    hide ChanOk, Justified;
    OperationIsOk(w, c);
    var e := Decide(w, c);
    if e.Unlock? {
      UnlockKeepsCommits(w, c);
    } else if Transferring(e) {
      TransferKeepsCommits(w, c, e);
    } else {
      ControlKeepsCommits(w, c, e);
    }
  }

  lemma NextKeepsInv(w: World, step: Step)
    requires Inv(w) && Enabled(w, step)
    ensures Inv(Next(w, step))
  {
    NextKeepsShape(w, step);
    NextKeepsThrows(w, step);
    if step.Progress? {
      AdvanceKeepsFifos(w, step.chan);
      AdvanceKeepsCommits(w, step.chan);
    } else {
      OtherStepKeepsFifos(w, step);
      if step.Settle? {
        SettleKeepsCommits(w, step.select);
      } else if step.NewChannel? || step.Start? || step.Wake? || step.AbandonPlain? || step.Drop? {
        MsgStepKeepsCommits(w, step);
      } else {
        SelectStepKeepsCommits(w, step);
      }
    }
  }

  lemma {:induction false} RunsKeepInv(w: World, steps: seq<Step>)
    requires Inv(w) && Runs(w, steps)
    ensures Inv(Execute(w, steps))
    decreases |steps|
  {
    hide Inv, Enabled, Next;
    if steps != [] {
      NextKeepsInv(w, steps[0]);
      RunsKeepInv(Next(w, steps[0]), steps[1..]);
    }
  }
}
