/** The guarantees of channels and selects, over every run. */
module ChannelTheorems {
  import opened Basics
  import opened ChannelModel
  import opened ChannelInvariant
  import opened ChannelThrows
  import opened ChannelHistory
  import opened ChannelAsked

  lemma InitialIsInv(policy: Status)
    requires policy in {AS_WRITTEN, CORRECTED}
    ensures Inv(Initial(policy))
  {
  }

  // ---------- the log ----------

  lemma {:induction false} LoggedCommits(log: seq<Event>, s: nat)
    ensures forall e :: e in CommitsOf(log, s) <==> e in log && OfSelect(e, s)
  {
    if log != [] {
      LoggedCommits(log[..|log| - 1], s);
      assert log == log[..|log| - 1] + [log[|log| - 1]];
    }
  }

  lemma {:induction false} LoggedTransfers(log: seq<Event>, m: nat)
    ensures forall e :: e in TransfersOf(log, m) <==> e in log && OfMsg(e, m)
  {
    if log != [] {
      LoggedTransfers(log[..|log| - 1], m);
      assert log == log[..|log| - 1] + [log[|log| - 1]];
    }
  }

  // ---------- what was asked for ----------

  lemma InitialHasNothing(policy: Status)
    ensures CapacitiesOf(Initial(policy)) == [] && FallbacksOf(Initial(policy)) == [] && CallsOf(Initial(policy)) == []
  {
  }

  /** In every interleaving there are exactly the channels, selects and messages that the
      calls asked for, in the order of the calls and with their parameters. */
  lemma EverythingAsAsked(policy: Status, steps: seq<Step>)
    requires policy in {AS_WRITTEN, CORRECTED} && Runs(Initial(policy), steps)
    ensures var w := Execute(Initial(policy), steps);
      CapacitiesOf(w) == Capacities(steps) && FallbacksOf(w) == Fallbacks(steps) && CallsOf(w) == Starts(steps)
  {
    hide Inv, Runs, Execute, CapacitiesOf, FallbacksOf, CallsOf, Capacities, Fallbacks, Starts;
    InitialIsInv(policy);
    RunsAdd(Initial(policy), steps);
    InitialHasNothing(policy);
  }

  lemma EventIsTransfer(w: World, e: Event)
    requires Inv(w) && e in w.log && !e.Defaulted?
    ensures e.msg < |w.msgs| && (w.msgs[e.msg].role.Receiver? ==> w.msgs[e.msg].inbox.Some?)
    ensures e == Transfer(w.msgs[e.msg], e.msg)
  {
    LoggedTransfers(w.log, e.msg);
    assert e.msg < |w.msgs| && MsgHistory(w.log, e.msg, w.msgs[e.msg]);
  }

  /** Whatever a run logs as sent or received was called for: by a send of that very value
      on that channel, or by a receive on it. */
  lemma TransferredAsCalled(policy: Status, steps: seq<Step>, e: Event)
    requires policy in {AS_WRITTEN, CORRECTED} && Runs(Initial(policy), steps)
    requires e in Execute(Initial(policy), steps).log && !e.Defaulted?
    ensures e.msg < |Starts(steps)| && Starts(steps)[e.msg].chan == e.chan && Starts(steps)[e.msg].end == e.end
    ensures Starts(steps)[e.msg].role == if e.Sent? then Sender else Receiver
    ensures e.Sent? ==> e.value == Starts(steps)[e.msg].data
  {
    var w := Execute(Initial(policy), steps);
    InitialIsInv(policy);
    RunsKeepInv(Initial(policy), steps);
    EverythingAsAsked(policy, steps);
    hide Inv, Runs, Execute, Starts, CapacitiesOf, FallbacksOf;
    EventIsTransfer(w, e);
    assert Starts(steps)[e.msg] == CallOf(w.msgs[e.msg]);
  }

  /** A send and a receive of one select on one channel. */
  predicate Opposed(x: Step, y: Step)
    requires x.Start? && y.Start?
  {
    && x.end.Multiplex? && y.end.Multiplex? && x.end.select == y.end.select
    && x.chan == y.chan && x.role != y.role
  }

  /** A call of a channel operation throws only if it is a select's, and the select has
      also called the opposite operation of that channel. */
  lemma ThrowsOnlyAtRival(policy: Status, steps: seq<Step>, m: nat)
    requires policy in {AS_WRITTEN, CORRECTED} && Runs(Initial(policy), steps)
    requires var w := Execute(Initial(policy), steps); m < |w.msgs| && w.msgs[m].phase == Returned(Threw)
    ensures m < |Starts(steps)| && Starts(steps)[m].end.Multiplex?
    ensures exists r :: 0 <= r < |Starts(steps)| && Opposed(Starts(steps)[m], Starts(steps)[r])
  {
    var w := Execute(Initial(policy), steps);
    InitialIsInv(policy);
    RunsKeepInv(Initial(policy), steps);
    EverythingAsAsked(policy, steps);
    assert Throws(w, m) && HasRival(w, m);
    hide Inv, Runs, Execute, Starts, CapacitiesOf, FallbacksOf;
    var r :| 0 <= r < |w.msgs| && Rivals(w.msgs[m], w.msgs[r]);
    assert Starts(steps)[m] == CallOf(w.msgs[m]) && Starts(steps)[r] == CallOf(w.msgs[r]);
    assert Opposed(Starts(steps)[m], Starts(steps)[r]);
  }

  // ---------- bounded FIFO ----------

  /** In every interleaving, a channel delivers exactly the values sent, in the order of
      the send commits, and holds at most as many as the capacity it was made with. */
  lemma ChannelIsBoundedFifo(policy: Status, steps: seq<Step>, c: nat)
    requires policy in {AS_WRITTEN, CORRECTED} && Runs(Initial(policy), steps) && c < |Capacities(steps)|
    ensures c < |Execute(Initial(policy), steps).chans|
    ensures var w := Execute(Initial(policy), steps);
      && ReceivedOn(w.log, c) + w.chans[c].buffer == SentOn(w.log, c)
      && |w.chans[c].buffer| <= Capacities(steps)[c]
      && |SentOn(w.log, c)| - |ReceivedOn(w.log, c)| <= Capacities(steps)[c]
      && forall k | 0 <= k < |ReceivedOn(w.log, c)| :: ReceivedOn(w.log, c)[k] == SentOn(w.log, c)[k]
  {
    InitialIsInv(policy);
    RunsKeepInv(Initial(policy), steps);
    EverythingAsAsked(policy, steps);
    var w := Execute(Initial(policy), steps);
    assert CapacitiesOf(w)[c] == w.chans[c].capacity;
    assert ChanOk(w, c) && Fifo(w.log, c, w.chans[c].buffer);
    assert forall k | 0 <= k < |ReceivedOn(w.log, c)| ::
      (ReceivedOn(w.log, c) + w.chans[c].buffer)[k] == ReceivedOn(w.log, c)[k];
  }

  ghost predicate Enqueued(w: World, m: nat)
    requires m < |w.msgs| && w.msgs[m].chan < |w.chans|
  {
    var ch := w.chans[w.msgs[m].chan];
    m in (if w.msgs[m].role.Sender? then ch.senders else ch.recvers)
  }

  /** While no operation holds the channel: one queue is empty, a live waiting
      receiver means an empty buffer, a live waiting sender means a full one. */
  lemma QueuesExcludeEachOther(policy: Status, steps: seq<Step>, c: nat)
    requires policy in {AS_WRITTEN, CORRECTED} && Runs(Initial(policy), steps)
    requires var w := Execute(Initial(policy), steps); c < |w.chans| && w.chans[c].op.Idle?
    ensures var w := Execute(Initial(policy), steps);
      var ch := w.chans[c];
      && (ch.senders == [] || ch.recvers == [])
      && (forall m: nat | m in ch.recvers :: MsgOk(w, m) && (Live(w, m) ==> ch.buffer == []))
      && (forall m: nat | m in ch.senders :: MsgOk(w, m) && (Live(w, m) ==> |ch.buffer| == ch.capacity))
  {
    InitialIsInv(policy);
    RunsKeepInv(Initial(policy), steps);
    var w := Execute(Initial(policy), steps);
    assert ChanOk(w, c);
  }

  // ---------- selects ----------

  /** Once written, the key of a select never changes again. */
  lemma NextKeepsKey(w: World, step: Step, s: nat)
    requires Inv(w) && Enabled(w, step) && s < |w.selects| && w.selects[s].key != INVALID_SELECT_KEY
    ensures var v := Next(w, step); s < |v.selects| && v.selects[s].key == w.selects[s].key
  {
    if step.Progress? {
      var c := step.chan;
      OperationIsOk(w, c);
      ApplyKeepsKey(w, c, Decide(w, c), s);
    }
  }

  lemma CommitKeepsKey(w: World, m: nat, s: nat)
    requires MsgOk(w, m) && Live(w, m) && s < |w.selects| && w.selects[s].key != INVALID_SELECT_KEY
    ensures Commit(w, m).selects[s] == w.selects[s]
  {
  }

  lemma ApplyKeepsKey(w: World, c: nat, e: Effect, s: nat)
    requires c < |w.chans| && OpOk(w, c) && ChanOk(w, c) && Justified(w, c, e)
    requires s < |w.selects| && w.selects[s].key != INVALID_SELECT_KEY
    ensures var v := Apply(w, c, e); |v.selects| == |w.selects| && v.selects[s].key == w.selects[s].key
  {
    hide Commit, ChanOk;
    TransfersArePending(w, c, e);
    var ch := w.chans[c];
    var m := ch.op.msg;
    match e
    case Take => CommitKeepsKey(w, m, s);
    case Put => CommitKeepsKey(w, m, s);
    case Refill => CommitKeepsKey(w, ch.senders[0], s);
    case Hand => CommitKeepsKey(w, ch.recvers[0], s);
    case Direct =>
      var (src, dst) := if w.msgs[m].role.Receiver? then (ch.senders[0], m) else (m, ch.recvers[0]);
      CommitKeepsKey(w, src, s);
      LiveAfterSend(w, src, dst);
      CommitKeepsKey(SendCommit(w, src), dst, s);
    case _ =>
  }

  /** The sender's commit does not spend the receiver of the same exchange. */
  lemma LiveAfterSend(w: World, src: nat, dst: nat)
    requires MsgOk(w, src) && MsgOk(w, dst) && Live(w, dst)
    requires w.msgs[src].end.Multiplex? && w.msgs[dst].end.Multiplex? ==> w.msgs[src].end.select != w.msgs[dst].end.select
    ensures Live(SendCommit(w, src), dst)
  {
  }

  lemma {:induction false} KeyIsWrittenOnce(w: World, steps: seq<Step>, s: nat)
    requires Inv(w) && Runs(w, steps) && s < |w.selects| && w.selects[s].key != INVALID_SELECT_KEY
    ensures var v := Execute(w, steps); s < |v.selects| && v.selects[s].key == w.selects[s].key
    decreases |steps|
  {
    hide Inv, Enabled, Next;
    if steps != [] {
      NextKeepsInv(w, steps[0]);
      NextKeepsKey(w, steps[0], s);
      KeyIsWrittenOnce(Next(w, steps[0]), steps[1..], s);
    }
  }

  predicate CaseOf(w: World, m: nat, s: nat)
    requires m < |w.msgs|
  {
    w.msgs[m].end.Multiplex? && w.msgs[m].end.select == s
  }

  /** The one message by which a select committed, if it committed by a case. */
  function Winner(w: World, s: nat): Option<nat> {
    var commits := CommitsOf(w.log, s);
    if commits == [] || commits[0].Defaulted? then None else Some(commits[0].msg)
  }

  /** A case of `s` has transferred exactly if it is the winner. */
  lemma OnlyWinnerTransfers(w: World, s: nat, m: nat)
    requires Inv(w) && s < |w.selects| && m < |w.msgs| && CaseOf(w, m, s)
    ensures w.msgs[m].done <==> Winner(w, s) == Some(m)
  {
    var commits := CommitsOf(w.log, s);
    assert SelectHistory(w.log, s, w.selects[s]) && MsgHistory(w.log, m, w.msgs[m]);
    LoggedCommits(w.log, s);
    LoggedTransfers(w.log, m);
    if w.msgs[m].done {
      var e := Transfer(w.msgs[m], m);
      assert e in TransfersOf(w.log, m) && OfSelect(e, s);
      assert e in commits && commits[0] == e;
    } else if commits != [] {
      assert commits[0] in commits && commits[0] !in TransfersOf(w.log, m);
    }
  }

  lemma WinnerIsACase(w: World, s: nat)
    requires Inv(w) && s < |w.selects| && Winner(w, s).Some?
    ensures var m := Winner(w, s).value;
      m < |w.msgs| && CaseOf(w, m, s) && w.msgs[m].end.key == w.selects[s].key
  {
    var commits := CommitsOf(w.log, s);
    assert SelectHistory(w.log, s, w.selects[s]);
    LoggedCommits(w.log, s);
    var e := commits[0];
    assert e in w.log;
    var m := e.msg;
    LoggedTransfers(w.log, m);
    assert MsgHistory(w.log, m, w.msgs[m]);
  }

  /** A select commits at most once over all its channels.  Its key is unset exactly
      while it has not committed; if a case committed, that case alone transferred,
      and the targets of its other receiving cases are untouched. */
  lemma SelectCommitsOnce(policy: Status, steps: seq<Step>, s: nat)
    requires policy in {AS_WRITTEN, CORRECTED} && Runs(Initial(policy), steps)
    requires s < |Execute(Initial(policy), steps).selects|
    ensures var w := Execute(Initial(policy), steps);
      var x := w.selects[s];
      && |CommitsOf(w.log, s)| == (if x.key == INVALID_SELECT_KEY then 0 else 1)
      && (Winner(w, s).Some? ==>
            && Winner(w, s).value < |w.msgs| && CaseOf(w, Winner(w, s).value, s)
            && w.msgs[Winner(w, s).value].end.key == x.key)
      && (forall m | 0 <= m < |w.msgs| && CaseOf(w, m, s) ::
            && (w.msgs[m].done <==> Winner(w, s) == Some(m))
            && (w.msgs[m].inbox.Some? ==> Winner(w, s) == Some(m)))
      && (Result(x).Some? ==> Result(x).value == x.key && |CommitsOf(w.log, s)| == 1)
  {
    InitialIsInv(policy);
    RunsKeepInv(Initial(policy), steps);
    var w := Execute(Initial(policy), steps);
    assert SelectHistory(w.log, s, w.selects[s]);
    if Winner(w, s).Some? {
      WinnerIsACase(w, s);
    }
    forall m | 0 <= m < |w.msgs| && CaseOf(w, m, s)
      ensures w.msgs[m].done <==> Winner(w, s) == Some(m)
      ensures w.msgs[m].inbox.Some? ==> Winner(w, s) == Some(m)
    {
      assert MsgHistory(w.log, m, w.msgs[m]);
      OnlyWinnerTransfers(w, s, m);
    }
  }

  /** A select without a default case never returns before a case transferred, and
      one commit never releases its semaphore twice. */
  lemma SelectReturnsAfterCommit(policy: Status, steps: seq<Step>, s: nat)
    requires policy in {AS_WRITTEN, CORRECTED} && Runs(Initial(policy), steps)
    requires s < |Execute(Initial(policy), steps).selects|
    ensures var w := Execute(Initial(policy), steps);
      var x := w.selects[s];
      && x.signal <= 1
      && (x.fallback == INVALID_SELECT_KEY && Result(x).Some? ==> Winner(w, s).Some? && x.signal == 0)
      && (Result(x).Some? && Winner(w, s).None? ==> Result(x).value == x.fallback)
  {
    InitialIsInv(policy);
    RunsKeepInv(Initial(policy), steps);
    var w := Execute(Initial(policy), steps);
    assert SelectHistory(w.log, s, w.selects[s]);
  }

  // ---------- plain operations ----------

  /** A plain `<<` or `>>` completes only after its own transfer, which is logged
      once; `nowait` reports success exactly if the value was taken. */
  lemma PlainCompletesAfterTransfer(policy: Status, steps: seq<Step>, m: nat)
    requires policy in {AS_WRITTEN, CORRECTED} && Runs(Initial(policy), steps)
    requires m < |Execute(Initial(policy), steps).msgs|
    ensures var w := Execute(Initial(policy), steps);
      var x := w.msgs[m];
      && |TransfersOf(w.log, m)| == (if x.done then 1 else 0)
      && (x.phase in {Leaving(true), Dropped(true)} && x.end.Simplex? && !x.oneshot ==> x.done)
      && (x.oneshot && x.phase.Returned? ==> (x.phase.status == Ok <==> x.done))
      && (x.done && x.role.Receiver? ==> x.inbox.Some? && TransfersOf(w.log, m) == [Received(x.chan, m, x.end, x.inbox.value)])
      && (x.done && x.role.Sender? ==> TransfersOf(w.log, m) == [Sent(x.chan, m, x.end, x.data)])
  {
    InitialIsInv(policy);
    RunsKeepInv(Initial(policy), steps);
    var w := Execute(Initial(policy), steps);
    assert MsgHistory(w.log, m, w.msgs[m]);
  }
}
