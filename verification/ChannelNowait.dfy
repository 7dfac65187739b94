/** When `nowait() << x` succeeds: exactly, for the code as written and as corrected. */
module ChannelNowait {
  import opened Basics
  import opened ChannelModel
  import opened ChannelInvariant
  import opened ChannelHistory
  import opened ChannelOrder
  import opened ChannelWaiters
  import opened ChannelMethods

  /** The operation that holds the channel is a `nowait` send. */
  predicate Sending(w: World, c: nat) {
    && OpOk(w, c) && w.msgs[w.chans[c].op.msg].role.Sender?
    && w.msgs[w.chans[c].op.msg].end.Simplex? && w.msgs[w.chans[c].op.msg].oneshot
  }

  ghost predicate LiveWaiter(w: World, q: seq<nat>) {
    exists i :: 0 <= i < |q| && MsgOk(w, q[i]) && Live(w, q[i])
  }

  /** A waiting receiver will take the value.  As written, the first one decides: if its
      select is spent the sender is turned away. */
  ghost predicate ReceiverReady(w: World, c: nat)
    requires c < |w.chans|
  {
    var q := w.chans[c].recvers;
    if w.staleRecv == InvalidDst then LiveWaiter(w, q) else q != [] && MsgOk(w, q[0]) && Live(w, q[0])
  }

  ghost predicate NowaitSucceeds(w: World, c: nat)
    requires c < |w.chans|
  {
    |w.chans[c].buffer| != w.chans[c].capacity || ReceiverReady(w, c)
  }

  /** A `nowait` send that meets the waiters is turned away although one of them is live
      exactly when the status of line 24 turns it away. */
  lemma TurnedAwayByStaleReceiver(w: World, c: nat)
    requires Inv(w) && Sending(w, c) && w.chans[c].op.Offering? && LiveWaiter(w, w.chans[c].recvers)
    ensures Decide(w, c).Stop? <==> Strands(w, c)
  {
    assert ChanOk(w, c);
    DecideIsJustified(w, c);
    assert MsgPlaced(w, w.chans[c].op.msg);
  }

  // ---------- the operation on its own ----------

  /** The steps are all of channel `c`, and the operation of `m` returns this status. */
  ghost predicate Returns(w: World, steps: seq<Step>, c: nat, m: nat, status: Status) {
    && Runs(w, steps) && (forall i | 0 <= i < |steps| :: steps[i] == Progress(c))
    && m < |Execute(w, steps).msgs| && Execute(w, steps).msgs[m].phase == Returned(status)
  }

  lemma FirstStep(w: World, c: nat, rest: seq<Step>, m: nat, status: Status)
    requires OpOk(w, c) && Returns(Advance(w, c), rest, c, m, status)
    ensures Returns(w, [Progress(c)] + rest, c, m, status)
  {
    assert ([Progress(c)] + rest)[1..] == rest;
  }

  lemma ExitReturns(w: World, c: nat)
    requires OpOk(w, c) && w.chans[c].op.Exiting?
    ensures Returns(w, [Progress(c)], c, w.chans[c].op.msg, w.chans[c].op.status)
  {
    assert [Progress(c)][1..] == [];
    var v := Advance(w, c);
    assert Runs(v, []) && Execute(v, []) == v;
  }

  /** After a step the operation of `m` is at this stage. */
  ghost predicate StepsTo(w: World, c: nat, op: Op)
    requires OpOk(w, c)
  {
    var v := Advance(w, c);
    && c < |v.chans| && v.chans[c].op == op && v.staleRecv == w.staleRecv
  }

  lemma WaitersAreMessages(w: World, c: nat)
    requires Inv(w) && c < |w.chans|
    ensures forall i | 0 <= i < |w.chans[c].recvers| :: MsgOk(w, w.chans[c].recvers[i])
  {
    assert ChanOk(w, c);
    forall i | 0 <= i < |w.chans[c].recvers| ensures MsgOk(w, w.chans[c].recvers[i]) {
      assert Linkable(w, w.chans[c].recvers[i], c, Receiver);
    }
  }

  lemma OfferingSteps(w: World, c: nat)
    requires Sending(w, c) && w.chans[c].op.Offering? && w.staleRecv in {AS_WRITTEN, CORRECTED}
    requires w.chans[c].recvers != [] ==> MsgOk(w, w.chans[c].recvers[0])
    ensures var m, q := w.chans[c].op.msg, w.chans[c].recvers;
      var v := Advance(w, c);
      if q == [] then StepsTo(w, c, Exiting(m, InvalidOneshot))
      else if MsgOk(w, q[0]) && Live(w, q[0]) then StepsTo(w, c, Exiting(m, Ok))
      else if w.staleRecv == InvalidSrc then StepsTo(w, c, Exiting(m, InvalidSrc))
      else
        && StepsTo(w, c, Offering(m)) && v.chans[c].recvers == q[1..]
        && v.msgs == w.msgs && v.selects == w.selects && |v.chans| == |w.chans|
  {
  }

  lemma TailHasLive(w: World, v: World, q: seq<nat>)
    requires q != [] && MsgOk(w, q[0]) && !Live(w, q[0])
    requires v.msgs == w.msgs && v.selects == w.selects && |v.chans| == |w.chans|
    ensures LiveWaiter(v, q[1..]) <==> LiveWaiter(w, q)
  {
    if LiveWaiter(w, q) {
      var i :| 0 <= i < |q| && MsgOk(w, q[i]) && Live(w, q[i]);
      assert q[1..][i - 1] == q[i] && MsgOk(v, q[i]) && Live(v, q[i]);
    }
    if LiveWaiter(v, q[1..]) {
      var i :| 0 <= i < |q[1..]| && MsgOk(v, q[1..][i]) && Live(v, q[1..][i]);
      assert q[i + 1] == q[1..][i] && MsgOk(w, q[i + 1]) && Live(w, q[i + 1]);
    }
  }

  lemma AdvanceStaysLocked(w: World, c: nat)
    requires OpOk(w, c) && !w.chans[c].op.Exiting?
    ensures var v := Advance(w, c);
      |v.chans| == |w.chans| && !v.chans[c].op.Idle? && v.chans[c].op.msg == w.chans[c].op.msg
  {
    ApplyKeepsPhases(w, c, Decide(w, c));
  }

  lemma AdvancedIsSending(w: World, c: nat)
    requires Inv(w) && Sending(w, c) && !w.chans[c].op.Exiting?
    ensures var v := Advance(w, c);
      Inv(v) && c < |v.chans| && Sending(v, c) && v.chans[c].op.msg == w.chans[c].op.msg
  {
    hide Inv, Advance;
    AdvanceStaysLocked(w, c);
    LockedAdvance(w, c);
    LockedIsOpOk(Advance(w, c), c);
  }

  /** Among the waiters: the send succeeds exactly if one of them takes the value. */
  lemma {:induction false} OfferingReturns(w: World, c: nat) returns (steps: seq<Step>, status: Status)
    requires Inv(w) && Sending(w, c) && w.chans[c].op.Offering? && w.staleRecv in {AS_WRITTEN, CORRECTED}
    ensures Returns(w, steps, c, w.chans[c].op.msg, status) && (status == Ok <==> ReceiverReady(w, c))
    decreases |w.chans[c].recvers|
  {
    hide Inv, Apply, Decide, Returns, Strands;
    var m, q := w.chans[c].op.msg, w.chans[c].recvers;
    OfferingSteps(w, c);
    AdvancedIsSending(w, c);
    WaitersAreMessages(w, c);
    var v := Advance(w, c);
    var rest;
    if v.chans[c].op.Exiting? {
      ExitReturns(v, c);
      rest, status := [Progress(c)], v.chans[c].op.status;
    } else {
      TailHasLive(w, v, q);
      rest, status := OfferingReturns(v, c);
    }
    FirstStep(w, c, rest, m, status);
    steps := [Progress(c)] + rest;
  }

  lemma RefillingSteps(w: World, c: nat)
    requires Sending(w, c) && w.chans[c].op.Refilling? && (w.chans[c].recvers != [] ==> MsgOk(w, w.chans[c].recvers[0]))
    ensures var m, q := w.chans[c].op.msg, w.chans[c].recvers;
      var v := Advance(w, c);
      StepsTo(w, c, Exiting(m, Ok)) || (q != [] && StepsTo(w, c, Refilling(m)) && v.chans[c].recvers == q[1..])
  {
  }

  /** Once the value is in the buffer the send succeeds. */
  lemma {:induction false} RefillingReturns(w: World, c: nat) returns (steps: seq<Step>)
    requires Inv(w) && Sending(w, c) && w.chans[c].op.Refilling?
    ensures Returns(w, steps, c, w.chans[c].op.msg, Ok)
    decreases |w.chans[c].recvers|
  {
    hide Inv, Apply, Decide, Returns;
    RefillingSteps(w, c);
    AdvancedIsSending(w, c);
    var v := Advance(w, c);
    var rest;
    if v.chans[c].op.Exiting? {
      ExitReturns(v, c);
      rest := [Progress(c)];
    } else {
      rest := RefillingReturns(v, c);
    }
    FirstStep(w, c, rest, w.chans[c].op.msg, Ok);
    steps := [Progress(c)] + rest;
  }

  lemma EnteringSteps(w: World, c: nat)
    requires Inv(w) && Sending(w, c) && w.chans[c].op.Entering?
    ensures var m := w.chans[c].op.msg;
      var v := Advance(w, c);
      if |w.chans[c].buffer| != w.chans[c].capacity then StepsTo(w, c, Refilling(m))
      else StepsTo(w, c, Offering(m)) && (ReceiverReady(v, c) <==> ReceiverReady(w, c))
  {
    var v := Advance(w, c);
    if |w.chans[c].buffer| == w.chans[c].capacity {
      assert v.msgs == w.msgs && v.selects == w.selects && |v.chans| == |w.chans|;
      assert forall m: nat :: MsgOk(v, m) <==> MsgOk(w, m);
    }
  }

  lemma StartIsSending(w: World, c: nat, data: Value)
    requires Inv(w) && c < |w.chans| && w.chans[c].op == Idle
    ensures var step := Start(c, Sender, Simplex, data, true);
      var v := Next(w, step);
      && Enabled(w, step) && Inv(v) && Sending(v, c) && v.chans[c].op == Entering(|w.msgs|)
      && v.staleRecv == w.staleRecv && (NowaitSucceeds(v, c) <==> NowaitSucceeds(w, c))
      && v.log == w.log && !v.msgs[|w.msgs|].done && v.msgs[|w.msgs|].data == data
  {
    var step := Start(c, Sender, Simplex, data, true);
    NextKeepsInv(w, step);
    LockedIsOpOk(Next(w, step), c);
    StartKeepsReady(w, c, step);
  }

  lemma StartKeepsReady(w: World, c: nat, step: Step)
    requires Inv(w) && c < |w.chans| && Enabled(w, step) && step.Start? && step.chan == c && step.end == Simplex
    ensures var v := Next(w, step); c < |v.chans| && (NowaitSucceeds(v, c) <==> NowaitSucceeds(w, c))
  {
    var v, q := Next(w, step), w.chans[c].recvers;
    WaitersAreMessages(w, c);
    hide Inv;
    assert v.chans[c].recvers == q;
    forall i | 0 <= i < |q| ensures MsgOk(v, q[i]) && (Live(v, q[i]) <==> Live(w, q[i])) {
      assert v.msgs[q[i]] == w.msgs[q[i]];
    }
  }

  // ---------- what is sent ----------

  /** What the operation on `c` has sent on it since `w`. */
  function SentSince(w: World, v: World, m: nat): seq<Value>
    requires m < |w.msgs| && m < |v.msgs|
  {
    if v.msgs[m].done && !w.msgs[m].done then [w.msgs[m].data] else []
  }

  lemma PutSends(w: World, c: nat)
    requires c < |w.chans| && OpOk(w, c) && ChanOk(w, c) && Justified(w, c, Put) && Sending(w, c)
    ensures var m, v := w.chans[c].op.msg, Apply(w, c, Put);
      m < |v.msgs| && SentOn(v.log, c) == SentOn(w.log, c) + SentSince(w, v, m) && v.msgs[m].done
  {
    hide SentOn, ReceivedOn, CommitsOf, TransfersOf;
    TransfersArePending(w, c, Put);
    ApplyLog(w, c, Put);
    Append(w.log, Apply(w, c, Put).log[|w.log|]);
  }

  lemma DirectSends(w: World, c: nat)
    requires c < |w.chans| && OpOk(w, c) && ChanOk(w, c) && Justified(w, c, Direct) && Sending(w, c)
    ensures var m, v := w.chans[c].op.msg, Apply(w, c, Direct);
      m < |v.msgs| && SentOn(v.log, c) == SentOn(w.log, c) + SentSince(w, v, m) && v.msgs[m].done
  {
    hide SentOn, ReceivedOn, CommitsOf, TransfersOf;
    TransfersArePending(w, c, Direct);
    ApplyLog(w, c, Direct);
    var m, q := w.chans[c].op.msg, w.chans[c].recvers;
    ExchangeCommitsBoth(w, m, q[0]);
    Append(w.log, Apply(w, c, Direct).log[|w.log|]);
    Append(w.log + [Apply(w, c, Direct).log[|w.log|]], Apply(w, c, Direct).log[|w.log| + 1]);
  }

  lemma HandSendsNothing(w: World, c: nat)
    requires c < |w.chans| && OpOk(w, c) && ChanOk(w, c) && Justified(w, c, Hand) && Sending(w, c)
    ensures var m, v := w.chans[c].op.msg, Apply(w, c, Hand);
      m < |v.msgs| && SentOn(v.log, c) == SentOn(w.log, c) + SentSince(w, v, m) && v.msgs[m].done == w.msgs[m].done
  {
    hide SentOn, ReceivedOn, CommitsOf, TransfersOf, QueueOk;
    assert StageOk(w, c) && w.chans[c].recvers[0] != w.chans[c].op.msg;
    ApplyLog(w, c, Hand);
    Append(w.log, Apply(w, c, Hand).log[|w.log|]);
  }

  lemma ControlSendsNothing(w: World, c: nat, e: Effect)
    requires CanApply(w, c, e) && !Transferring(e)
    ensures var m, v := w.chans[c].op.msg, Apply(w, c, e);
      m < |v.msgs| && SentOn(v.log, c) == SentOn(w.log, c) + SentSince(w, v, m) && v.msgs[m].done == w.msgs[m].done
  {
    hide SentOn;
    ControlCommitsNothing(w, c, e);
  }

  lemma AdvanceSendsOwn(w: World, c: nat)
    requires Inv(w) && Sending(w, c)
    ensures var m, v := w.chans[c].op.msg, Advance(w, c);
      m < |v.msgs| && SentOn(v.log, c) == SentOn(w.log, c) + SentSince(w, v, m) && (w.msgs[m].done ==> v.msgs[m].done)
  {
    hide Inv, Apply, ChanOk, SentOn, SentSince, Strands;
    OperationIsOk(w, c);
    var e := Decide(w, c);
    if e.Put? {
      PutSends(w, c);
    } else if e.Direct? {
      DirectSends(w, c);
    } else if e.Hand? {
      HandSendsNothing(w, c);
    } else {
      ControlSendsNothing(w, c, e);
    }
  }

  /** A sender's operation alone sends its own value, once, or nothing. */
  lemma {:induction false} SendsOwnValue(w: World, steps: seq<Step>, c: nat)
    requires Inv(w) && Sending(w, c) && Runs(w, steps) && forall i | 0 <= i < |steps| :: steps[i] == Progress(c)
    ensures var m, v := w.chans[c].op.msg, Execute(w, steps);
      m < |v.msgs| && SentOn(v.log, c) == SentOn(w.log, c) + SentSince(w, v, m)
      && (w.msgs[m].done ==> v.msgs[m].done)
    decreases |steps|
  {
    hide Inv, Advance, SentOn;
    if steps != [] {
      var m, u := w.chans[c].op.msg, Advance(w, c);
      assert steps[0] == Progress(c);
      AdvanceSendsOwn(w, c);
      if w.chans[c].op.Exiting? {
        IdleIsOver(w, c, steps[1..]);
      } else {
        AdvancedIsSending(w, c);
        LockedAdvance(w, c);
        SendsOwnValue(u, steps[1..], c);
        SentTwice(w, u, Execute(w, steps), c, m);
      }
    }
  }

  lemma SentTwice(w: World, u: World, v: World, c: nat, m: nat)
    requires m < |w.msgs| && m < |u.msgs| && m < |v.msgs| && SameMessage(w.msgs[m], u.msgs[m])
    requires (w.msgs[m].done ==> u.msgs[m].done) && (u.msgs[m].done ==> v.msgs[m].done)
    requires SentOn(u.log, c) == SentOn(w.log, c) + SentSince(w, u, m)
    requires SentOn(v.log, c) == SentOn(u.log, c) + SentSince(u, v, m)
    ensures SentOn(v.log, c) == SentOn(w.log, c) + SentSince(w, v, m)
  {
    hide SentOn;
  }

  lemma UnlockIdles(w: World, c: nat)
    requires OpOk(w, c) && w.chans[c].op.Exiting?
    ensures !Enabled(Advance(w, c), Progress(c))
  {
    hide TakeBuffered, PutBuffered, RefillFromSender, HandToReceiver, DirectFromSender, DirectToReceiver;
  }

  lemma FirstEnabled(w: World, steps: seq<Step>, step: Step)
    requires Runs(w, steps) && steps != [] && forall i | 0 <= i < |steps| :: steps[i] == step
    ensures Enabled(w, step)
  {
    assert steps[0] == step;
  }

  lemma IdleIsOver(w: World, c: nat, rest: seq<Step>)
    requires OpOk(w, c) && w.chans[c].op.Exiting? && Runs(Advance(w, c), rest)
    requires forall i | 0 <= i < |rest| :: rest[i] == Progress(c)
    ensures rest == []
  {
    hide Advance, Enabled;
    if rest != [] {
      FirstEnabled(Advance(w, c), rest, Progress(c));
      UnlockIdles(w, c);
    }
  }

  lemma ReturnedIsSent(w: World, steps: seq<Step>, c: nat, m: nat, status: Status)
    requires Inv(w) && Sending(w, c) && m == w.chans[c].op.msg && !w.msgs[m].done && Returns(w, steps, c, m, status)
    ensures SentOn(Execute(w, steps).log, c) == SentOn(w.log, c) + if status == Ok then [w.msgs[m].data] else []
  {
    hide Inv, SentOn;
    SendsOwnValue(w, steps, c);
    RunsKeepInv(w, steps);
    RunsGrow(w, steps);
    assert SameMessage(w.msgs[m], Execute(w, steps).msgs[m]);
    OneshotReport(Execute(w, steps), m, status);
  }

  lemma OneshotReport(w: World, m: nat, status: Status)
    requires Inv(w) && m < |w.msgs| && w.msgs[m].phase == Returned(status) && w.msgs[m].oneshot
    ensures w.msgs[m].done <==> status == Ok
  {
    assert MsgHistory(w.log, m, w.msgs[m]);
  }

  /** `nowait() << x` on a channel that nobody holds, run without interference: it
      reports success if and only if there is room in the buffer or a waiting receiver
      takes the value, and then the channel has been sent `x`; else nothing. */
  lemma NowaitExactly(w: World, c: nat, data: Value) returns (steps: seq<Step>, status: Status)
    requires Inv(w) && c < |w.chans| && w.chans[c].op == Idle && w.staleRecv in {AS_WRITTEN, CORRECTED}
    ensures var start := Start(c, Sender, Simplex, data, true);
      && Enabled(w, start) && Returns(Next(w, start), steps, c, |w.msgs|, status)
      && SentOn(Execute(Next(w, start), steps).log, c) == SentOn(w.log, c) + if status == Ok then [data] else []
    ensures status == Ok <==> NowaitSucceeds(w, c)
  {
    hide Inv, Apply, Decide, Returns, Next, ReceiverReady, SentOn;
    StartIsSending(w, c, data);
    var u := Next(w, Start(c, Sender, Simplex, data, true));
    EnteringSteps(u, c);
    AdvancedIsSending(u, c);
    var v := Advance(u, c);
    var rest;
    if v.chans[c].op.Refilling? {
      rest := RefillingReturns(v, c);
      status := Ok;
    } else {
      rest, status := OfferingReturns(v, c);
    }
    FirstStep(u, c, rest, |w.msgs|, status);
    steps := [Progress(c)] + rest;
    ReturnedIsSent(u, steps, c, |w.msgs|, status);
  }
}
