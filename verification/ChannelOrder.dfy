/** Order of service, atomicity of direct exchanges, and the end of a message's life. */
module ChannelOrder {
  import opened Basics
  import opened ChannelModel
  import opened ChannelInvariant
  import opened ChannelHistory
  import opened ChannelTheorems

  // ---------- no overtaking ----------

  /** Where the message of a transfer would wait. */
  function QueueOf(w: World, e: Event): seq<nat>
    requires !e.Defaulted? && e.chan < |w.chans|
  {
    if e.Sent? then w.chans[e.chan].senders else w.chans[e.chan].recvers
  }

  /** The transfer `e` passes over no live message that took the lock earlier. */
  ghost predicate InTurn(w: World, e: Event) {
    !e.Defaulted? ==>
      && e.chan < |w.chans|
      && forall i | 0 <= i < |QueueOf(w, e)| ::
           var y := QueueOf(w, e)[i]; MsgOk(w, y) && (Live(w, y) && y != e.msg ==> e.msg < y)
  }

  lemma TransferInTurn(w: World, c: nat, e: Effect, t: Event)
    requires c < |w.chans| && OpOk(w, c) && ChanOk(w, c) && Justified(w, c, e) && Transferring(e)
    requires !t.Defaulted? && t.chan == c && t.msg < |w.msgs| && (t.Sent? <==> w.msgs[t.msg].role.Sender?)
    requires t.msg == w.chans[c].op.msg || (!e.Take? && !e.Put? && t.msg == Partner(w, c))
    ensures InTurn(w, t)
  {
    var ch := w.chans[c];
    assert StageOk(w, c);
    assert forall i | 0 <= i < |ch.senders| :: Linkable(w, ch.senders[i], c, Sender);
    assert forall i | 0 <= i < |ch.recvers| :: Linkable(w, ch.recvers[i], c, Receiver);
  }

  /** A message never commits while a live message of its role that took the
      channel's lock earlier is still queued, on the buffered and the direct path. */
  lemma NoOvertaking(w: World, step: Step)
    requires Inv(w) && Enabled(w, step)
    ensures var v := Next(w, step);
      w.log <= v.log && forall i | |w.log| <= i < |v.log| :: InTurn(w, v.log[i])
  {
    if step.Progress? {
      AdvanceInTurn(w, step.chan);
    }
  }

  lemma AdvanceInTurn(w: World, c: nat)
    requires Inv(w) && OpOk(w, c)
    ensures var v := Advance(w, c);
      w.log <= v.log && forall i | |w.log| <= i < |v.log| :: InTurn(w, v.log[i])
  {
    hide Inv, InTurn, ChanOk, Justified;
    OperationIsOk(w, c);
    ApplyInTurn(w, c, Decide(w, c));
  }

  lemma ApplyInTurn(w: World, c: nat, e: Effect)
    requires c < |w.chans| && OpOk(w, c) && ChanOk(w, c) && Justified(w, c, e)
    ensures var log := Apply(w, c, e).log;
      w.log <= log && forall i | |w.log| <= i < |log| :: InTurn(w, log[i])
  {
    hide Apply, InTurn, ChanOk;
    ApplyLog(w, c, e);
    if Transferring(e) {
      TransfersArePending(w, c, e);
      var log := Apply(w, c, e).log;
      TransferInTurn(w, c, e, log[|w.log|]);
      if e.Direct? {
        TransferInTurn(w, c, e, log[|w.log| + 1]);
      }
    }
  }

  // ---------- direct exchanges ----------

  /** Nothing that a commit writes has changed. */
  ghost predicate NothingCommitted(w: World, v: World) {
    && v.log == w.log
    && |v.selects| == |w.selects|
    && (forall s | 0 <= s < |w.selects| :: v.selects[s].key == w.selects[s].key && v.selects[s].signal == w.selects[s].signal)
    && |v.msgs| == |w.msgs|
    && forall m | 0 <= m < |w.msgs| ::
         v.msgs[m].done == w.msgs[m].done && v.msgs[m].inbox == w.msgs[m].inbox && v.msgs[m].signal == w.msgs[m].signal
  }

  /** Message `m` commits between `w` and `v`, and its select had not before. */
  ghost predicate CommitsNow(w: World, v: World, m: nat) {
    && MsgOk(w, m) && MsgOk(v, m)
    && !w.msgs[m].done && v.msgs[m].done
    && (w.msgs[m].end.Multiplex? ==>
          && w.selects[w.msgs[m].end.select].key == INVALID_SELECT_KEY
          && w.msgs[m].end.select < |v.selects|
          && v.selects[w.msgs[m].end.select].key == w.msgs[m].end.key)
  }

  lemma ExchangeCommitsBoth(w: World, src: nat, dst: nat)
    requires Pending(w, src) && Pending(w, dst) && w.msgs[src].role.Sender? && w.msgs[dst].role.Receiver?
    requires w.msgs[src].end.Multiplex? && w.msgs[dst].end.Multiplex? ==> w.msgs[src].end.select != w.msgs[dst].end.select
    ensures var v := Exchange(w, src, dst);
      CommitsNow(w, v, src) && CommitsNow(w, v, dst) && v.msgs[dst].inbox == Some(w.msgs[src].data)
  {
  }

  lemma DirectCommitsBoth(w: World, c: nat) returns (src: nat, dst: nat)
    requires c < |w.chans| && OpOk(w, c) && ChanOk(w, c) && Justified(w, c, Direct)
    ensures var v := Apply(w, c, Direct);
      && CommitsNow(w, v, src) && CommitsNow(w, v, dst) && src != dst && Partner(w, c) in {src, dst}
      && w.msgs[src].role.Sender? && w.msgs[dst].role.Receiver?
      && v.msgs[dst].inbox == Some(w.msgs[src].data)
      && v.log == w.log + [Sent(c, src, w.msgs[src].end, w.msgs[src].data)]
                        + [Received(c, dst, w.msgs[dst].end, w.msgs[src].data)]
  {
    var ch := w.chans[c];
    var m := ch.op.msg;
    TransfersArePending(w, c, Direct);
    ApplyLog(w, c, Direct);
    src := if w.msgs[m].role.Receiver? then ch.senders[0] else m;
    dst := if w.msgs[m].role.Receiver? then m else ch.recvers[0];
    hide ChanOk, Justified;
    ExchangeCommitsBoth(w, src, dst);
  }

  lemma ControlCommitsNothing(w: World, c: nat, e: Effect)
    requires CanApply(w, c, e) && !Transferring(e)
    ensures NothingCommitted(w, Apply(w, c, e))
  {
  }

  /** A message that meets a waiter without the buffer: either both of them commit
      and one value moves from the sender to the receiver, or neither changes. */
  lemma ExchangeIsAtomic(w: World, c: nat)
    requires Inv(w) && OpOk(w, c) && w.chans[c].op.Offering?
    ensures var v := Advance(w, c);
      || NothingCommitted(w, v)
      || (exists src: nat, dst: nat ::
            && CommitsNow(w, v, src) && CommitsNow(w, v, dst) && src != dst
            && w.msgs[src].role.Sender? && w.msgs[dst].role.Receiver?
            && v.msgs[dst].inbox == Some(w.msgs[src].data)
            && v.log == w.log + [Sent(c, src, w.msgs[src].end, w.msgs[src].data)]
                              + [Received(c, dst, w.msgs[dst].end, w.msgs[src].data)])
  {
    hide Inv, CommitsNow, NothingCommitted, ChanOk, Justified;
    OperationIsOk(w, c);
    var e := Decide(w, c);
    if e.Direct? {
      var src, dst := DirectCommitsBoth(w, c);
    } else {
      ControlCommitsNothing(w, c, e);
    }
  }

  // ---------- what leaves a queue ----------

  lemma UnlinkedByEffect(w: World, c: nat, e: Effect, x: nat)
    requires c < |w.chans| && OpOk(w, c) && Justified(w, c, e)
    requires x in w.chans[c].senders || x in w.chans[c].recvers
    requires var v := Apply(w, c, e); c < |v.chans| && x !in v.chans[c].senders && x !in v.chans[c].recvers
    ensures x == Partner(w, c) && (e.Refill? || e.Hand? || e.Direct? || e.Unlink?)
  {
    hide Justified, Apply, Partner;
    QueuesAfter(w, c, e);
  }

  lemma CommitIsNow(w: World, m: nat, value: Value)
    requires Pending(w, m)
    ensures CommitsNow(w, SendCommit(w, m), m) && CommitsNow(w, RecvCommit(w, m, value), m)
  {
  }

  lemma SetChanKeepsNow(w: World, v: World, c: nat, ch: Chan, m: nat)
    requires CommitsNow(w, v, m) && c < |v.chans|
    ensures CommitsNow(w, SetChan(v, c, ch), m)
  {
  }

  lemma BufferedWaiterCommits(w: World, c: nat, e: Effect)
    requires c < |w.chans| && OpOk(w, c) && ChanOk(w, c) && Justified(w, c, e) && (e.Refill? || e.Hand?)
    ensures CommitsNow(w, Apply(w, c, e), Partner(w, c))
  {
    hide ChanOk, CommitsNow, SendCommit, RecvCommit, Pending, Strands;
    TransfersArePending(w, c, e);
    var ch := w.chans[c];
    var v := Apply(w, c, e);
    if e.Refill? {
      CommitIsNow(w, ch.senders[0], 0);
      SetChanKeepsNow(w, SendCommit(w, ch.senders[0]), c, v.chans[c], ch.senders[0]);
    } else {
      CommitIsNow(w, ch.recvers[0], ch.buffer[0]);
      SetChanKeepsNow(w, RecvCommit(w, ch.recvers[0], ch.buffer[0]), c, v.chans[c], ch.recvers[0]);
    }
  }

  lemma ServedWaiterCommits(w: World, c: nat, e: Effect)
    requires c < |w.chans| && OpOk(w, c) && ChanOk(w, c) && Justified(w, c, e) && (e.Refill? || e.Hand? || e.Direct?)
    ensures CommitsNow(w, Apply(w, c, e), Partner(w, c))
  {
    hide ChanOk, CommitsNow, Partner;
    if e.Direct? {
      var src, dst := DirectCommitsBoth(w, c);
    } else {
      BufferedWaiterCommits(w, c, e);
    }
  }

  /** The loops of a channel operation unlink a waiter only if it just committed, or
      is stale, or in the one case in which the code strands a live plain sender. */
  lemma UnlinkedWaiters(w: World, c: nat, x: nat)
    requires Inv(w) && OpOk(w, c)
    requires x in w.chans[c].senders || x in w.chans[c].recvers
    requires var v := Advance(w, c); c < |v.chans| && x !in v.chans[c].senders && x !in v.chans[c].recvers
    ensures
      || CommitsNow(w, Advance(w, c), x)
      || Stale(w, x)
      || (Strands(w, c) && w.msgs[w.chans[c].op.msg].role.Receiver?
          && x == w.chans[c].senders[0] && x < |w.msgs| && w.msgs[x].end.Simplex?)
  {
    OperationIsOk(w, c);
    hide Inv, ChanOk;
    var e := Decide(w, c);
    UnlinkedByEffect(w, c, e, x);
    if !e.Unlink? {
      ServedWaiterCommits(w, c, e);
    }
  }

  // ---------- no dangling queue entries ----------

  /** The message will never be in a queue again. */
  predicate Gone(w: World, m: nat) {
    m < |w.msgs| && w.msgs[m].phase.Dropped?
  }

  lemma GoneIsInNoQueue(w: World, m: nat, c: nat)
    requires Inv(w) && Gone(w, m) && c < |w.chans|
    ensures m !in w.chans[c].senders && m !in w.chans[c].recvers
  {
    assert ChanOk(w, c);
  }

  /** A step of the operation on `c` changes no phase but those of its own message
      and of the select that is inside that call. */
  lemma AdvancePhases(w: World, c: nat)
    requires Inv(w) && OpOk(w, c)
    ensures var v := Advance(w, c);
      && Grows(w, v) && |v.msgs| == |w.msgs| && |v.selects| == |w.selects|
      && (forall m | 0 <= m < |w.msgs| :: v.msgs[m].phase == w.msgs[m].phase || w.msgs[m].phase == Active)
      && (forall s | 0 <= s < |w.selects| :: v.selects[s].phase == w.selects[s].phase || w.selects[s].phase.Calling?)
  {
    hide Inv, QueueOk, Resting;
    OperationIsOk(w, c);
    var e := Decide(w, c);
    ApplyConfined(w, c, e);
    if !e.Unlock? {
      ApplyKeepsPhases(w, c, e);
    }
  }

  lemma NextKeepsGone(w: World, step: Step, m: nat)
    requires Inv(w) && Enabled(w, step) && Gone(w, m)
    ensures Gone(Next(w, step), m)
  {
    if step.Progress? {
      AdvancePhases(w, step.chan);
    }
  }

  /** A select that has finished has no message left, and registers no other. */
  ghost predicate Retired(w: World, s: nat) {
    && s < |w.selects| && w.selects[s].phase.Finished?
    && forall m | 0 <= m < |w.msgs| && CaseOf(w, m, s) :: Gone(w, m)
  }

  lemma FinishRetires(w: World, s: nat)
    requires Inv(w) && Enabled(w, FinishSelect(s))
    ensures Retired(Next(w, FinishSelect(s)), s)
  {
  }

  lemma NextKeepsRetired(w: World, step: Step, s: nat)
    requires Inv(w) && Enabled(w, step) && Retired(w, s)
    ensures Retired(Next(w, step), s)
  {
    hide Inv;
    var v := Next(w, step);
    if step.Progress? {
      AdvanceKeepsRetired(w, step.chan, s);
    } else {
      forall m | 0 <= m < |v.msgs| && CaseOf(v, m, s) ensures Gone(v, m) {
        assert m < |w.msgs| && CaseOf(w, m, s);
        NextKeepsGone(w, step, m);
      }
    }
  }

  lemma AdvanceKeepsRetired(w: World, c: nat, s: nat)
    requires Inv(w) && OpOk(w, c) && Retired(w, s)
    ensures Retired(Advance(w, c), s)
  {
    var v := Advance(w, c);
    AdvancePhases(w, c);
    forall m | 0 <= m < |v.msgs| && CaseOf(v, m, s) ensures Gone(v, m) {
      assert SameMessage(w.msgs[m], v.msgs[m]) && CaseOf(w, m, s);
    }
  }

  /** Once a select's coroutine is over, whichever of its cases were registered, no
      channel queue holds any of its messages, now or after any further steps. */
  lemma {:induction false} NoDanglingCases(w: World, steps: seq<Step>, s: nat)
    requires Inv(w) && Retired(w, s) && Runs(w, steps)
    ensures var v := Execute(w, steps);
      && Retired(v, s)
      && forall c, m | 0 <= c < |v.chans| && 0 <= m < |v.msgs| && CaseOf(v, m, s) ::
           m !in v.chans[c].senders && m !in v.chans[c].recvers
    decreases |steps|
  {
    if steps == [] {
      forall c, m | 0 <= c < |w.chans| && 0 <= m < |w.msgs| && CaseOf(w, m, s)
        ensures m !in w.chans[c].senders && m !in w.chans[c].recvers
      {
        GoneIsInNoQueue(w, m, c);
      }
    } else {
      NextKeepsRetired(w, steps[0], s);
      NextKeepsInv(w, steps[0]);
      NoDanglingCases(Next(w, steps[0]), steps[1..], s);
    }
  }

  /** The same for a plain operation, once its guard has dropped its message. */
  lemma {:induction false} NoDanglingPlain(w: World, steps: seq<Step>, m: nat)
    requires Inv(w) && Gone(w, m) && Runs(w, steps)
    ensures var v := Execute(w, steps);
      Gone(v, m) && forall c | 0 <= c < |v.chans| :: m !in v.chans[c].senders && m !in v.chans[c].recvers
    decreases |steps|
  {
    if steps == [] {
      forall c | 0 <= c < |w.chans| ensures m !in w.chans[c].senders && m !in w.chans[c].recvers {
        GoneIsInNoQueue(w, m, c);
      }
    } else {
      NextKeepsGone(w, steps[0], m);
      NextKeepsInv(w, steps[0]);
      NoDanglingPlain(Next(w, steps[0]), steps[1..], m);
    }
  }

  // ---------- no case after the key ----------

  /** The select calls no more listeners. */
  predicate Listened(w: World, s: nat) {
    s < |w.selects| && (w.selects[s].phase == Settling || w.selects[s].phase.Dropping? || w.selects[s].phase.Finished?)
  }

  lemma NextKeepsListened(w: World, step: Step, s: nat)
    requires Inv(w) && Enabled(w, step) && Listened(w, s)
    ensures Listened(Next(w, step), s) && !(step.Start? && step.end.Multiplex? && step.end.select == s)
  {
    hide Inv;
    if step.Progress? {
      AdvancePhases(w, step.chan);
    }
  }

  lemma {:induction false} ListenedForGood(w: World, steps: seq<Step>, s: nat)
    requires Inv(w) && Runs(w, steps) && Listened(w, s)
    ensures forall i | 0 <= i < |steps| :: !(steps[i].Start? && steps[i].end.Multiplex? && steps[i].end.select == s)
    decreases |steps|
  {
    hide Inv, Enabled, Next, Listened;
    if steps != [] {
      NextKeepsInv(w, steps[0]);
      NextKeepsListened(w, steps[0], s);
      ListenedForGood(Next(w, steps[0]), steps[1..], s);
      assert forall i | 0 < i < |steps| :: steps[i] == steps[1..][i - 1];
    }
  }

  /** A select that has read its key and found it set, or that has no listener left,
      registers no more cases in any later step. */
  lemma NoCaseAfterKey(w: World, steps: seq<Step>, s: nat)
    requires Inv(w) && Runs(w, steps) && steps != []
    requires (steps[0] == CheckKey(s) && w.selects[s].key != INVALID_SELECT_KEY) || steps[0] == EndListeners(s)
    ensures forall i | 0 <= i < |steps| :: !(steps[i].Start? && steps[i].end.Multiplex? && steps[i].end.select == s)
  {
    NextKeepsInv(w, steps[0]);
    ListenedForGood(Next(w, steps[0]), steps[1..], s);
    assert forall i | 0 < i < |steps| :: steps[i] == steps[1..][i - 1];
  }
}
