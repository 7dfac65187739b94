/** When a listener of a select throws: only if the select itself waits on the other
    side of the same channel. */
module ChannelThrows {
  import opened Basics
  import opened ChannelModel
  import opened ChannelInvariant

  /** Two cases of one select, a send and a receive on the same channel. */
  predicate Rivals(x: Msg, y: Msg) {
    && x.end.Multiplex? && y.end.Multiplex? && x.end.select == y.end.select
    && x.chan == y.chan && x.role != y.role
  }

  ghost predicate HasRival(w: World, m: nat)
    requires m < |w.msgs|
  {
    exists r :: 0 <= r < |w.msgs| && Rivals(w.msgs[m], w.msgs[r])
  }

  /** The operation of `m` has thrown, or is about to. */
  predicate Throws(w: World, m: nat)
    requires m < |w.msgs|
  {
    w.msgs[m].phase == Returned(Threw) || (w.msgs[m].chan < |w.chans| && w.chans[w.msgs[m].chan].op == Exiting(m, Threw))
  }

  ghost predicate ThrowsOk(w: World) {
    forall m | 0 <= m < |w.msgs| && Throws(w, m) :: HasRival(w, m)
  }

  lemma GrowthKeepsRival(w: World, v: World, m: nat)
    requires Grows(w, v) && m < |w.msgs| && HasRival(w, m)
    ensures HasRival(v, m)
  {
    var r :| 0 <= r < |w.msgs| && Rivals(w.msgs[m], w.msgs[r]);
    assert SameMessage(w.msgs[m], v.msgs[m]) && SameMessage(w.msgs[r], v.msgs[r]);
    assert Rivals(v.msgs[m], v.msgs[r]);
  }

  /** The exception is raised when the message meets a waiter of its own select. */
  lemma RaisedAtRival(w: World, c: nat)
    requires c < |w.chans| && ChanOk(w, c) && OpOk(w, c) && Policy(w) && Decide(w, c) == Stop(Threw)
    ensures HasRival(w, w.chans[c].op.msg)
  {
    hide Resting, Newest;
    var ch := w.chans[c];
    var role := w.msgs[ch.op.msg].role;
    var q := Opposite(ch, role);
    assert StageOk(w, c);
    if q != [] {
      HeadIsLinkable(w, c, q, if role.Receiver? then Sender else Receiver);
      assert Rivals(w.msgs[ch.op.msg], w.msgs[q[0]]);
    }
  }

  lemma ExitStatus(w: World, c: nat, e: Effect)
    requires CanApply(w, c, e) && !e.Unlock?
    ensures c < |Apply(w, c, e).chans|
    ensures Apply(w, c, e).chans[c].op == Exiting(w.chans[c].op.msg, Threw) ==>
      e == Stop(Threw) || w.chans[c].op == Exiting(w.chans[c].op.msg, Threw)
  {
    hide Commit, SendCommit, RecvCommit, Exchange;
  }

  lemma EffectThrows(w: World, c: nat, e: Effect, m: nat)
    requires CanApply(w, c, e) && !e.Unlock? && m < |w.msgs| && w.msgs[m].chan < |w.chans|
    requires w.chans[c].op.msg < |w.msgs| && w.msgs[w.chans[c].op.msg].chan == c
    requires Grows(w, Apply(w, c, e)) && Throws(Apply(w, c, e), m)
    ensures Throws(w, m) || (e == Stop(Threw) && m == w.chans[c].op.msg)
  {
    hide Apply;
    ApplyKeepsPhases(w, c, e);
    ExitStatus(w, c, e);
    assert SameMessage(w.msgs[m], Apply(w, c, e).msgs[m]);
  }

  lemma UnlockThrows(w: World, c: nat, m: nat)
    requires OpOk(w, c) && w.chans[c].op.Exiting? && m < |w.msgs| && Throws(Apply(w, c, Unlock), m)
    requires w.msgs[w.chans[c].op.msg].chan == c
    ensures Throws(w, m)
  {
  }

  lemma AdvanceThrows(w: World, c: nat, m: nat)
    requires Shaped(w) && Policy(w) && OpOk(w, c) && m < |w.msgs|
    ensures m < |Advance(w, c).msgs| && (Throws(Advance(w, c), m) ==> Throws(w, m) || HasRival(w, m))
    ensures Grows(w, Advance(w, c)) && |Advance(w, c).msgs| == |w.msgs|
  {
    assert ChanOk(w, c) && MsgPlaced(w, m);
    DecideIsJustified(w, c);
    var e := Decide(w, c);
    ApplyConfined(w, c, e);
    hide ChanOk, HasRival, MsgsOk, ChansOk, Throws, Apply, Decide;
    PartnerIsHere(w, c);
    if Throws(Advance(w, c), m) {
      if e.Unlock? {
        UnlockThrows(w, c, m);
      } else {
        EffectThrows(w, c, e, m);
        if e == Stop(Threw) {
          RaisedAtRival(w, c);
        }
      }
    }
  }

  lemma OtherStepThrows(w: World, step: Step, m: nat)
    requires Enabled(w, step) && !step.Progress? && m < |Next(w, step).msgs| && Throws(Next(w, step), m)
    requires forall i | 0 <= i < |w.chans| :: w.chans[i].op.Exiting? ==> w.chans[i].op.msg < |w.msgs|
    ensures m < |w.msgs| && Throws(w, m) && Grows(w, Next(w, step))
  {
  }

  lemma ExitingExists(w: World)
    requires Shaped(w)
    ensures forall i | 0 <= i < |w.chans| :: w.chans[i].op.Exiting? ==> w.chans[i].op.msg < |w.msgs|
  {
    forall i | 0 <= i < |w.chans| ensures w.chans[i].op.Exiting? ==> w.chans[i].op.msg < |w.msgs| {
      assert ChanOk(w, i) && StageOk(w, i);
    }
  }

  /** Every step keeps it: an operation that throws has a rival. */
  lemma NextKeepsThrows(w: World, step: Step)
    requires Shaped(w) && Policy(w) && ThrowsOk(w) && Enabled(w, step)
    ensures ThrowsOk(Next(w, step))
  {
    hide MsgsOk, ChansOk, Grows, HasRival, Throws;
    var v := Next(w, step);
    ExitingExists(w);
    forall m | 0 <= m < |v.msgs| && Throws(v, m) ensures HasRival(v, m) {
      if step.Progress? {
        AdvanceThrows(w, step.chan, w.chans[step.chan].op.msg);
        AdvanceThrows(w, step.chan, m);
      } else {
        OtherStepThrows(w, step, m);
      }
      GrowthKeepsRival(w, v, m);
    }
  }
}
