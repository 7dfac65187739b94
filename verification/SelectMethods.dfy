/** `Select::operator()` as it runs: the listeners, the wait, and the drop of every
    message that was registered, while channels and other selects interfere. */
module SelectMethods {
  import opened Basics
  import opened ChannelModel
  import opened ChannelInvariant
  import opened ChannelThrows
  import opened ChannelHistory
  import opened ChannelAsked
  import opened ChannelWaiters
  import opened ChannelTheorems
  import opened ChannelOrder
  import opened ChannelMethods

  /** A case bound by `Select::on`. */
  datatype Listener = Listener(chan: nat, role: Role, key: int, data: Value)

  // ---------- runs ----------

  ghost predicate Went(w: World, steps: seq<Step>, v: World) {
    Inv(w) && Inv(v) && Runs(w, steps) && Execute(w, steps) == v
  }

  lemma NoSteps(w: World)
    requires Inv(w)
    ensures Went(w, [], w)
  {
    hide Inv;
  }

  lemma WentInv(w: World, steps: seq<Step>, v: World)
    requires Went(w, steps, v)
    ensures Inv(w) && Inv(v)
  {
    hide Inv;
  }

  lemma OneStep(w: World, step: Step)
    requires Inv(w) && Enabled(w, step)
    ensures Went(w, [step], Next(w, step))
  {
    hide Inv, Enabled, Next;
    NextKeepsInv(w, step);
    SingleRun(w, step);
  }

  lemma WentOn(w: World, first: seq<Step>, u: World, second: seq<Step>, v: World)
    requires Went(w, first, u) && Went(u, second, v)
    ensures Went(w, first + second, v)
  {
    hide Inv, Runs, Execute;
    RunsConcat(w, first, second);
  }

  lemma OneMore(w: World, steps: seq<Step>, u: World, step: Step)
    requires Went(w, steps, u) && Enabled(u, step)
    ensures Went(w, steps + [step], Next(u, step))
  {
    hide Inv, Enabled, Next, Went;
    WentInv(w, steps, u);
    OneStep(u, step);
    WentOn(w, steps, u, [step], Next(u, step));
  }

  // ---------- the select and the others ----------

  /** A step that this select does not take itself. */
  predicate OfOthers(step: Step, s: nat, msgs: seq<nat>) {
    match step
    case Start(_, _, end, _, _) => end.Multiplex? ==> end.select != s
    case CheckKey(r) => r != s
    case EndListeners(r) => r != s
    case Settle(r) => r != s
    case AbandonSelect(r) => r != s
    case FinishSelect(r) => r != s
    case Drop(m) => m !in msgs
    case _ => true
  }

  /** The select's messages are these; the first `dropped` of them are gone, and the
      others are in their calls or waiting. */
  ghost predicate Owns(w: World, s: nat, msgs: seq<nat>, dropped: nat) {
    && s < |w.selects|
    && (forall m: nat :: m in msgs <==> m < |w.msgs| && CaseOf(w, m, s))
    && (forall i, j | 0 <= i < j < |msgs| :: msgs[i] < msgs[j])
    && forall i | 0 <= i < |msgs| :: msgs[i] < |w.msgs| && InPhase(w.msgs[msgs[i]], i < dropped)
  }

  predicate InPhase(x: Msg, dropped: bool) {
    if dropped then x.phase.Dropped? else x.phase == Active || x.phase.Returned?
  }

  /** Inside a call of a listener the channel operation ends the call; otherwise nobody
      else changes the phase of a select. */
  predicate Follows(before: SelectPhase, after: SelectPhase) {
    after == before || (before.Calling? && (after == Checking || after == Dropping(None)))
  }

  lemma AdvanceReturns(w: World, c: nat)
    requires Inv(w) && OpOk(w, c)
    ensures var v := Advance(w, c);
      && |v.msgs| == |w.msgs| && |v.selects| == |w.selects|
      && (forall m | 0 <= m < |w.msgs| && w.msgs[m].phase == Active ::
            v.msgs[m].phase == Active || v.msgs[m].phase.Returned?)
      && (forall s | 0 <= s < |w.selects| :: Follows(w.selects[s].phase, v.selects[s].phase))
  {
    hide Inv, Apply;
    if w.chans[c].op.Exiting? {
      ExitingIsPlaced(w, c);
      UnlockReturns(w, c);
    } else {
      ApplyKeepsPhases(w, c, Decide(w, c));
    }
  }

  lemma ExitingIsPlaced(w: World, c: nat)
    requires Inv(w) && OpOk(w, c)
    ensures MsgPlaced(w, w.chans[c].op.msg) && w.msgs[w.chans[c].op.msg].phase == Active
  {
    assert ChanOk(w, c) && Holds(w, c, w.chans[c].op.msg);
    MsgIsPlaced(w, w.chans[c].op.msg);
  }

  lemma UnlockReturns(w: World, c: nat)
    requires OpOk(w, c) && w.chans[c].op.Exiting?
    requires MsgPlaced(w, w.chans[c].op.msg) && w.msgs[w.chans[c].op.msg].phase == Active
    ensures var v := Apply(w, c, Unlock);
      && |v.msgs| == |w.msgs| && |v.selects| == |w.selects|
      && (forall m | 0 <= m < |w.msgs| && w.msgs[m].phase == Active ::
            v.msgs[m].phase == Active || v.msgs[m].phase.Returned?)
      && (forall s | 0 <= s < |w.selects| :: Follows(w.selects[s].phase, v.selects[s].phase))
  {
  }

  lemma AdvanceKeepsOwned(w: World, c: nat, s: nat, msgs: seq<nat>, dropped: nat)
    requires Inv(w) && OpOk(w, c) && Owns(w, s, msgs, dropped)
    ensures Owns(Advance(w, c), s, msgs, dropped)
    ensures Follows(w.selects[s].phase, Advance(w, c).selects[s].phase)
  {
    hide Inv;
    AdvancePhases(w, c);
    AdvanceReturns(w, c);
    var v := Advance(w, c);
    assert forall m: nat | m < |w.msgs| :: SameMessage(w.msgs[m], v.msgs[m]) && (CaseOf(v, m, s) <==> CaseOf(w, m, s));
    forall i | 0 <= i < |msgs| ensures msgs[i] < |v.msgs| && InPhase(v.msgs[msgs[i]], i < dropped) {
      assert InPhase(w.msgs[msgs[i]], i < dropped);
    }
  }

  lemma StepKeepsOwned(w: World, step: Step, s: nat, msgs: seq<nat>, dropped: nat)
    requires Inv(w) && Enabled(w, step) && OfOthers(step, s, msgs) && Owns(w, s, msgs, dropped)
    ensures Owns(Next(w, step), s, msgs, dropped)
    ensures Follows(w.selects[s].phase, Next(w, step).selects[s].phase)
  {
    hide Inv;
    if step.Progress? {
      AdvanceKeepsOwned(w, step.chan, s, msgs, dropped);
    } else {
      var v := Next(w, step);
      assert forall m: nat | m < |w.msgs| :: m < |v.msgs| && v.msgs[m].end == w.msgs[m].end;
      forall i | 0 <= i < |msgs| ensures msgs[i] < |v.msgs| && InPhase(v.msgs[msgs[i]], i < dropped) {
        assert InPhase(w.msgs[msgs[i]], i < dropped) && msgs[i] in msgs;
      }
    }
  }

  lemma {:induction false} StepsKeepOwned(w: World, steps: seq<Step>, s: nat, msgs: seq<nat>, dropped: nat)
    requires Inv(w) && Runs(w, steps) && Owns(w, s, msgs, dropped)
    requires forall i | 0 <= i < |steps| :: OfOthers(steps[i], s, msgs)
    ensures Owns(Execute(w, steps), s, msgs, dropped)
    ensures Follows(w.selects[s].phase, Execute(w, steps).selects[s].phase)
    decreases |steps|
  {
    hide Inv, Enabled, Next;
    if steps != [] {
      NextKeepsInv(w, steps[0]);
      StepKeepsOwned(w, steps[0], s, msgs, dropped);
      StepsKeepOwned(Next(w, steps[0]), steps[1..], s, msgs, dropped);
    }
  }

  /** The messages are those of a prefix of the listeners. */
  ghost predicate Registered(w: World, msgs: seq<nat>, listeners: seq<Listener>, s: nat) {
    && |msgs| <= |listeners|
    && forall i | 0 <= i < |msgs| :: msgs[i] < |w.msgs| && IsCase(w.msgs[msgs[i]], listeners[i], s)
  }

  predicate IsCase(x: Msg, listener: Listener, s: nat) {
    && x.chan == listener.chan && x.role == listener.role && x.end == Multiplex(s, listener.key)
    && x.data == listener.data && !x.oneshot
  }

  /** The default key of the select, if it exists. */
  function Defaults(w: World, s: nat): Option<int> {
    if s < |w.selects| then Some(w.selects[s].fallback) else None
  }

  lemma DefaultIsFixed(w: World, steps: seq<Step>, v: World, s: nat)
    requires Went(w, steps, v) && s < |w.selects|
    ensures Defaults(v, s) == Defaults(w, s)
  {
    hide Inv, Runs, Execute;
    RunsAdd(w, steps);
    assert FallbacksOf(v)[s] == FallbacksOf(w)[s];
  }

  /** The state between two steps of the select. */
  ghost predicate Mine(w: World, s: nat, msgs: seq<nat>, dropped: nat, listeners: seq<Listener>) {
    Owns(w, s, msgs, dropped) && Registered(w, msgs, listeners, s)
  }

  lemma OthersKeepMine(w: World, steps: seq<Step>, v: World, s: nat, msgs: seq<nat>, dropped: nat, listeners: seq<Listener>)
    requires Went(w, steps, v) && Mine(w, s, msgs, dropped, listeners)
    requires forall i | 0 <= i < |steps| :: OfOthers(steps[i], s, msgs)
    ensures Mine(v, s, msgs, dropped, listeners) && s < |v.selects|
    ensures Follows(w.selects[s].phase, v.selects[s].phase)
  {
    hide Inv, Runs, Execute, Owns;
    StepsKeepOwned(w, steps, s, msgs, dropped);
    OwnsBound(w, s, msgs, dropped);
    OwnsBound(v, s, msgs, dropped);
    RunsGrow(w, steps);
    forall i | 0 <= i < |msgs| ensures msgs[i] < |v.msgs| && IsCase(v.msgs[msgs[i]], listeners[i], s) {
      assert IsCase(w.msgs[msgs[i]], listeners[i], s) && SameMessage(w.msgs[msgs[i]], v.msgs[msgs[i]]);
    }
  }

  lemma OwnsBound(w: World, s: nat, msgs: seq<nat>, dropped: nat)
    requires Owns(w, s, msgs, dropped)
    ensures s < |w.selects| && forall i | 0 <= i < |msgs| :: msgs[i] < |w.msgs|
  {
  }

  // ---------- a listener's call ----------

  /** The call of message `m` is under way, or it has come back: then the listener throws
      if and only if the channel operation threw. */
  predicate InCall(w: World, s: nat, m: nat) {
    && s < |w.selects| && m < |w.msgs| && CaseOf(w, m, s)
    && if w.selects[s].phase.Calling? then w.selects[s].phase.msg == m && w.msgs[m].phase == Active
       else
         && w.msgs[m].phase.Returned?
         && w.selects[s].phase == (if w.msgs[m].phase == Returned(Threw) then Dropping(None) else Checking)
  }

  lemma CallStarts(w: World, s: nat, x: Listener)
    requires s < |w.selects| && x.chan < |w.chans|
    ensures InCall(Registering(w, s, x), s, |w.msgs|)
  {
  }

  lemma UnlockKeepsCall(w: World, c: nat, s: nat, m: nat)
    requires OpOk(w, c) && w.chans[c].op.Exiting? && InCall(w, s, m)
    requires MsgPlaced(w, w.chans[c].op.msg) && w.msgs[w.chans[c].op.msg].phase == Active
    ensures InCall(Apply(w, c, Unlock), s, m)
  {
    hide TakeBuffered, PutBuffered, RefillFromSender, HandToReceiver, DirectFromSender, DirectToReceiver;
  }

  lemma AdvanceKeepsCall(w: World, c: nat, s: nat, m: nat)
    requires Inv(w) && OpOk(w, c) && InCall(w, s, m)
    ensures InCall(Advance(w, c), s, m)
  {
    hide Inv, Apply;
    if w.chans[c].op.Exiting? {
      ExitingIsPlaced(w, c);
      UnlockKeepsCall(w, c, s, m);
    } else {
      AdvanceConfinedTo(w, c);
      ApplyKeepsPhases(w, c, Decide(w, c));
      assert SameMessage(w.msgs[m], Advance(w, c).msgs[m]);
    }
  }

  lemma OtherStepKeepsCall(w: World, step: Step, s: nat, msgs: seq<nat>, m: nat)
    requires Enabled(w, step) && !step.Progress? && OfOthers(step, s, msgs) && m in msgs && InCall(w, s, m)
    ensures InCall(Next(w, step), s, m)
  {
  }

  lemma StepKeepsCall(w: World, step: Step, s: nat, msgs: seq<nat>, m: nat)
    requires Inv(w) && Enabled(w, step) && OfOthers(step, s, msgs) && m in msgs && InCall(w, s, m)
    ensures InCall(Next(w, step), s, m)
  {
    hide Inv, InCall, OfOthers;
    if step.Progress? {
      AdvanceKeepsCall(w, step.chan, s, m);
    } else {
      OtherStepKeepsCall(w, step, s, msgs, m);
    }
  }

  lemma {:induction false} StepsKeepCall(w: World, steps: seq<Step>, s: nat, msgs: seq<nat>, m: nat)
    requires Inv(w) && Runs(w, steps) && InCall(w, s, m) && m in msgs
    requires forall i | 0 <= i < |steps| :: OfOthers(steps[i], s, msgs)
    ensures InCall(Execute(w, steps), s, m)
    decreases |steps|
  {
    hide Inv, Enabled, Next, InCall, OfOthers;
    if steps != [] {
      NextKeepsInv(w, steps[0]);
      StepKeepsCall(w, steps[0], s, msgs, m);
      StepsKeepCall(Next(w, steps[0]), steps[1..], s, msgs, m);
    }
  }

  lemma OthersKeepCall(w: World, steps: seq<Step>, v: World, s: nat, msgs: seq<nat>)
    requires Went(w, steps, v) && forall i | 0 <= i < |steps| :: OfOthers(steps[i], s, msgs)
    ensures forall m | m in msgs && InCall(w, s, m) :: InCall(v, s, m)
  {
    hide Inv, Runs, Execute, InCall, OfOthers;
    forall m | m in msgs && InCall(w, s, m) ensures InCall(v, s, m) {
      StepsKeepCall(w, steps, s, msgs, m);
    }
  }

  /** Two cases are a send and a receive on one channel. */
  ghost predicate Clashing(listeners: seq<Listener>) {
    exists i, j :: 0 <= i < |listeners| && 0 <= j < |listeners| && Opposite(listeners[i], listeners[j])
  }

  predicate Opposite(x: Listener, y: Listener) {
    x.chan == y.chan && x.role != y.role
  }

  /** A listener that throws has met another case of its own select. */
  lemma ThrownClashes(w: World, s: nat, msgs: seq<nat>, dropped: nat, listeners: seq<Listener>, i: nat)
    requires Inv(w) && Mine(w, s, msgs, dropped, listeners) && i < |msgs|
    requires msgs[i] < |w.msgs| && w.msgs[msgs[i]].phase == Returned(Threw)
    ensures Clashing(listeners)
  {
    assert Throws(w, msgs[i]) && HasRival(w, msgs[i]) && msgs[i] in msgs;
    hide Inv;
    var r :| 0 <= r < |w.msgs| && Rivals(w.msgs[msgs[i]], w.msgs[r]);
    assert CaseOf(w, r, s) && r in msgs;
    var j :| 0 <= j < |msgs| && msgs[j] == r;
    assert IsCase(w.msgs[msgs[i]], listeners[i], s) && IsCase(w.msgs[msgs[j]], listeners[j], s);
    assert Opposite(listeners[i], listeners[j]);
  }

  // ---------- the select's own steps ----------

  lemma StartAddsMine(w: World, s: nat, msgs: seq<nat>, listeners: seq<Listener>, v: World)
    requires |msgs| < |listeners| && Mine(w, s, msgs, 0, listeners)
    requires var x := listeners[|msgs|];
      var step := Start(x.chan, x.role, Multiplex(s, x.key), x.data, false);
      Enabled(w, step) && v == Next(w, step)
    ensures Mine(v, s, msgs + [|w.msgs|], 0, listeners) && v.selects[s].phase == Calling(|w.msgs|)
  {
    var more := msgs + [|w.msgs|];
    forall m: nat ensures m in more <==> m < |v.msgs| && CaseOf(v, m, s) {
      if m < |w.msgs| {
        assert v.msgs[m] == w.msgs[m];
      }
    }
    forall i | 0 <= i < |more|
      ensures more[i] < |v.msgs| && InPhase(v.msgs[more[i]], i < 0) && IsCase(v.msgs[more[i]], listeners[i], s)
    {
      if i < |msgs| {
        assert InPhase(w.msgs[msgs[i]], i < 0) && IsCase(w.msgs[msgs[i]], listeners[i], s);
      }
    }
  }

  /** Reading or settling the key, or finishing, moves no message. */
  lemma KeyStepKeepsMine(w: World, step: Step, s: nat, msgs: seq<nat>, dropped: nat, listeners: seq<Listener>)
    requires Enabled(w, step) && step in {CheckKey(s), EndListeners(s), Settle(s), FinishSelect(s)}
    requires Mine(w, s, msgs, dropped, listeners)
    ensures Mine(Next(w, step), s, msgs, dropped, listeners)
  {
    var v := Next(w, step);
    assert v.msgs == w.msgs && |v.selects| == |w.selects|;
    assert forall m: nat :: m < |v.msgs| && CaseOf(v, m, s) <==> m < |w.msgs| && CaseOf(w, m, s);
  }

  lemma DropKeepsMine(w: World, s: nat, msgs: seq<nat>, dropped: nat, listeners: seq<Listener>)
    requires dropped < |msgs| && Mine(w, s, msgs, dropped, listeners) && Enabled(w, Drop(msgs[dropped]))
    ensures Mine(Next(w, Drop(msgs[dropped])), s, msgs, dropped + 1, listeners)
    ensures s < |w.selects| && Next(w, Drop(msgs[dropped])).selects == w.selects
  {
    var v := Next(w, Drop(msgs[dropped]));
    assert forall m: nat | m < |w.msgs| :: v.msgs[m].end == w.msgs[m].end;
    forall i | 0 <= i < |msgs|
      ensures msgs[i] < |v.msgs| && InPhase(v.msgs[msgs[i]], i < dropped + 1) && IsCase(v.msgs[msgs[i]], listeners[i], s)
    {
      assert InPhase(w.msgs[msgs[i]], i < dropped) && IsCase(w.msgs[msgs[i]], listeners[i], s);
    }
  }

  /** Outside a call none of the messages is active, so each can be dropped. */
  lemma CanDrop(w: World, s: nat, msgs: seq<nat>, dropped: nat, listeners: seq<Listener>)
    requires Inv(w) && dropped < |msgs| && Mine(w, s, msgs, dropped, listeners) && s < |w.selects| && w.selects[s].phase.Dropping?
    ensures var m := msgs[dropped];
      && m < |w.msgs| && w.msgs[m].chan < |w.chans|
      && (w.chans[w.msgs[m].chan].op.Idle? ==> Enabled(w, Drop(m)))
  {
    var m := msgs[dropped];
    assert InPhase(w.msgs[m], false) && m in msgs;
    assert MsgPlaced(w, m);
  }

  lemma CanFinish(w: World, s: nat, msgs: seq<nat>, listeners: seq<Listener>)
    requires Mine(w, s, msgs, |msgs|, listeners) && s < |w.selects| && w.selects[s].phase.Dropping?
    ensures Enabled(w, FinishSelect(s))
  {
    forall m | 0 <= m < |w.msgs| && w.msgs[m].end.Multiplex? && w.msgs[m].end.select == s
      ensures w.msgs[m].phase.Dropped?
    {
      assert CaseOf(w, m, s) && m in msgs;
      var i :| 0 <= i < |msgs| && msgs[i] == m;
      assert InPhase(w.msgs[msgs[i]], i < |msgs|);
    }
  }

  // ---------- transfers are for good ----------

  lemma CommitKeepsDone(w: World, m: nat)
    requires MsgOk(w, m)
    ensures forall i | 0 <= i < |w.msgs| && w.msgs[i].done :: Commit(w, m).msgs[i].done
  {
  }

  lemma ApplyKeepsDone(w: World, c: nat, e: Effect, i: nat)
    requires CanApply(w, c, e) && i < |w.msgs| && w.msgs[i].done
    ensures i < |Apply(w, c, e).msgs| && Apply(w, c, e).msgs[i].done
  {
    hide Commit;
    var ch := w.chans[c];
    var m := ch.op.msg;
    match e
    case Take => CommitKeepsDone(w, m);
    case Put => CommitKeepsDone(w, m);
    case Refill => CommitKeepsDone(w, ch.senders[0]);
    case Hand => CommitKeepsDone(w, ch.recvers[0]);
    case Direct =>
      var (src, dst) := if w.msgs[m].role.Receiver? then (ch.senders[0], m) else (m, ch.recvers[0]);
      CommitKeepsDone(w, src);
      CommitKeepsDone(SendCommit(w, src), dst);
    case _ =>
  }

  lemma NextKeepsDone(w: World, step: Step, i: nat)
    requires Enabled(w, step) && i < |w.msgs| && w.msgs[i].done
    ensures i < |Next(w, step).msgs| && Next(w, step).msgs[i].done
  {
    hide Apply, Decide;
    if step.Progress? {
      DecisionApplies(w, step.chan);
      ApplyKeepsDone(w, step.chan, Decide(w, step.chan), i);
    }
  }

  lemma DecisionApplies(w: World, c: nat)
    requires OpOk(w, c)
    ensures CanApply(w, c, Decide(w, c))
  {
  }

  lemma {:induction false} RunsKeepDone(w: World, steps: seq<Step>, i: nat)
    requires Runs(w, steps) && i < |w.msgs| && w.msgs[i].done
    ensures i < |Execute(w, steps).msgs| && Execute(w, steps).msgs[i].done
    decreases |steps|
  {
    hide Enabled, Next;
    if steps != [] {
      NextKeepsDone(w, steps[0], i);
      RunsKeepDone(Next(w, steps[0]), steps[1..], i);
    }
  }

  lemma {:induction false} RunsSplit(w: World, first: seq<Step>, steps: seq<Step>)
    requires Runs(w, steps) && first <= steps
    ensures Runs(w, first) && Runs(Execute(w, first), steps[|first|..])
    ensures Execute(Execute(w, first), steps[|first|..]) == Execute(w, steps)
    decreases |first|
  {
    hide Enabled, Next;
    if first == [] {
      assert steps[0..] == steps;
    } else {
      assert steps[0] == first[0];
      RunsSplit(Next(w, steps[0]), first[1..], steps[1..]);
      assert steps[1..][|first[1..]|..] == steps[|first|..];
    }
  }

  /** Some case of the select has transferred. */
  ghost predicate SomeDone(w: World, msgs: seq<nat>) {
    exists i :: 0 <= i < |msgs| && msgs[i] < |w.msgs| && w.msgs[msgs[i]].done
  }

  /** A key that is set before the select settles is a case's, which has transferred. */
  lemma KeyMeansDone(w: World, s: nat, msgs: seq<nat>, dropped: nat)
    requires Inv(w) && Owns(w, s, msgs, dropped)
    requires s < |w.selects| && w.selects[s].key != INVALID_SELECT_KEY && !Over(w.selects[s])
    ensures SomeDone(w, msgs)
  {
    assert SelectHistory(w.log, s, w.selects[s]);
    hide CommitsOf;
    var m := Winner(w, s).value;
    WinnerIsACase(w, s);
    OnlyWinnerTransfers(w, s, m);
    assert m in msgs;
  }

  lemma StaysDone(w0: World, first: seq<Step>, w: World, steps: seq<Step>, v: World, msgs: seq<nat>)
    requires Went(w0, first, w) && Went(w0, steps, v) && first <= steps && SomeDone(w, msgs)
    ensures SomeDone(v, msgs)
  {
    hide Inv, Runs, Execute;
    RunsSplit(w0, first, steps);
    var i :| 0 <= i < |msgs| && msgs[i] < |w.msgs| && w.msgs[msgs[i]].done;
    RunsKeepDone(w, steps[|first|..], msgs[i]);
  }

  // ---------- the outcome ----------

  /** The key returned is that of the one case that transferred, or the default's, and
      then none did. */
  ghost predicate RightKey(w: World, s: nat, msgs: seq<nat>, key: int) {
    && s < |w.selects| && w.selects[s].key == key
    && (forall i | 0 <= i < |msgs| :: msgs[i] < |w.msgs|)
    && ((exists i :: 0 <= i < |msgs| && OnlyDone(w, msgs, i) && w.msgs[msgs[i]].end.Multiplex? && w.msgs[msgs[i]].end.key == key)
        || (w.selects[s].fallback == key && forall i | 0 <= i < |msgs| :: !w.msgs[msgs[i]].done))
  }

  /** Of these messages only the one at `i` has transferred. */
  ghost predicate OnlyDone(w: World, msgs: seq<nat>, i: nat)
    requires i < |msgs| && forall j | 0 <= j < |msgs| :: msgs[j] < |w.msgs|
  {
    forall j | 0 <= j < |msgs| :: w.msgs[msgs[j]].done <==> j == i
  }

  lemma KeyIsRight(w: World, s: nat, msgs: seq<nat>, dropped: nat)
    requires Inv(w) && Owns(w, s, msgs, dropped) && Result(w.selects[s]).Some?
    ensures RightKey(w, s, msgs, Result(w.selects[s]).value)
  {
    assert SelectHistory(w.log, s, w.selects[s]);
    forall j | 0 <= j < |msgs| ensures msgs[j] < |w.msgs| && (w.msgs[msgs[j]].done <==> Winner(w, s) == Some(msgs[j])) {
      assert msgs[j] in msgs;
      OnlyWinnerTransfers(w, s, msgs[j]);
    }
    if Winner(w, s).Some? {
      WinnerIsACase(w, s);
      assert Winner(w, s).value in msgs;
      var i :| 0 <= i < |msgs| && msgs[i] == Winner(w, s).value;
      assert OnlyDone(w, msgs, i);
    }
  }

  // ---------- what a select that has not finished waits for ----------

  /** A listener's channel is locked by another operation, or has the call; or the
      semaphore has not been released; or a message's channel is locked. */
  ghost predicate Held(w: World, s: nat, msgs: seq<nat>, listeners: seq<Listener>) {
    s < |w.selects| &&
    match w.selects[s].phase
    case Listening => |msgs| < |listeners| && Locked(w, listeners[|msgs|].chan)
    case Calling(m) => m in msgs
    case Settling => w.selects[s].fallback == INVALID_SELECT_KEY && w.selects[s].signal == 0
    case Dropping(_) => exists i :: 0 <= i < |msgs| && msgs[i] < |w.msgs| && Locked(w, w.msgs[msgs[i]].chan)
    case _ => false
  }

  predicate Locked(w: World, c: nat) {
    c >= |w.chans| || w.chans[c].op != Idle
  }

  // ---------- the coroutine ----------

  /** A select, `_msgs` being the messages it has registered. */
  class Selection {
    const id: nat
    const mem: Memory
    var msgs: seq<nat>

    constructor (mem: Memory, fallback: int)
      requires Inv(mem.Snapshot())
      modifies mem
      ensures this.mem == mem && msgs == [] && mem.Snapshot() == Next(old(mem.Snapshot()), NewSelect(fallback))
      ensures Mine(mem.Snapshot(), id, [], 0, []) && mem.selects[id].phase == Listening && mem.selects[id].fallback == fallback
    {
      ghost var w := mem.Snapshot();
      id := |mem.selects|;
      this.mem := mem;
      msgs := [];
      new;
      NewIsMine(w);
      mem.selects := mem.selects + [Select(fallback, INVALID_SELECT_KEY, 0, Listening)];
    }

    /** Where the call is, in a run from `w0`. */
    ghost predicate Here(w0: World, steps: seq<Step>, listeners: seq<Listener>, dropped: nat)
      reads this, mem
    {
      Went(w0, steps, mem.Snapshot()) && Mine(mem.Snapshot(), id, msgs, dropped, listeners)
    }

    function Phase(): Option<SelectPhase>
      reads this, mem
    {
      if id < |mem.selects| then Some(mem.selects[id].phase) else None
    }

    /** Anything that the rest of the system may do between two steps of this select. */
    method Interfere(ghost w0: World, ghost before: seq<Step>, ghost listeners: seq<Listener>, ghost dropped: nat)
      returns (ghost steps: seq<Step>)
      requires Here(w0, before, listeners, dropped) && Phase().Some?
      modifies mem
      ensures Here(w0, steps, listeners, dropped) && Phase().Some? && Follows(old(Phase()).value, Phase().value)
      ensures before <= steps
      ensures forall m | m in msgs && InCall(old(mem.Snapshot()), id, m) :: InCall(mem.Snapshot(), id, m)
    {
      hide Inv, Enabled, Next, Went, Mine;
      ghost var w := mem.Snapshot();
      WentInv(w0, before, w);
      NoSteps(w);
      ghost var more: seq<Step> := [];
      var n: nat := *;
      while n > 0
        invariant Went(w, more, mem.Snapshot())
        invariant forall i | 0 <= i < |more| :: OfOthers(more[i], id, msgs)
      {
        var step: Step := *;
        if OfOthers(step, id, msgs) && Enabled(mem.Snapshot(), step) {
          OneMore(w, more, mem.Snapshot(), step);
          var v := Next(mem.Snapshot(), step);
          WentInv(w, more, mem.Snapshot());
          PolicyIsFixed(mem.Snapshot(), step);
          mem.chans, mem.selects, mem.msgs, mem.log := v.chans, v.selects, v.msgs, v.log;
          more := more + [step];
        }
        n := n - 1;
      }
      OthersKeepMine(w, more, mem.Snapshot(), id, msgs, dropped, listeners);
      OthersKeepCall(w, more, mem.Snapshot(), id, msgs);
      WentOn(w0, before, w, more, mem.Snapshot());
      steps := before + more;
    }

    /** One listener: register the case's message and call the channel.  `called` is
        false if the call has not come back; when it has, the listener has thrown if and
        only if the channel operation threw. */
    method Listen(listeners: seq<Listener>, ghost w0: World, ghost before: seq<Step>)
      returns (called: bool, ghost steps: seq<Step>)
      requires Here(w0, before, listeners, 0) && Phase() == Some(Listening) && |msgs| < |listeners|
      requires listeners[|msgs|].key != INVALID_SELECT_KEY
      modifies this`msgs, mem
      ensures Here(w0, steps, listeners, 0) && Phase().Some? && before <= steps
      ensures called ==>
        && |msgs| == |old(msgs)| + 1
        && Registration(id, listeners[|old(msgs)|]) in steps[|before|..]
        && msgs[|old(msgs)|] < |mem.msgs| && mem.msgs[msgs[|old(msgs)|]].phase.Returned?
        && Phase().value == (if mem.msgs[msgs[|old(msgs)|]].phase == Returned(Threw) then Dropping(None) else Checking)
      ensures !called ==> Held(mem.Snapshot(), id, msgs, listeners)
    {
      hide Inv, Enabled, Next, Went, Mine;
      steps := Interfere(w0, before, listeners, 0);
      var x := listeners[|msgs|];
      if x.chan >= |mem.chans| || mem.chans[x.chan].op != Idle {
        return false, steps;
      }
      ghost var w := mem.Snapshot();
      ghost var step := Registration(id, x);
      ghost var v := Registering(w, id, x);
      StartEnabled(w, id, x);
      StartAddsMine(w, id, msgs, listeners, v);
      OneMore(w0, steps, w, step);
      var m := |mem.msgs|;
      msgs := msgs + [m];
      mem.msgs := mem.msgs + [Msg(x.chan, x.role, Multiplex(id, x.key), x.data, false, Active, false, 0, None)];
      mem.chans := mem.chans[x.chan := mem.chans[x.chan].(op := Entering(m))];
      mem.selects := mem.selects[id := mem.selects[id].(phase := Calling(m))];
      ghost var k := |steps|;
      steps := steps + [step];
      assert mem.Snapshot() == v;
      CallStarts(w, id, x);
      assert m in msgs && InCall(mem.Snapshot(), id, m);
      steps := Interfere(w0, steps, listeners, 0);
      assert steps[|before|..][k - |before|] == step;
      assert InCall(mem.Snapshot(), id, m);
      called := !mem.selects[id].phase.Calling?;
    }

    /** After a listener: read the key, under the select's lock. */
    method ReadKey(ghost listeners: seq<Listener>, ghost w0: World, ghost before: seq<Step>)
      returns (found: bool, ghost steps: seq<Step>)
      requires Here(w0, before, listeners, 0) && Phase() == Some(Checking)
      modifies mem
      ensures Here(w0, steps, listeners, 0) && Phase() == Some(if found then Settling else Listening) && before <= steps
      ensures found == (mem.selects[id].key != INVALID_SELECT_KEY)
    {
      hide Inv, Went, Mine;
      ghost var w := mem.Snapshot();
      found := mem.selects[id].key != INVALID_SELECT_KEY;
      mem.selects := mem.selects[id := mem.selects[id].(phase := if found then Settling else Listening)];
      KeyStepKeepsMine(w, CheckKey(id), id, msgs, 0, listeners);
      OneMore(w0, before, w, CheckKey(id));
      steps := before + [CheckKey(id)];
    }

    /** The loop over the listeners, left as soon as the key is set. */
    method ListenAll(listeners: seq<Listener>, ghost w0: World, ghost before: seq<Step>)
      returns (called: bool, ghost steps: seq<Step>)
      requires Here(w0, before, listeners, 0) && Phase() == Some(Listening) && msgs == []
      requires forall i | 0 <= i < |listeners| :: listeners[i].key != INVALID_SELECT_KEY
      modifies this`msgs, mem
      ensures Here(w0, steps, listeners, 0) && (called ==> Phase() in {Some(Settling), Some(Dropping(None))})
      ensures before <= steps
      ensures !called ==> Held(mem.Snapshot(), id, msgs, listeners)
      ensures called && Phase() == Some(Settling) && |msgs| < |listeners| ==> SomeDone(mem.Snapshot(), msgs)
      ensures called && Phase() == Some(Dropping(None)) ==> Clashing(listeners)
    {
      hide Inv, Went, Mine, Enabled, Next;
      steps := before;
      while |msgs| < |listeners|
        invariant Here(w0, steps, listeners, 0) && Phase() == Some(Listening) && |msgs| <= |listeners| && before <= steps
        decreases |listeners| - |msgs|
      {
        called, steps := Listen(listeners, w0, steps);
        if !called {
          return;
        }
        ghost var w := mem.Snapshot();
        WentInv(w0, steps, w);
        if Phase() == Some(Dropping(None)) {
          ThrownClashes(w, id, msgs, 0, listeners, |msgs| - 1);
          return;
        }
        var found;
        found, steps := ReadKey(listeners, w0, steps);
        if found {
          WentInv(w0, steps, mem.Snapshot());
          MineOwns(mem.Snapshot(), id, msgs, 0, listeners);
          KeyMeansDone(mem.Snapshot(), id, msgs, 0);
          return;
        }
      }
      ghost var w := mem.Snapshot();
      EndsListening(w, id);
      mem.selects := mem.selects[id := mem.selects[id].(phase := Settling)];
      KeyStepKeepsMine(w, EndListeners(id), id, msgs, 0, listeners);
      OneMore(w0, steps, w, EndListeners(id));
      called, steps := true, steps + [EndListeners(id)];
    }

    /** Wait for the semaphore, or take the default; `returned` is false if the
        semaphore has not been released.  `at` is the state in which it settles. */
    method Settle(ghost listeners: seq<Listener>, ghost w0: World, ghost before: seq<Step>)
      returns (returned: bool, result: int, ghost steps: seq<Step>, ghost at: World)
      requires Here(w0, before, listeners, 0) && Phase() == Some(Settling)
      modifies mem
      ensures Here(w0, steps, listeners, 0) && before <= steps
      ensures returned ==>
        && Phase() == Some(Dropping(Some(result))) && mem.selects[id].key == result
        && steps != [] && steps[|steps| - 1] == ChannelModel.Settle(id) && Went(w0, steps[..|steps| - 1], at)
        && SettledKey(at, id, result)
      ensures !returned ==> Held(mem.Snapshot(), id, msgs, listeners)
    {
      hide Inv, Went, Mine;
      steps := Interfere(w0, before, listeners, 0);
      at := mem.Snapshot();
      var x := mem.selects[id];
      result := x.key;
      if x.fallback == INVALID_SELECT_KEY {
        if x.signal == 0 {
          return false, result, steps, at;
        }
        ReleasedHasKey(w0, steps, at, id);
        mem.selects := mem.selects[id := x.(signal := x.signal - 1, phase := Dropping(Some(x.key)))];
      } else {
        if x.key == INVALID_SELECT_KEY {
          result := x.fallback;
          mem.selects := mem.selects[id := x.(key := x.fallback)];
          mem.log := mem.log + [Defaulted(id, x.fallback)];
        }
        mem.selects := mem.selects[id := mem.selects[id].(phase := Dropping(Some(result)))];
      }
      returned := true;
      KeyStepKeepsMine(at, ChannelModel.Settle(id), id, msgs, 0, listeners);
      OneMore(w0, steps, at, ChannelModel.Settle(id));
      assert mem.Snapshot() == Next(at, ChannelModel.Settle(id));
      assert (steps + [ChannelModel.Settle(id)])[..|steps|] == steps;
      steps := steps + [ChannelModel.Settle(id)];
    }

    /** `BaseMsg::drop` of one message. */
    method DropMsg(i: nat, ghost listeners: seq<Listener>, ghost w0: World, ghost before: seq<Step>)
      returns (dropped: bool, ghost steps: seq<Step>)
      requires i < |msgs| && Here(w0, before, listeners, i) && Phase().Some? && Phase().value.Dropping?
      modifies mem
      ensures Here(w0, steps, listeners, if dropped then i + 1 else i) && Phase() == old(Phase()) && before <= steps
      ensures !dropped ==> Held(mem.Snapshot(), id, msgs, listeners)
    {
      hide Inv, Went, Mine, Enabled;
      steps := Interfere(w0, before, listeners, i);
      ghost var w := mem.Snapshot();
      WentInv(w0, steps, w);
      CanDrop(w, id, msgs, i, listeners);
      var m := msgs[i];
      var c := mem.msgs[m].chan;
      if mem.chans[c].op != Idle {
        return false, steps;
      }
      var ch := mem.chans[c];
      mem.chans := mem.chans[c := ch.(senders := Without(ch.senders, m), recvers := Without(ch.recvers, m))];
      mem.msgs := mem.msgs[m := mem.msgs[m].(phase := Dropped(mem.msgs[m].phase == Leaving(true)))];
      DropKeepsMine(w, id, msgs, i, listeners);
      OneMore(w0, steps, w, Drop(m));
      dropped, steps := true, steps + [Drop(m)];
    }

    /** `Select::_drop`: afterwards the select is over. */
    method DropAll(ghost listeners: seq<Listener>, ghost w0: World, ghost before: seq<Step>)
      returns (finished: bool, ghost cases: seq<nat>, ghost steps: seq<Step>)
      requires Here(w0, before, listeners, 0) && Phase().Some? && Phase().value.Dropping?
      modifies this`msgs, mem
      ensures cases == old(msgs) && Went(w0, steps, mem.Snapshot()) && before <= steps
      ensures !finished ==> Held(mem.Snapshot(), id, cases, listeners)
      ensures finished ==> msgs == [] && Mine(mem.Snapshot(), id, cases, |cases|, listeners)
      ensures finished ==> Phase() == Some(Finished(old(Phase()).value.result)) && Retired(mem.Snapshot(), id)
    {
      hide Inv, Went, Mine, Enabled, Next, Retired;
      steps := before;
      cases := msgs;
      var i := 0;
      while i < |msgs|
        invariant i <= |msgs| && Here(w0, steps, listeners, i) && Phase() == old(Phase()) && msgs == cases && before <= steps
      {
        var dropped;
        dropped, steps := DropMsg(i, listeners, w0, steps);
        if !dropped {
          return false, cases, steps;
        }
        i := i + 1;
      }
      ghost var w := mem.Snapshot();
      WentInv(w0, steps, w);
      CanFinish(w, id, msgs, listeners);
      FinishRetires(w, id);
      FinishIs(w, id);
      KeyStepKeepsMine(w, FinishSelect(id), id, msgs, |msgs|, listeners);
      OneMore(w0, steps, w, FinishSelect(id));
      mem.selects := mem.selects[id := mem.selects[id].(phase := Finished(mem.selects[id].phase.result))];
      msgs := [];
      finished, steps := true, steps + [FinishSelect(id)];
    }

    /** `Select::operator()`.  `finished` is false if a call, the wait or a drop has not
        come back.  A select that finishes, with a key or with an exception (no result),
        is retired; `cases` are the messages of the listeners that ran.  It has no result
        only if two of its cases clash, and runs all listeners unless a case is served. */
    method Call(listeners: seq<Listener>)
      returns (finished: bool, result: Option<int>, ghost cases: seq<nat>, ghost steps: seq<Step>)
      requires Inv(mem.Snapshot()) && Phase() == Some(Listening) && msgs == []
      requires Owns(mem.Snapshot(), id, [], 0)
      requires forall i | 0 <= i < |listeners| :: listeners[i].key != INVALID_SELECT_KEY
      modifies this`msgs, mem
      ensures Went(old(mem.Snapshot()), steps, mem.Snapshot())
      ensures finished ==> Retired(mem.Snapshot(), id) && Phase() == Some(Finished(result)) && msgs == []
      ensures finished ==> Registered(mem.Snapshot(), cases, listeners, id)
      ensures Defaults(mem.Snapshot(), id) == Defaults(old(mem.Snapshot()), id)
      ensures finished && result.Some? ==> RightKey(mem.Snapshot(), id, cases, result.value)
      ensures finished && result.Some? && |cases| < |listeners| ==> SomeDone(mem.Snapshot(), cases)
      ensures finished && result.None? ==> Clashing(listeners)
      ensures !finished ==> Held(mem.Snapshot(), id, cases, listeners)
    {
      hide Inv, Went, Mine, Enabled, Next, Retired, RightKey;
      ghost var w0 := mem.Snapshot();
      NoSteps(w0);
      NothingRegistered(w0, id, listeners);
      var called;
      result, cases := None, [];
      called, steps := ListenAll(listeners, w0, []);
      DefaultIsFixed(w0, steps, mem.Snapshot(), id);
      if !called {
        return false, None, msgs, steps;
      }
      ghost var first, w1 := steps, mem.Snapshot();
      if Phase() == Some(Settling) {
        var returned, key;
        ghost var at;
        returned, key, steps, at := Settle(listeners, w0, steps);
        DefaultIsFixed(w0, steps, mem.Snapshot(), id);
        if !returned {
          return false, None, msgs, steps;
        }
        result := Some(key);
      }
      finished, cases, steps := DropAll(listeners, w0, steps);
      DefaultIsFixed(w0, steps, mem.Snapshot(), id);
      if finished {
        ResultIsRight(w0, steps, mem.Snapshot(), id, cases, listeners);
        if result.Some? && |cases| < |listeners| {
          StaysDone(w0, first, w1, steps, mem.Snapshot(), cases);
        }
      }
    }
  }

  /** The key with which a select settles: that of the case that has committed; without
      one the default's, and never before a case if there is no default. */
  predicate SettledKey(w: World, s: nat, key: int) {
    && s < |w.selects| && key != INVALID_SELECT_KEY
    && key == (if w.selects[s].key != INVALID_SELECT_KEY then w.selects[s].key else w.selects[s].fallback)
    && (w.selects[s].fallback == INVALID_SELECT_KEY ==> w.selects[s].signal > 0)
  }

  lemma ReleasedHasKey(w0: World, steps: seq<Step>, w: World, s: nat)
    requires Went(w0, steps, w) && s < |w.selects| && w.selects[s].signal > 0
    ensures w.selects[s].key != INVALID_SELECT_KEY
  {
    assert SelectHistory(w.log, s, w.selects[s]);
  }

  lemma EndsListening(w: World, s: nat)
    requires s < |w.selects| && w.selects[s].phase == Listening
    ensures Enabled(w, EndListeners(s)) && Next(w, EndListeners(s)) == w.(selects := w.selects[s := w.selects[s].(phase := Settling)])
  {
  }

  lemma FinishIs(w: World, s: nat)
    requires s < |w.selects| && w.selects[s].phase.Dropping? && Enabled(w, FinishSelect(s))
    ensures Next(w, FinishSelect(s)) == w.(selects := w.selects[s := w.selects[s].(phase := Finished(w.selects[s].phase.result))])
  {
  }

  lemma NothingRegistered(w: World, s: nat, listeners: seq<Listener>)
    requires Owns(w, s, [], 0)
    ensures Mine(w, s, [], 0, listeners)
  {
  }

  lemma ResultIsRight(w0: World, steps: seq<Step>, w: World, s: nat, cases: seq<nat>, listeners: seq<Listener>)
    requires Went(w0, steps, w) && Mine(w, s, cases, |cases|, listeners) && s < |w.selects| && w.selects[s].phase.Finished?
    ensures Registered(w, cases, listeners, s)
    ensures w.selects[s].phase.result.Some? ==> RightKey(w, s, cases, w.selects[s].phase.result.value)
  {
    hide Inv;
    if w.selects[s].phase.result.Some? {
      KeyIsRight(w, s, cases, |cases|);
    }
  }

  /** The step by which a listener calls its channel. */
  function Registration(s: nat, x: Listener): Step {
    Start(x.chan, x.role, Multiplex(s, x.key), x.data, false)
  }

  lemma MineOwns(w: World, s: nat, msgs: seq<nat>, dropped: nat, listeners: seq<Listener>)
    requires Mine(w, s, msgs, dropped, listeners)
    ensures Owns(w, s, msgs, dropped)
  {
  }

  /** The message of a listener enters its channel. */
  function Registering(w: World, s: nat, x: Listener): World
    requires s < |w.selects| && x.chan < |w.chans|
  {
    var m := |w.msgs|;
    w.(msgs := w.msgs + [Msg(x.chan, x.role, Multiplex(s, x.key), x.data, false, Active, false, 0, None)],
       chans := w.chans[x.chan := w.chans[x.chan].(op := Entering(m))],
       selects := w.selects[s := w.selects[s].(phase := Calling(m))])
  }

  lemma StartEnabled(w: World, s: nat, x: Listener)
    requires s < |w.selects| && w.selects[s].phase == Listening && x.chan < |w.chans| && w.chans[x.chan].op == Idle
    requires x.key != INVALID_SELECT_KEY
    ensures var step := Start(x.chan, x.role, Multiplex(s, x.key), x.data, false);
      Enabled(w, step) && Next(w, step) == Registering(w, s, x)
  {
  }

  lemma NewIsMine(w: World)
    requires Inv(w)
    ensures forall fallback :: Mine(Next(w, NewSelect(fallback)), |w.selects|, [], 0, [])
  {
    forall fallback ensures Mine(Next(w, NewSelect(fallback)), |w.selects|, [], 0, []) {
      var v := Next(w, NewSelect(fallback));
      forall m: nat | m < |v.msgs| ensures !CaseOf(v, m, |w.selects|) {
        assert MsgPlaced(w, m);
      }
    }
  }
}
