/** What happens to waiting messages: who is served first, who is left waiting, and
    who leaves a queue. */
module ChannelWaiters {
  import opened Basics
  import opened ChannelModel
  import opened ChannelInvariant
  import opened ChannelHistory
  import opened ChannelTheorems

  // ---------- stranded waiters ----------

  /** The status with which the operation of `m` ended or is about to end. */
  function Outcome(w: World, m: nat): Option<Status>
    requires MsgPlaced(w, m)
  {
    var op := w.chans[w.msgs[m].chan].op;
    if w.msgs[m].phase.Returned? then Some(w.msgs[m].phase.status)
    else if w.msgs[m].phase == Active && op.Exiting? then Some(op.status)
    else None
  }

  /** A live message that nobody will ever serve: its operation ended without a
      transfer, its owner waits for one, and it stands in no queue. */
  ghost predicate Stranded(w: World, m: nat) {
    && MsgPlaced(w, m)
    && Outcome(w, m).Some? && Outcome(w, m).value != Threw
    && !w.msgs[m].oneshot && !w.msgs[m].done && Live(w, m)
    && !Enqueued(w, m)
  }

  /** The live waiter that the next step on `c` strands. */
  function Victim(w: World, c: nat): nat
    requires OpOk(w, c) && Strands(w, c)
  {
    var m := w.chans[c].op.msg;
    if w.msgs[m].role.Receiver? then w.chans[c].senders[0] else m
  }

  predicate StrandsWaiter(w: World, c: nat)
    requires OpOk(w, c)
  {
    && Strands(w, c)
    && var m := w.chans[c].op.msg;
       if w.msgs[m].role.Receiver? then w.msgs[w.chans[c].senders[0]].phase.Returned?
       else !w.msgs[m].oneshot
  }

  /** Only the head of the opposite queue can leave a queue in a step. */
  lemma OthersStayEnqueued(w: World, c: nat, e: Effect, x: nat)
    requires c < |w.chans| && OpOk(w, c) && Justified(w, c, e) && x != Partner(w, c)
    ensures var v := Apply(w, c, e);
      && |v.chans| == |w.chans|
      && (x in w.chans[c].senders ==> x in v.chans[c].senders)
      && (x in w.chans[c].recvers ==> x in v.chans[c].recvers)
  {
    hide Strands, Apply, Partner, QueueAfter;
    QueuesAfter(w, c, e);
    var ch := w.chans[c];
    var v := Apply(w, c, e);
    var serving := e.Refill? || e.Hand? || e.Direct? || e.Unlink?;
    if x in ch.senders {
      OthersStay(ch.senders, v.chans[c].senders, Partner(w, c), ch.op.msg, serving, x);
    }
    if x in ch.recvers {
      OthersStay(ch.recvers, v.chans[c].recvers, Partner(w, c), ch.op.msg, serving, x);
    }
  }

  lemma OthersStay(q: seq<nat>, r: seq<nat>, head: nat, own: nat, serving: bool, x: nat)
    requires QueueAfter(q, r, head, own, serving) && x in q && x != head
    ensures x in r
  {
    var i :| 0 <= i < |q| && q[i] == x;
    if r == q + [own] {
      assert r[i] == x;
    } else if r != q {
      assert r[i - 1] == x;
    }
  }

  /** No step strands a message other than the one it handles and the one it serves. */
  lemma BystandersNotStranded(w: World, c: nat, e: Effect, x: nat)
    requires c < |w.chans| && OpOk(w, c) && ChanOk(w, c) && Justified(w, c, e) && MsgPlaced(w, x)
    requires x != Partner(w, c) && x != w.chans[c].op.msg
    requires Stranded(Apply(w, c, e), x)
    ensures Stranded(w, x)
  {
    hide Apply, Justified, ChanOk;
    BystanderUnchanged(w, c, e, x);
    OthersStayEnqueued(w, c, e, x);
  }

  lemma BystanderUnchanged(w: World, c: nat, e: Effect, x: nat)
    requires c < |w.chans| && OpOk(w, c) && ChanOk(w, c) && Justified(w, c, e) && MsgPlaced(w, x)
    requires x != Partner(w, c) && x != w.chans[c].op.msg
    ensures Confined(w, Apply(w, c, e), c)
    ensures w.msgs[x].phase == Active ==> w.msgs[x].chan != c
  {
    ApplyConfined(w, c, e);
    assert StageOk(w, c);
  }

  lemma TransferringIsDone(w: World, c: nat, e: Effect)
    requires c < |w.chans| && OpOk(w, c) && ChanOk(w, c) && Justified(w, c, e) && Transferring(e)
    ensures var v := Apply(w, c, e); w.chans[c].op.msg < |v.msgs| && v.msgs[w.chans[c].op.msg].done
  {
    hide QueueOk, Resting;
    assert StageOk(w, c);
  }

  /** A step that neither transfers nor unlocks changes its channel alone. */
  lemma ControlSetsChan(w: World, c: nat, e: Effect)
    requires CanApply(w, c, e) && !Transferring(e) && !e.Unlock?
    ensures c < |Apply(w, c, e).chans| && Apply(w, c, e) == SetChan(w, c, Apply(w, c, e).chans[c])
    ensures var op := Apply(w, c, e).chans[c].op;
      op == (match e
        case Offer => Offering(w.chans[c].op.msg)
        case Unlink => w.chans[c].op
        case Park => Exiting(w.chans[c].op.msg, Inprocess)
        case Stop(status) => Exiting(w.chans[c].op.msg, status)
        case _ => op)
  {
    hide TakeBuffered, PutBuffered, RefillFromSender, HandToReceiver, DirectFromSender, DirectToReceiver, Return;
  }

  /** What a step does to its own message. */
  lemma HandledNotStranded(w: World, c: nat, e: Effect)
    requires c < |w.chans| && OpOk(w, c) && ChanOk(w, c) && MsgPlaced(w, w.chans[c].op.msg)
    requires Justified(w, c, e)
    requires Stranded(Apply(w, c, e), w.chans[c].op.msg)
    ensures Stranded(w, w.chans[c].op.msg) || (StrandsWaiter(w, c) && Victim(w, c) == w.chans[c].op.msg)
  {
    if Transferring(e) {
      hide Apply, Justified, ChanOk;
      TransferringIsDone(w, c, e);
    } else if e.Unlock? {
      UnlockedNotStranded(w, c);
    } else {
      StoppedNotStranded(w, c, e);
    }
  }

  lemma UnlockedNotStranded(w: World, c: nat)
    requires OpOk(w, c) && CanApply(w, c, Unlock) && MsgPlaced(w, w.chans[c].op.msg) && w.msgs[w.chans[c].op.msg].chan == c
    requires w.msgs[w.chans[c].op.msg].phase == Active
    requires Stranded(Apply(w, c, Unlock), w.chans[c].op.msg)
    ensures Stranded(w, w.chans[c].op.msg)
  {
  }

  lemma StoppedNotStranded(w: World, c: nat, e: Effect)
    requires c < |w.chans| && OpOk(w, c) && ChanOk(w, c) && MsgPlaced(w, w.chans[c].op.msg)
    requires Justified(w, c, e) && !Transferring(e) && !e.Unlock?
    requires Stranded(Apply(w, c, e), w.chans[c].op.msg)
    ensures StrandsWaiter(w, c) && Victim(w, c) == w.chans[c].op.msg
  {
    hide QueueOk, Resting, Apply;
    ControlSetsChan(w, c, e);
    if e.Park? {
      ParkedIsEnqueued(w, c);
    }
    assert StageOk(w, c);
  }

  lemma ParkedIsEnqueued(w: World, c: nat)
    requires CanApply(w, c, Park) && w.msgs[w.chans[c].op.msg].chan == c
    ensures Enqueued(Apply(w, c, Park), w.chans[c].op.msg)
  {
  }

  /** What a step does to the waiter at the head of the queue it serves. */
  lemma ServedNotStranded(w: World, c: nat, e: Effect, head: nat)
    requires c < |w.chans| && OpOk(w, c) && ChanOk(w, c) && MsgPlaced(w, head)
    requires Justified(w, c, e) && head == Partner(w, c) != w.chans[c].op.msg
    requires Stranded(Apply(w, c, e), head)
    ensures Stranded(w, head) || (e.Unlink? && StrandsWaiter(w, c) && Victim(w, c) == head)
  {
    hide QueueOk, Resting;
    ApplyConfined(w, c, e);
    var q := Opposite(w.chans[c], w.msgs[w.chans[c].op.msg].role);
    HeadIsLinkable(w, c, q, if w.msgs[w.chans[c].op.msg].role.Receiver? then Sender else Receiver);
  }

  ghost predicate NoneStranded(w: World) {
    forall m | 0 <= m < |w.msgs| :: !Stranded(w, m)
  }

  lemma AdvanceStrandsOnlyVictim(w: World, c: nat, x: nat)
    requires Inv(w) && OpOk(w, c) && x < |w.msgs| && Stranded(Advance(w, c), x) && !Stranded(w, x)
    ensures StrandsWaiter(w, c) && x == Victim(w, c)
  {
    hide Inv, ChanOk, Justified, Stranded, Apply;
    MsgIsPlaced(w, x);
    OperationIsOk(w, c);
    var e := Decide(w, c);
    if x == w.chans[c].op.msg {
      HandledNotStranded(w, c, e);
    } else if x == Partner(w, c) {
      ServedNotStranded(w, c, e, x);
    } else {
      BystandersNotStranded(w, c, e, x);
    }
  }

  /** The head of a queue is in it only once, */
  lemma HeadIsUnlinked(w: World, c: nat, q: seq<nat>, role: Role)
    requires QueueOk(w, c, q, role) && q != []
    ensures q[0] !in q[1..]
  {
  }

  /** and the operation's own message is not in the queues while it offers. */
  lemma OfferedIsNew(ch: Chan, m: nat)
    requires Newest(ch, m)
    ensures m !in ch.senders && m !in ch.recvers
  {
  }

  lemma ReceiverStrandsHead(w: World, c: nat)
    requires Policy(w) && c < |w.chans| && OpOk(w, c) && ChanOk(w, c) && StrandsWaiter(w, c)
    requires w.msgs[w.chans[c].op.msg].role.Receiver? && MsgPlaced(w, w.chans[c].senders[0])
    ensures Stranded(Advance(w, c), w.chans[c].senders[0])
  {
    hide QueueOk, Resting, Apply;
    var ch := w.chans[c];
    HeadIsLinkable(w, c, ch.senders, Sender);
    HeadIsUnlinked(w, c, ch.senders, Sender);
    assert StageOk(w, c);
    UnlinkSetsChan(w, c);
  }

  lemma UnlinkSetsChan(w: World, c: nat)
    requires CanApply(w, c, Unlink)
    ensures Apply(w, c, Unlink) == SetChan(w, c, UnlinkFirst(w.chans[c], w.msgs[w.chans[c].op.msg].role))
  {
  }

  lemma SenderStrandsItself(w: World, c: nat)
    requires Policy(w) && c < |w.chans| && OpOk(w, c) && ChanOk(w, c) && StrandsWaiter(w, c)
    requires w.msgs[w.chans[c].op.msg].role.Sender? && MsgPlaced(w, w.chans[c].op.msg)
    ensures Stranded(Advance(w, c), w.chans[c].op.msg)
  {
    hide QueueOk, Resting, Apply;
    var ch := w.chans[c];
    HeadIsLinkable(w, c, ch.recvers, Receiver);
    assert StageOk(w, c);
    OfferedIsNew(ch, ch.op.msg);
    StopSetsChan(w, c, InvalidSrc);
  }

  lemma StopSetsChan(w: World, c: nat, status: Status)
    requires CanApply(w, c, Stop(status))
    ensures Apply(w, c, Stop(status)) == SetChan(w, c, w.chans[c].(op := Exiting(w.chans[c].op.msg, status)))
  {
  }

  lemma AdvanceStrandsVictim(w: World, c: nat)
    requires Inv(w) && OpOk(w, c) && StrandsWaiter(w, c)
    ensures Victim(w, c) < |Advance(w, c).msgs| && Stranded(Advance(w, c), Victim(w, c))
  {
    hide ChanOk, Justified, Stranded, Commits, Fifos;
    OperationIsOk(w, c);
    if w.msgs[w.chans[c].op.msg].role.Receiver? {
      MsgIsPlaced(w, w.chans[c].senders[0]);
      ReceiverStrandsHead(w, c);
    } else {
      SenderStrandsItself(w, c);
    }
    StrandedExists(Advance(w, c), Victim(w, c));
  }

  lemma StrandedExists(w: World, m: nat)
    requires Stranded(w, m)
    ensures m < |w.msgs|
  {
  }

  lemma MsgIsPlaced(w: World, m: nat)
    requires Inv(w) && m < |w.msgs|
    ensures MsgPlaced(w, m)
  {
  }

  lemma DropStrandsNobody(w: World, m: nat, x: nat)
    requires Enabled(w, Drop(m)) && x < |w.msgs| && MsgPlaced(w, x) && Stranded(Next(w, Drop(m)), x)
    ensures Stranded(w, x)
  {
    WithoutElement(w.chans[w.msgs[x].chan].senders, m, x);
    WithoutElement(w.chans[w.msgs[x].chan].recvers, m, x);
  }

  lemma QuietStepStrandsNobody(w: World, step: Step, x: nat)
    requires Enabled(w, step) && !step.Progress? && !step.Drop? && !step.Start?
    requires x < |w.msgs| && MsgPlaced(w, x) && Stranded(Next(w, step), x)
    ensures Stranded(w, x)
  {
  }

  lemma StartStrandsNobody(w: World, step: Step, x: nat)
    requires Enabled(w, step) && step.Start? && (x < |w.msgs| ==> MsgPlaced(w, x)) && Stranded(Next(w, step), x)
    ensures x < |w.msgs| && Stranded(w, x)
  {
  }

  lemma OtherStepsStrandNobody(w: World, step: Step, x: nat)
    requires Inv(w) && Enabled(w, step) && !step.Progress?
    requires x < |Next(w, step).msgs| && Stranded(Next(w, step), x)
    ensures x < |w.msgs| && Stranded(w, x)
  {
    hide Inv, Stranded;
    if x < |w.msgs| {
      MsgIsPlaced(w, x);
    }
    if step.Start? {
      StartStrandsNobody(w, step, x);
    } else if step.Drop? {
      DropStrandsNobody(w, step.msg, x);
    } else {
      QuietStepStrandsNobody(w, step, x);
    }
  }

  /** Exactly when a step strands a live waiter: the code as written meets a plain
      sender with a receiving select that is already spent. */
  lemma StrandingStep(w: World, step: Step)
    requires Inv(w) && NoneStranded(w) && Enabled(w, step)
    ensures NoneStranded(Next(w, step)) <==> !(step.Progress? && StrandsWaiter(w, step.chan))
  {
    hide Inv, Stranded;
    var v := Next(w, step);
    if step.Progress? {
      var c := step.chan;
      AdvanceConfinedTo(w, c);
      if StrandsWaiter(w, c) {
        AdvanceStrandsVictim(w, c);
      } else {
        forall x | 0 <= x < |v.msgs| ensures !Stranded(v, x) {
          if Stranded(v, x) {
            AdvanceStrandsOnlyVictim(w, c, x);
          }
        }
      }
    } else {
      forall x | 0 <= x < |v.msgs| ensures !Stranded(v, x) {
        if Stranded(v, x) {
          OtherStepsStrandNobody(w, step, x);
        }
      }
    }
  }

  lemma AdvanceConfinedTo(w: World, c: nat)
    requires Inv(w) && OpOk(w, c)
    ensures Confined(w, Advance(w, c), c)
  {
    hide Inv, ChanOk;
    OperationIsOk(w, c);
    ApplyConfined(w, c, Decide(w, c));
  }

  /** With the status of a spent receiving select reported as the destination's, no
      live waiter is ever stranded, whatever mix of endpoints a channel sees. */
  lemma {:induction false} CorrectedStrandsNobody(w: World, steps: seq<Step>)
    requires Inv(w) && NoneStranded(w) && w.staleRecv == CORRECTED && Runs(w, steps)
    ensures NoneStranded(Execute(w, steps))
    decreases |steps|
  {
    hide Inv, Enabled, Next, Stranded;
    if steps != [] {
      StrandingStep(w, steps[0]);
      NextKeepsInv(w, steps[0]);
      PolicyIsFixed(w, steps[0]);
      CorrectedStrandsNobody(Next(w, steps[0]), steps[1..]);
    }
  }

  lemma PolicyIsFixed(w: World, step: Step)
    requires Inv(w) && Enabled(w, step)
    ensures Next(w, step).staleRecv == w.staleRecv
  {
    hide ChanOk, Commits, Fifos;
    if step.Progress? {
      assert ChanOk(w, step.chan);
      DecideIsJustified(w, step.chan);
    }
  }

  /** No channel serves both plain senders and receiving selects. */
  ghost predicate Unmixed(w: World) {
    forall a, b | 0 <= a < |w.msgs| && 0 <= b < |w.msgs| ::
      !(w.msgs[a].chan == w.msgs[b].chan
        && w.msgs[a].role.Sender? && w.msgs[a].end.Simplex?
        && w.msgs[b].role.Receiver? && w.msgs[b].end.Multiplex?)
  }

  lemma OtherStepGrows(w: World, step: Step)
    requires Enabled(w, step) && !step.Progress?
    ensures Grows(w, Next(w, step))
  {
  }

  lemma MessagesAreFixed(w: World, step: Step)
    requires Inv(w) && Enabled(w, step)
    ensures Grows(w, Next(w, step))
  {
    hide Inv, Grows;
    if step.Progress? {
      AdvanceConfinedTo(w, step.chan);
    } else {
      OtherStepGrows(w, step);
    }
  }

  lemma {:induction false} RunsGrow(w: World, steps: seq<Step>)
    requires Inv(w) && Runs(w, steps)
    ensures Grows(w, Execute(w, steps))
    decreases |steps|
  {
    hide Inv, Enabled, Next;
    if steps != [] {
      MessagesAreFixed(w, steps[0]);
      NextKeepsInv(w, steps[0]);
      RunsGrow(Next(w, steps[0]), steps[1..]);
    }
  }

  lemma UnmixedNeverStrands(w: World, v: World, c: nat)
    requires Inv(w) && OpOk(w, c) && Grows(w, v) && Unmixed(v)
    ensures !Strands(w, c)
  {
    var m := w.chans[c].op.msg;
    var q := Opposite(w.chans[c], w.msgs[m].role);
    OperationIsOk(w, c);
    hide Inv, QueueOk, Resting;
    assert StageOk(w, c);
    if q != [] {
      HeadIsLinkable(w, c, q, if w.msgs[m].role.Receiver? then Sender else Receiver);
      assert SameMessage(w.msgs[m], v.msgs[m]) && SameMessage(w.msgs[q[0]], v.msgs[q[0]]);
    }
  }

  /** The code as written strands nobody in a run whose channels serve plain/plain,
      select/select or select-sender/plain-receiver traffic only. */
  lemma {:induction false} UnmixedStrandsNobody(w: World, steps: seq<Step>)
    requires Inv(w) && NoneStranded(w) && Runs(w, steps) && Unmixed(Execute(w, steps))
    ensures NoneStranded(Execute(w, steps))
    decreases |steps|
  {
    hide Inv, Next, Stranded;
    if steps != [] {
      if steps[0].Progress? {
        RunsGrow(w, steps);
        UnmixedNeverStrands(w, Execute(w, steps), steps[0].chan);
      }
      StrandingStep(w, steps[0]);
      NextKeepsInv(w, steps[0]);
      UnmixedStrandsNobody(Next(w, steps[0]), steps[1..]);
    }
  }

  /** No step of the run hands a plain sender to a spent receiving select. */
  ghost predicate AvoidsStranding(w: World, steps: seq<Step>)
    requires Runs(w, steps)
    decreases |steps|
  {
    steps == [] ||
    (!(steps[0].Progress? && StrandsWaiter(w, steps[0].chan)) && AvoidsStranding(Next(w, steps[0]), steps[1..]))
  }

  /** No state along the run has a stranded waiter. */
  ghost predicate NeverStranded(w: World, steps: seq<Step>)
    requires Runs(w, steps)
    decreases |steps|
  {
    NoneStranded(w) && (steps == [] || NeverStranded(Next(w, steps[0]), steps[1..]))
  }

  /** For either status and every run: some state of the run has a stranded waiter
      if and only if some step hands a plain sender to a spent receiving select. */
  lemma {:induction false} StrandedExactlyByStaleReceivers(w: World, steps: seq<Step>)
    requires Inv(w) && NoneStranded(w) && Runs(w, steps)
    ensures NeverStranded(w, steps) <==> AvoidsStranding(w, steps)
    decreases |steps|
  {
    hide Inv, Enabled, Next, Stranded;
    if steps != [] {
      StrandingStep(w, steps[0]);
      NextKeepsInv(w, steps[0]);
      if NoneStranded(Next(w, steps[0])) {
        StrandedExactlyByStaleReceivers(Next(w, steps[0]), steps[1..]);
      }
    }
  }

  // ---------- the counterexample ----------

  /** A select with a default case registers a receiving case on channel 0, */
  const REGISTER: seq<Step> := [NewChannel(0), NewSelect(9), Start(0, Receiver, Multiplex(0, 1), 0, false)]
  const PARK: seq<Step> := [Progress(0), Progress(0), Progress(0)]

  /** finds it not ready and takes the default, */
  const TAKE_DEFAULT: seq<Step> := [CheckKey(0), EndListeners(0), Settle(0)]

  /** and before it has dropped its message, a plain sender comes along. */
  const SEND: seq<Step> := [Start(0, Sender, Simplex, 7, false), Progress(0)]
  const TURN_AWAY: seq<Step> := [Progress(0), Progress(0)]

  function Receiving(ch: Chan, x: Select, phase: Phase, log: seq<Event>): World {
    World([ch], [x], [Msg(0, Receiver, Multiplex(0, 1), 0, false, phase, false, 0, None)], log, AS_WRITTEN)
  }

  const STARTED: World :=
    Receiving(Chan(0, [], [], [], Entering(0)), Select(9, INVALID_SELECT_KEY, 0, Calling(0)), Active, [])

  const REGISTERED: World :=
    Receiving(Chan(0, [], [], [0], Idle), Select(9, INVALID_SELECT_KEY, 0, Checking), Returned(Inprocess), [])

  const SPENT: World :=
    Receiving(Chan(0, [], [], [0], Idle), Select(9, 9, 0, Dropping(Some(9))), Returned(Inprocess), [Defaulted(0, 9)])

  lemma ReceiverStarted()
    ensures Runs(Initial(AS_WRITTEN), REGISTER) && Execute(Initial(AS_WRITTEN), REGISTER) == STARTED
  {
  }

  const OFFERED: World :=
    Receiving(Chan(0, [], [], [], Offering(0)), Select(9, INVALID_SELECT_KEY, 0, Calling(0)), Active, [])

  const LINKED: World :=
    Receiving(Chan(0, [], [], [0], Exiting(0, Inprocess)), Select(9, INVALID_SELECT_KEY, 0, Calling(0)), Active, [])

  lemma ReceiverOffers()
    ensures Enabled(STARTED, Progress(0)) && Next(STARTED, Progress(0)) == OFFERED
  {
    assert Next(STARTED, Progress(0)).chans == OFFERED.chans;
  }

  lemma ReceiverLinks()
    ensures Enabled(OFFERED, Progress(0)) && Next(OFFERED, Progress(0)) == LINKED
  {
    var v := Next(OFFERED, Progress(0));
    assert v.chans[0].recvers == [0];
    assert v.chans == LINKED.chans;
  }

  lemma ReceiverUnlocks()
    ensures Enabled(LINKED, Progress(0)) && Next(LINKED, Progress(0)) == REGISTERED
  {
    var v := Next(LINKED, Progress(0));
    assert v.msgs == REGISTERED.msgs && v.chans == REGISTERED.chans && v.selects == REGISTERED.selects;
  }

  lemma ReceiverParked()
    ensures Runs(STARTED, PARK) && Execute(STARTED, PARK) == REGISTERED
  {
    hide Enabled, Next, Runs, Execute;
    ReceiverOffers();
    ReceiverLinks();
    ReceiverUnlocks();
    SingleRun(STARTED, Progress(0));
    SingleRun(OFFERED, Progress(0));
    SingleRun(LINKED, Progress(0));
    RunsConcat(STARTED, [Progress(0)], [Progress(0)]);
    RunsConcat(STARTED, [Progress(0)] + [Progress(0)], [Progress(0)]);
    assert PARK == [Progress(0)] + [Progress(0)] + [Progress(0)];
  }

  lemma DefaultTaken()
    ensures Runs(REGISTERED, TAKE_DEFAULT) && Execute(REGISTERED, TAKE_DEFAULT) == SPENT
  {
  }

  function Sending(op: Op, phase: Phase): World {
    SPENT.(chans := [Chan(0, [], [], [0], op)],
           msgs := SPENT.msgs + [Msg(0, Sender, Simplex, 7, false, phase, false, 0, None)])
  }

  lemma SenderOffers()
    ensures Runs(SPENT, SEND) && Execute(SPENT, SEND) == Sending(Offering(1), Active)
  {
  }

  lemma SenderTurnedAway()
    ensures var w := Sending(Offering(1), Active);
      Runs(w, TURN_AWAY) && Execute(w, TURN_AWAY) == Sending(Idle, Returned(InvalidSrc))
  {
  }

  lemma SenderIsStranded()
    ensures Stranded(Sending(Idle, Returned(InvalidSrc)), 1)
  {
  }

  /** The code as written strands a plain sender in this run. */
  lemma WrittenCodeStrands()
    ensures var steps := REGISTER + PARK + TAKE_DEFAULT + SEND + TURN_AWAY;
      Runs(Initial(AS_WRITTEN), steps) && Stranded(Execute(Initial(AS_WRITTEN), steps), 1)
  {
    hide Runs, Execute, Stranded;
    var w := Initial(AS_WRITTEN);
    ReceiverStarted();
    ReceiverParked();
    DefaultTaken();
    SenderOffers();
    SenderTurnedAway();
    SenderIsStranded();
    RunsConcat(w, REGISTER, PARK);
    RunsConcat(w, REGISTER + PARK, TAKE_DEFAULT);
    RunsConcat(w, REGISTER + PARK + TAKE_DEFAULT, SEND);
    RunsConcat(w, REGISTER + PARK + TAKE_DEFAULT + SEND, TURN_AWAY);
  }
}
