/** What every reachable state of the channels satisfies, and the proof that each
    step keeps it. */
module ChannelInvariant {
  import opened Basics
  import opened ChannelModel

  // ---------- the queues ----------

  predicate Linkable(w: World, m: nat, c: nat, role: Role) {
    && MsgOk(w, m)
    && w.msgs[m].chan == c && w.msgs[m].role == role
    && !w.msgs[m].oneshot && !w.msgs[m].done
    && (w.msgs[m].phase in {Active, Returned(Inprocess)} || w.msgs[m].phase.Leaving?)
  }

  ghost predicate QueueOk(w: World, c: nat, q: seq<nat>, role: Role) {
    && (forall i | 0 <= i < |q| :: Linkable(w, q[i], c, role))
    && (forall i, j | 0 <= i < j < |q| :: q[i] < q[j])
  }

  predicate Stale(w: World, m: nat) {
    MsgOk(w, m) && !Live(w, m)
  }

  ghost predicate AllStale(w: World, q: seq<nat>) {
    forall i | 0 <= i < |q| :: Stale(w, q[i])
  }

  /** Nobody waits on a channel that could serve them. */
  ghost predicate Resting(w: World, ch: Chan) {
    && (ch.buffer == [] || AllStale(w, ch.recvers))
    && (|ch.buffer| == ch.capacity || AllStale(w, ch.senders))
  }

  ghost predicate Holds(w: World, c: nat, m: nat) {
    MsgOk(w, m) && w.msgs[m].chan == c && w.msgs[m].phase == Active
  }

  /** Every waiter of the channel took the lock before `m` did. */
  ghost predicate Newest(ch: Chan, m: nat) {
    && (forall i | 0 <= i < |ch.senders| :: ch.senders[i] < m)
    && (forall i | 0 <= i < |ch.recvers| :: ch.recvers[i] < m)
  }

  /** What is known at each stage of the operation that holds the channel. */
  ghost predicate StageOk(w: World, c: nat)
    requires c < |w.chans|
  {
    var ch := w.chans[c];
    match ch.op
    case Idle => Resting(w, ch)
    case Entering(m) => Holds(w, c, m) && Newest(ch, m) && !w.msgs[m].done && Resting(w, ch)
    case Offering(m) =>
      && Holds(w, c, m) && Newest(ch, m) && !w.msgs[m].done && Resting(w, ch)
      && (Stale(w, m) || if w.msgs[m].role.Receiver? then ch.buffer == [] else |ch.buffer| == ch.capacity)
    case Refilling(m) =>
      && Holds(w, c, m) && Newest(ch, m) && w.msgs[m].done
      && (if w.msgs[m].role.Receiver? then
            AllStale(w, ch.recvers) && |ch.buffer| < ch.capacity
            && (|ch.buffer| + 1 == ch.capacity || AllStale(w, ch.senders))
          else
            AllStale(w, ch.senders) && ch.buffer != []
            && (|ch.buffer| == 1 || AllStale(w, ch.recvers)))
    case Exiting(m, status) =>
      && Holds(w, c, m) && Resting(w, ch)
      && (w.msgs[m].done <==> status == Ok)
      && (if status == Inprocess then !w.msgs[m].oneshot else Newest(ch, m))
  }

  ghost predicate ChanOk(w: World, c: nat)
    requires c < |w.chans|
  {
    var ch := w.chans[c];
    && |ch.buffer| <= ch.capacity
    && (ch.senders == [] || ch.recvers == [])
    && QueueOk(w, c, ch.senders, Sender)
    && QueueOk(w, c, ch.recvers, Receiver)
    && StageOk(w, c)
  }

  ghost predicate ChansOk(w: World) {
    forall c | 0 <= c < |w.chans| :: ChanOk(w, c)
  }

  /** Every message is well formed, and an active one is being handled by the
      operation that holds its channel (and its select is inside that call). */
  predicate MsgPlaced(w: World, m: nat) {
    && MsgOk(w, m)
    && (w.msgs[m].phase == Active ==>
          && w.chans[w.msgs[m].chan].op != Idle && w.chans[w.msgs[m].chan].op.msg == m
          && (w.msgs[m].end.Multiplex? ==> w.selects[w.msgs[m].end.select].phase == Calling(m)))
  }

  ghost predicate MsgsOk(w: World) {
    forall m | 0 <= m < |w.msgs| :: MsgPlaced(w, m)
  }

  ghost predicate Shaped(w: World) {
    MsgsOk(w) && ChansOk(w)
  }

  // ---------- channels that a step does not touch ----------

  /** Messages and selects only move forward: fixed fields stay, spent selects stay
      spent.  This is what an operation may rely on while it holds no select lock. */
  ghost predicate Grows(w: World, v: World) {
    && |w.chans| <= |v.chans| && |w.selects| <= |v.selects| && |w.msgs| <= |v.msgs|
    && (forall m | 0 <= m < |w.msgs| :: SameMessage(w.msgs[m], v.msgs[m]))
    && (forall s | 0 <= s < |w.selects| ::
          w.selects[s].key != INVALID_SELECT_KEY ==> v.selects[s].key != INVALID_SELECT_KEY)
  }

  /** Channel `d` and its messages are untouched, except that some of its waiters began
      to leave. */
  ghost predicate Untouched(w: World, v: World, d: nat) {
    && d < |w.chans| && d < |v.chans| && v.chans[d] == w.chans[d]
    && |w.msgs| <= |v.msgs|
    && forall m | 0 <= m < |w.msgs| && w.msgs[m].chan == d ::
         && v.msgs[m].done == w.msgs[m].done
         && (v.msgs[m].phase == w.msgs[m].phase || (w.msgs[m].phase.Returned? && v.msgs[m].phase.Leaving?))
  }

  lemma GrowthKeepsMsgs(w: World, v: World)
    requires Grows(w, v)
    ensures forall m: nat | MsgOk(w, m) :: MsgOk(v, m) && (Live(v, m) ==> Live(w, m))
    ensures forall m: nat | Stale(w, m) :: Stale(v, m)
  {
    forall m: nat | MsgOk(w, m) ensures MsgOk(v, m) && (Live(v, m) ==> Live(w, m)) {
      assert SameMessage(w.msgs[m], v.msgs[m]);
    }
  }

  lemma UntouchedKeepsChan(w: World, v: World, d: nat)
    requires Grows(w, v) && Untouched(w, v, d) && ChanOk(w, d)
    ensures ChanOk(v, d)
  {
    var ch := w.chans[d];
    GrowthKeepsMsgs(w, v);
    assert forall i | 0 <= i < |ch.senders| :: Linkable(w, ch.senders[i], d, Sender);
    assert forall i | 0 <= i < |ch.recvers| :: Linkable(w, ch.recvers[i], d, Receiver);
    assert AllStale(w, ch.senders) ==> AllStale(v, ch.senders);
    assert AllStale(w, ch.recvers) ==> AllStale(v, ch.recvers);
    assert Resting(w, ch) ==> Resting(v, ch);
    if !ch.op.Idle? {
      assert Holds(w, d, ch.op.msg) && Holds(v, d, ch.op.msg);
    }
  }

  /** Messages other than `a` and `b` are untouched. */
  ghost predicate OnlyMsgs(w: World, v: World, a: nat, b: nat) {
    && |v.msgs| == |w.msgs|
    && forall m | 0 <= m < |w.msgs| && m != a && m != b :: v.msgs[m] == w.msgs[m]
  }

  ghost predicate OnlyChan(w: World, v: World, c: nat) {
    && |v.chans| == |w.chans|
    && forall d | 0 <= d < |w.chans| && d != c :: v.chans[d] == w.chans[d]
  }

  lemma SendCommitGrows(w: World, m: nat)
    requires MsgOk(w, m)
    ensures var v := SendCommit(w, m); Grows(w, v) && OnlyMsgs(w, v, m, m)
  {
  }

  lemma RecvCommitGrows(w: World, m: nat, value: Value)
    requires MsgOk(w, m)
    ensures var v := RecvCommit(w, m, value); Grows(w, v) && OnlyMsgs(w, v, m, m)
  {
  }

  /** The waiter at the head of the queue that the operation on `c` serves, or the
      operation's own message. */
  function Partner(w: World, c: nat): nat
    requires OpOk(w, c)
  {
    var m := w.chans[c].op.msg;
    var q := Opposite(w.chans[c], w.msgs[m].role);
    if q == [] then m else q[0]
  }

  lemma ExchangeGrows(w: World, src: nat, dst: nat)
    requires MsgOk(w, src) && MsgOk(w, dst)
    ensures Grows(w, Exchange(w, src, dst)) && OnlyMsgs(w, Exchange(w, src, dst), src, dst)
  {
    SendCommitGrows(w, src);
    RecvCommitGrows(SendCommit(w, src), dst, w.msgs[src].data);
  }

  /** A step of the operation on `c` writes its own message, at most one waiter of
      the same channel, and no other channel. */
  ghost predicate Confined(w: World, v: World, c: nat)
    requires OpOk(w, c)
  {
    Grows(w, v) && OnlyChan(w, v, c) && OnlyMsgs(w, v, w.chans[c].op.msg, Partner(w, c))
  }

  lemma ApplyConfined(w: World, c: nat, e: Effect)
    requires CanApply(w, c, e)
    requires e.Refill? ==> w.msgs[w.chans[c].op.msg].role.Receiver?
    requires e.Hand? ==> w.msgs[w.chans[c].op.msg].role.Sender?
    ensures Confined(w, Apply(w, c, e), c)
  {
    hide Commit, SendCommit, RecvCommit, Exchange;
    var ch := w.chans[c];
    var m := ch.op.msg;
    match e
    case Take => RecvCommitGrows(w, m, ch.buffer[0]);
    case Put => SendCommitGrows(w, m);
    case Refill => SendCommitGrows(w, ch.senders[0]);
    case Hand => RecvCommitGrows(w, ch.recvers[0], ch.buffer[0]);
    case Direct =>
      if w.msgs[m].role.Receiver? {
        ExchangeGrows(w, ch.senders[0], m);
      } else {
        ExchangeGrows(w, m, ch.recvers[0]);
      }
    case Offer =>
    case Unlink =>
    case Park =>
    case Stop(_) =>
    case Unlock =>
  }

  // ---------- what justifies each branch ----------

  predicate Served(w: World, ch: Chan, m: nat)
    requires m < |w.msgs|
  {
    if w.msgs[m].role.Receiver? then ch.buffer == [] else |ch.buffer| == ch.capacity
  }

  /** The one way a live waiter is unlinked without a transfer: a receiving select
      that is already spent meets a plain sender, and reports the sender invalid. */
  predicate Strands(w: World, c: nat)
    requires OpOk(w, c)
  {
    var m := w.chans[c].op.msg;
    && w.chans[c].op.Offering? && w.staleRecv == InvalidSrc
    && Opposite(w.chans[c], w.msgs[m].role) != []
    && (var head := Opposite(w.chans[c], w.msgs[m].role)[0];
        if w.msgs[m].role.Receiver? then w.msgs[head].end.Simplex? && Stale(w, m)
        else w.msgs[m].end.Simplex? && Stale(w, head))
  }

  predicate Justified(w: World, c: nat, e: Effect)
    requires OpOk(w, c)
  {
    var ch := w.chans[c];
    var m := ch.op.msg;
    var role := w.msgs[m].role;
    var q := Opposite(ch, role);
    CanApply(w, c, e) &&
    match e
    case Offer => ch.op.Entering? && (Stale(w, m) || Served(w, ch, m))
    case Take => ch.op.Entering? && role.Receiver? && Live(w, m)
    case Put => ch.op.Entering? && role.Sender? && Live(w, m) && |ch.buffer| < ch.capacity
    case Refill => ch.op.Refilling? && role.Receiver? && Live(w, q[0])
    case Hand => ch.op.Refilling? && role.Sender? && Live(w, q[0])
    case Direct =>
      && ch.op.Offering? && Live(w, m) && Live(w, q[0]) && ch.buffer == [] && ch.capacity == 0
      && (w.msgs[m].end.Multiplex? && w.msgs[q[0]].end.Multiplex? ==> w.msgs[m].end.select != w.msgs[q[0]].end.select)
    case Unlink =>
      || (ch.op.Refilling? && Stale(w, q[0]))
      || (ch.op.Offering? && (Stale(w, q[0]) || (Strands(w, c) && role.Receiver?)))
    case Park => ch.op.Offering? && q == [] && !w.msgs[m].oneshot
    case Stop(Ok) => ch.op.Refilling? && q == []
    case Stop(InvalidOneshot) => ch.op.Offering? && q == [] && w.msgs[m].oneshot
    case Stop(Threw) => ch.op.Offering? && q != [] && w.msgs[m].end.Multiplex?
    case Stop(InvalidDst) => ch.op.Offering? && role.Receiver? && Stale(w, m)
    case Stop(InvalidSrc) => ch.op.Offering? && role.Sender? && (Stale(w, m) || Strands(w, c))
    case Stop(_) => false
    case Unlock => true
  }

  ghost predicate Policy(w: World) {
    w.staleRecv in {AS_WRITTEN, CORRECTED}
  }

  lemma HeadIsLinkable(w: World, c: nat, q: seq<nat>, role: Role)
    requires QueueOk(w, c, q, role) && q != []
    ensures Linkable(w, q[0], c, role) && (AllStale(w, q) ==> Stale(w, q[0]))
  {
  }

  lemma DecideIsJustified(w: World, c: nat)
    requires c < |w.chans| && ChanOk(w, c) && OpOk(w, c) && Policy(w)
    ensures Justified(w, c, Decide(w, c))
  {
    hide QueueOk, AllStale, Newest;
    var ch := w.chans[c];
    if ch.senders != [] {
      HeadIsLinkable(w, c, ch.senders, Sender);
    }
    if ch.recvers != [] {
      HeadIsLinkable(w, c, ch.recvers, Receiver);
    }
  }

  // ---------- the channel that a step works on ----------

  ghost predicate Unwritten(w: World, v: World, q: seq<nat>) {
    forall i | 0 <= i < |q| :: q[i] < |w.msgs| <= |v.msgs| && v.msgs[q[i]] == w.msgs[q[i]]
  }

  lemma QueueKept(w: World, v: World, c: nat, q: seq<nat>, role: Role)
    requires QueueOk(w, c, q, role) && Grows(w, v) && Unwritten(w, v, q)
    ensures QueueOk(v, c, q, role)
    ensures AllStale(w, q) ==> AllStale(v, q)
  {
    forall i | 0 <= i < |q| ensures Linkable(v, q[i], c, role) && (Stale(w, q[i]) ==> Stale(v, q[i])) {
      assert Linkable(w, q[i], c, role);
    }
  }

  lemma TailKept(w: World, c: nat, q: seq<nat>, role: Role)
    requires QueueOk(w, c, q, role) && q != []
    ensures QueueOk(w, c, q[1..], role)
    ensures AllStale(w, q) ==> AllStale(w, q[1..])
    ensures forall i | 0 <= i < |q[1..]| :: q[1..][i] != q[0]
  {
  }

  /** Without a transfer to a waiter, only the operation's own message is written. */
  lemma ApplyToOwnMessage(w: World, c: nat, e: Effect)
    requires CanApply(w, c, e) && !e.Refill? && !e.Hand? && !e.Direct?
    ensures OnlyMsgs(w, Apply(w, c, e), w.chans[c].op.msg, w.chans[c].op.msg)
  {
    hide Commit, SendCommit;
    var ch := w.chans[c];
    match e
    case Take => RecvCommitGrows(w, ch.op.msg, ch.buffer[0]);
    case Put => SendCommitGrows(w, ch.op.msg);
    case _ =>
  }

  /** `ApplyConfined` for the two queues of the channel: only the served waiter and
      the operation's own message are written. */
  lemma ApplyLeavesWaiters(w: World, c: nat, e: Effect)
    requires c < |w.chans| && OpOk(w, c) && ChanOk(w, c) && Justified(w, c, e) && !e.Unlock?
    ensures var ch := w.chans[c];
      var v := Apply(w, c, e);
      var receiving := w.msgs[ch.op.msg].role.Receiver?;
      && Grows(w, v)
      && Unwritten(w, v, if receiving then ch.recvers else ch.senders)
      && (ch.senders != [] && receiving ==> Unwritten(w, v, ch.senders[1..]))
      && (ch.recvers != [] && !receiving ==> Unwritten(w, v, ch.recvers[1..]))
      && (!e.Refill? && !e.Hand? && !e.Direct? ==> Unwritten(w, v, ch.senders) && Unwritten(w, v, ch.recvers))
  {
    hide Apply;
    ApplyConfined(w, c, e);
    if !e.Refill? && !e.Hand? && !e.Direct? {
      ApplyToOwnMessage(w, c, e);
    }
    assert StageOk(w, c);
  }

  lemma BufferedKeepsChan(w: World, c: nat, e: Effect)
    requires c < |w.chans| && OpOk(w, c) && ChanOk(w, c) && Justified(w, c, e) && (e.Take? || e.Put?)
    ensures ChanOk(Apply(w, c, e), c)
  {
    var ch := w.chans[c];
    var v := Apply(w, c, e);
    ApplyLeavesWaiters(w, c, e);
    QueueKept(w, v, c, ch.senders, Sender);
    QueueKept(w, v, c, ch.recvers, Receiver);
  }

  lemma NobodyWaits(w: World, c: nat)
    ensures QueueOk(w, c, [], Sender) && QueueOk(w, c, [], Receiver) && AllStale(w, [])
  {
  }

  lemma RefillKeepsChan(w: World, c: nat)
    requires c < |w.chans| && OpOk(w, c) && ChanOk(w, c) && Justified(w, c, Refill)
    ensures ChanOk(Apply(w, c, Refill), c)
  {
    hide QueueOk, AllStale;
    var ch := w.chans[c];
    var v := Apply(w, c, Refill);
    ApplyLeavesWaiters(w, c, Refill);
    TailKept(w, c, ch.senders, Sender);
    QueueKept(w, v, c, ch.senders[1..], Sender);
    HeadIsLinkable(w, c, ch.senders, Sender);
    NobodyWaits(v, c);
  }

  lemma HandKeepsChan(w: World, c: nat)
    requires c < |w.chans| && OpOk(w, c) && ChanOk(w, c) && Justified(w, c, Hand)
    ensures ChanOk(Apply(w, c, Hand), c)
  {
    hide QueueOk, AllStale;
    var ch := w.chans[c];
    var v := Apply(w, c, Hand);
    ApplyLeavesWaiters(w, c, Hand);
    TailKept(w, c, ch.recvers, Receiver);
    QueueKept(w, v, c, ch.recvers[1..], Receiver);
    HeadIsLinkable(w, c, ch.recvers, Receiver);
    NobodyWaits(v, c);
  }

  lemma DirectFromSenderKeepsChan(w: World, c: nat)
    requires c < |w.chans| && OpOk(w, c) && ChanOk(w, c) && Justified(w, c, Direct)
    requires w.msgs[w.chans[c].op.msg].role.Receiver?
    ensures ChanOk(Apply(w, c, Direct), c)
  {
    hide QueueOk, AllStale;
    var ch := w.chans[c];
    ApplyLeavesWaiters(w, c, Direct);
    TailKept(w, c, ch.senders, Sender);
    QueueKept(w, Apply(w, c, Direct), c, ch.senders[1..], Sender);
    HeadIsLinkable(w, c, ch.senders, Sender);
    NobodyWaits(Apply(w, c, Direct), c);
  }

  lemma DirectToReceiverKeepsChan(w: World, c: nat)
    requires c < |w.chans| && OpOk(w, c) && ChanOk(w, c) && Justified(w, c, Direct)
    requires w.msgs[w.chans[c].op.msg].role.Sender?
    ensures ChanOk(Apply(w, c, Direct), c)
  {
    hide QueueOk, AllStale;
    var ch := w.chans[c];
    ApplyLeavesWaiters(w, c, Direct);
    TailKept(w, c, ch.recvers, Receiver);
    QueueKept(w, Apply(w, c, Direct), c, ch.recvers[1..], Receiver);
    HeadIsLinkable(w, c, ch.recvers, Receiver);
    NobodyWaits(Apply(w, c, Direct), c);
  }

  /** Only the record of the channel is replaced. */
  lemma SetChanKeeps(w: World, c: nat, ch: Chan, q: seq<nat>, role: Role)
    requires c < |w.chans| && QueueOk(w, c, q, role)
    ensures var v := SetChan(w, c, ch); QueueOk(v, c, q, role) && (AllStale(w, q) ==> AllStale(v, q))
  {
    var v := SetChan(w, c, ch);
    forall i | 0 <= i < |q| ensures Linkable(v, q[i], c, role) && (Stale(w, q[i]) ==> Stale(v, q[i])) {
      assert Linkable(w, q[i], c, role);
    }
  }

  lemma LinkedKept(w: World, c: nat, q: seq<nat>, role: Role, m: nat)
    requires QueueOk(w, c, q, role) && Linkable(w, m, c, role) && forall i | 0 <= i < |q| :: q[i] < m
    ensures QueueOk(w, c, q + [m], role)
    ensures AllStale(w, q) && Stale(w, m) ==> AllStale(w, q + [m])
  {
  }

  lemma UnlinkKeepsChan(w: World, c: nat)
    requires c < |w.chans| && OpOk(w, c) && ChanOk(w, c) && Justified(w, c, Unlink)
    ensures ChanOk(Apply(w, c, Unlink), c)
  {
    hide QueueOk, AllStale, TakeBuffered, PutBuffered, RefillFromSender, HandToReceiver, DirectFromSender, DirectToReceiver, Return;
    var ch := w.chans[c];
    var x := UnlinkFirst(ch, w.msgs[ch.op.msg].role);
    if w.msgs[ch.op.msg].role.Receiver? {
      TailKept(w, c, ch.senders, Sender);
    } else {
      TailKept(w, c, ch.recvers, Receiver);
    }
    SetChanKeeps(w, c, x, x.senders, Sender);
    SetChanKeeps(w, c, x, x.recvers, Receiver);
  }

  lemma StopKeepsChan(w: World, c: nat, e: Effect)
    requires c < |w.chans| && OpOk(w, c) && ChanOk(w, c) && Justified(w, c, e) && (e.Offer? || e.Stop?)
    ensures ChanOk(Apply(w, c, e), c)
  {
    hide QueueOk, AllStale, Newest, TakeBuffered, PutBuffered, RefillFromSender, HandToReceiver, DirectFromSender, DirectToReceiver, Return;
    var ch := w.chans[c];
    var x := Apply(w, c, e).chans[c];
    SetChanKeeps(w, c, x, ch.senders, Sender);
    SetChanKeeps(w, c, x, ch.recvers, Receiver);
    NobodyWaits(w, c);
    NewestKept(ch, x);
  }

  lemma NewestKept(ch: Chan, x: Chan)
    requires x.senders == ch.senders && x.recvers == ch.recvers
    ensures forall m | Newest(ch, m) :: Newest(x, m)
  {
  }

  lemma ParkKeepsChan(w: World, c: nat)
    requires c < |w.chans| && OpOk(w, c) && ChanOk(w, c) && Justified(w, c, Park)
    ensures ChanOk(Apply(w, c, Park), c)
  {
    hide QueueOk, AllStale, TakeBuffered, PutBuffered, RefillFromSender, HandToReceiver, DirectFromSender, DirectToReceiver, Return;
    var ch := w.chans[c];
    var m := ch.op.msg;
    var role := w.msgs[m].role;
    var x := Apply(w, c, Park).chans[c];
    LinkedKept(w, c, if role.Receiver? then ch.recvers else ch.senders, role, m);
    SetChanKeeps(w, c, x, x.senders, Sender);
    SetChanKeeps(w, c, x, x.recvers, Receiver);
  }

  lemma ReturnKeepsQueue(w: World, c: nat, m: nat, status: Status, q: seq<nat>, role: Role)
    requires c < |w.chans| && Holds(w, c, m) && QueueOk(w, c, q, role) && (m in q ==> status == Inprocess)
    ensures var v := Return(w, c, m, status); QueueOk(v, c, q, role) && (AllStale(w, q) ==> AllStale(v, q))
  {
    var v := Return(w, c, m, status);
    forall i | 0 <= i < |q| ensures Linkable(v, q[i], c, role) && (Stale(w, q[i]) ==> Stale(v, q[i])) {
      assert Linkable(w, q[i], c, role);
    }
  }

  lemma UnlockKeepsChan(w: World, c: nat)
    requires c < |w.chans| && OpOk(w, c) && ChanOk(w, c) && Justified(w, c, Unlock)
    ensures ChanOk(Apply(w, c, Unlock), c)
  {
    hide QueueOk, AllStale;
    var ch := w.chans[c];
    ReturnKeepsQueue(w, c, ch.op.msg, ch.op.status, ch.senders, Sender);
    ReturnKeepsQueue(w, c, ch.op.msg, ch.op.status, ch.recvers, Receiver);
  }

  lemma ApplyKeepsChan(w: World, c: nat, e: Effect)
    requires c < |w.chans| && OpOk(w, c) && ChanOk(w, c) && Justified(w, c, e)
    ensures ChanOk(Apply(w, c, e), c)
  {
    hide Apply, ChanOk;
    match e
    case Refill => RefillKeepsChan(w, c);
    case Hand => HandKeepsChan(w, c);
    case Direct =>
      if w.msgs[w.chans[c].op.msg].role.Receiver? {
        DirectFromSenderKeepsChan(w, c);
      } else {
        DirectToReceiverKeepsChan(w, c);
      }
    case Unlink => UnlinkKeepsChan(w, c);
    case Unlock => UnlockKeepsChan(w, c);
    case Take => BufferedKeepsChan(w, c, e);
    case Put => BufferedKeepsChan(w, c, e);
    case Park => ParkKeepsChan(w, c);
    case Offer => StopKeepsChan(w, c, e);
    case Stop(_) => StopKeepsChan(w, c, e);
  }

  /** What a step makes of a queue: nothing, or its head `head` leaves, or `own` joins. */
  predicate QueueAfter(q: seq<nat>, r: seq<nat>, head: nat, own: nat, serving: bool) {
    r == q || r == q + [own] || (serving && q != [] && q[0] == head && r == q[1..])
  }

  lemma QueuesAfter(w: World, c: nat, e: Effect)
    requires c < |w.chans| && OpOk(w, c) && Justified(w, c, e)
    ensures var ch := w.chans[c];
      var v := Apply(w, c, e);
      var serving := e.Refill? || e.Hand? || e.Direct? || e.Unlink?;
      && |v.chans| == |w.chans|
      && QueueAfter(ch.senders, v.chans[c].senders, Partner(w, c), ch.op.msg, serving)
      && QueueAfter(ch.recvers, v.chans[c].recvers, Partner(w, c), ch.op.msg, serving)
  {
    hide Commit, SendCommit, RecvCommit, Exchange, Strands, Stale, Served;
  }

  // ---------- every step keeps the shape ----------

  lemma AdvanceKeepsChans(w: World, c: nat)
    requires Shaped(w) && Policy(w) && OpOk(w, c)
    ensures ChansOk(Advance(w, c))
  {
    assert ChanOk(w, c);
    DecideIsJustified(w, c);
    var e := Decide(w, c);
    ApplyKeepsChan(w, c, e);
    ApplyConfined(w, c, e);
    EffectKeepsChans(w, c, e);
  }

  lemma PartnerIsHere(w: World, c: nat)
    requires OpOk(w, c) && ChanOk(w, c)
    ensures w.msgs[w.chans[c].op.msg].chan == c && Partner(w, c) < |w.msgs| && w.msgs[Partner(w, c)].chan == c
  {
    assert Holds(w, c, w.chans[c].op.msg);
    if w.chans[c].senders != [] {
      assert Linkable(w, w.chans[c].senders[0], c, Sender);
    }
    if w.chans[c].recvers != [] {
      assert Linkable(w, w.chans[c].recvers[0], c, Receiver);
    }
  }

  lemma EffectKeepsChans(w: World, c: nat, e: Effect)
    requires ChansOk(w) && CanApply(w, c, e) && Confined(w, Apply(w, c, e), c) && ChanOk(Apply(w, c, e), c)
    ensures ChansOk(Apply(w, c, e))
  {
    hide Apply, ChanOk, Partner;
    PartnerIsHere(w, c);
    var v := Apply(w, c, e);
    forall d | 0 <= d < |v.chans| ensures ChanOk(v, d) {
      if d != c {
        assert ChanOk(w, d) && Untouched(w, v, d);
        UntouchedKeepsChan(w, v, d);
      }
    }
  }

  lemma CommitKeepsPhases(w: World, m: nat)
    requires MsgOk(w, m)
    ensures var v := Commit(w, m);
      forall s | 0 <= s < |w.selects| :: v.selects[s].phase == w.selects[s].phase && v.selects[s].fallback == w.selects[s].fallback
  {
  }

  /** Until it unlocks, a step changes no phase. */
  lemma ApplyKeepsPhases(w: World, c: nat, e: Effect)
    requires CanApply(w, c, e) && !e.Unlock?
    ensures var v := Apply(w, c, e);
      && |v.msgs| == |w.msgs| && |v.selects| == |w.selects| && |v.chans| == |w.chans|
      && (forall m | 0 <= m < |w.msgs| :: v.msgs[m].phase == w.msgs[m].phase)
      && (forall s | 0 <= s < |w.selects| :: v.selects[s].phase == w.selects[s].phase && v.selects[s].fallback == w.selects[s].fallback)
      && (forall d | 0 <= d < |w.chans| ::
            v.chans[d].op == w.chans[d].op || (d == c && !v.chans[d].op.Idle? && v.chans[d].op.msg == w.chans[d].op.msg))
  {
    hide Commit;
    var ch := w.chans[c];
    var m := ch.op.msg;
    match e
    case Take => CommitKeepsPhases(w, m);
    case Put => CommitKeepsPhases(w, m);
    case Refill => CommitKeepsPhases(w, ch.senders[0]);
    case Hand => CommitKeepsPhases(w, ch.recvers[0]);
    case Direct =>
      var (src, dst) := if w.msgs[m].role.Receiver? then (ch.senders[0], m) else (m, ch.recvers[0]);
      CommitKeepsPhases(w, src);
      CommitKeepsPhases(SendCommit(w, src), dst);
    case _ =>
  }

  lemma AdvanceKeepsMsgs(w: World, c: nat)
    requires Shaped(w) && Policy(w) && OpOk(w, c)
    ensures MsgsOk(Advance(w, c))
  {
    assert ChanOk(w, c) && Holds(w, c, w.chans[c].op.msg);
    DecideIsJustified(w, c);
    var e := Decide(w, c);
    if e.Unlock? {
      UnlockKeepsMsgs(w, c);
    } else {
      EffectKeepsMsgs(w, c, e);
    }
  }

  lemma UnlockKeepsMsgs(w: World, c: nat)
    requires MsgsOk(w) && OpOk(w, c) && w.chans[c].op.Exiting? && Holds(w, c, w.chans[c].op.msg)
    ensures MsgsOk(Apply(w, c, Unlock))
  {
    var v := Apply(w, c, Unlock);
    forall m | 0 <= m < |v.msgs| ensures MsgPlaced(v, m) {
      assert MsgPlaced(w, m) && MsgPlaced(w, w.chans[c].op.msg);
    }
  }

  lemma EffectKeepsMsgs(w: World, c: nat, e: Effect)
    requires MsgsOk(w) && CanApply(w, c, e) && !e.Unlock? && w.msgs[w.chans[c].op.msg].chan == c
    requires e.Refill? ==> w.msgs[w.chans[c].op.msg].role.Receiver?
    requires e.Hand? ==> w.msgs[w.chans[c].op.msg].role.Sender?
    ensures MsgsOk(Apply(w, c, e))
  {
    hide Apply;
    ApplyConfined(w, c, e);
    ApplyKeepsPhases(w, c, e);
    var v := Apply(w, c, e);
    forall m | 0 <= m < |v.msgs| ensures MsgPlaced(v, m) {
      assert MsgPlaced(w, m);
    }
  }

  lemma QueueIsOlder(w: World, c: nat, q: seq<nat>, role: Role)
    requires QueueOk(w, c, q, role)
    ensures forall i | 0 <= i < |q| :: q[i] < |w.msgs|
  {
    forall i | 0 <= i < |q| ensures q[i] < |w.msgs| {
      assert Linkable(w, q[i], c, role);
    }
  }

  lemma StartKeepsChan(w: World, step: Step)
    requires ChansOk(w) && Enabled(w, step) && step.Start?
    ensures Grows(w, Next(w, step)) && ChanOk(Next(w, step), step.chan)
  {
    hide QueueOk, AllStale;
    var v := Next(w, step);
    var c := step.chan;
    var ch := w.chans[c];
    assert ChanOk(w, c);
    QueueIsOlder(w, c, ch.senders, Sender);
    QueueIsOlder(w, c, ch.recvers, Receiver);
    QueueKept(w, v, c, ch.senders, Sender);
    QueueKept(w, v, c, ch.recvers, Receiver);
  }

  lemma StartLeavesOthers(w: World, step: Step, d: nat)
    requires Enabled(w, step) && step.Start? && d != step.chan && d < |w.chans|
    ensures Untouched(w, Next(w, step), d)
  {
  }

  lemma StartKeepsMsgs(w: World, step: Step)
    requires MsgsOk(w) && Enabled(w, step) && step.Start?
    ensures MsgsOk(Next(w, step))
  {
    var v := Next(w, step);
    forall m | 0 <= m < |v.msgs| ensures MsgPlaced(v, m) {
      assert m < |w.msgs| ==> MsgPlaced(w, m);
    }
  }

  lemma StartKeepsShape(w: World, step: Step)
    requires Shaped(w) && Enabled(w, step) && step.Start?
    ensures Shaped(Next(w, step))
  {
    hide MsgsOk, ChanOk, Grows, Untouched;
    var v := Next(w, step);
    StartKeepsChan(w, step);
    forall d | 0 <= d < |v.chans| ensures ChanOk(v, d) {
      if d != step.chan {
        assert ChanOk(w, d);
        StartLeavesOthers(w, step, d);
        UntouchedKeepsChan(w, v, d);
      }
    }
    StartKeepsMsgs(w, step);
  }

  lemma DropKeepsShape(w: World, m: nat)
    requires Shaped(w) && Enabled(w, Drop(m))
    ensures Shaped(Next(w, Drop(m)))
  {
    var v := Next(w, Drop(m));
    var c := w.msgs[m].chan;
    var ch := w.chans[c];
    assert Grows(w, v);
    forall d | 0 <= d < |v.chans| ensures ChanOk(v, d) {
      assert ChanOk(w, d);
      if d != c {
        UntouchedKeepsChan(w, v, d);
      } else {
        RemovalKeepsQueue(w, v, c, ch.senders, Sender, m);
        RemovalKeepsQueue(w, v, c, ch.recvers, Receiver, m);
      }
    }
    forall i | 0 <= i < |v.msgs| ensures MsgPlaced(v, i) {
      assert MsgPlaced(w, i);
    }
  }

  lemma RemovalKeepsQueue(w: World, v: World, c: nat, q: seq<nat>, role: Role, m: nat)
    requires QueueOk(w, c, q, role) && Grows(w, v)
    requires forall i | 0 <= i < |w.msgs| && i != m :: v.msgs[i] == w.msgs[i]
    ensures QueueOk(v, c, Without(q, m), role)
    ensures AllStale(w, q) ==> AllStale(v, Without(q, m))
    ensures q == [] ==> Without(q, m) == []
  {
    var r := Without(q, m);
    WithoutSorted(q, m);
    forall i | 0 <= i < |r| ensures Linkable(v, r[i], c, role) && (AllStale(w, q) ==> Stale(v, r[i])) {
      WithoutElement(q, m, r[i]);
      var j :| 0 <= j < |q| && q[j] == r[i];
      assert Linkable(w, q[j], c, role);
    }
  }

  lemma QuietStepLeavesChans(w: World, step: Step)
    requires Enabled(w, step) && !step.Start? && !step.Progress? && !step.Drop?
    ensures Grows(w, Next(w, step)) && forall d | 0 <= d < |w.chans| :: Untouched(w, Next(w, step), d)
  {
  }

  lemma NewChanOk(w: World, capacity: nat)
    ensures ChanOk(Next(w, NewChannel(capacity)), |w.chans|)
  {
  }

  lemma QuietStepKeepsMsgs(w: World, step: Step)
    requires MsgsOk(w) && Enabled(w, step) && !step.Start? && !step.Progress? && !step.Drop?
    ensures MsgsOk(Next(w, step))
  {
    var v := Next(w, step);
    forall m | 0 <= m < |v.msgs| ensures MsgPlaced(v, m) {
      assert MsgPlaced(w, m);
    }
  }

  /** The steps that touch no channel. */
  lemma QuietStepKeepsShape(w: World, step: Step)
    requires Shaped(w) && Enabled(w, step) && !step.Start? && !step.Progress? && !step.Drop?
    ensures Shaped(Next(w, step))
  {
    hide MsgsOk, ChanOk, Grows, Untouched;
    var v := Next(w, step);
    QuietStepLeavesChans(w, step);
    forall d | 0 <= d < |v.chans| ensures ChanOk(v, d) {
      if d < |w.chans| {
        assert ChanOk(w, d);
        UntouchedKeepsChan(w, v, d);
      } else {
        NewChanOk(w, step.capacity);
      }
    }
    QuietStepKeepsMsgs(w, step);
  }

  /** Every step keeps the queue invariant of every channel. */
  lemma NextKeepsShape(w: World, step: Step)
    requires Shaped(w) && Policy(w) && Enabled(w, step)
    ensures Shaped(Next(w, step)) && Policy(Next(w, step))
  {
    if step.Progress? {
      AdvanceKeepsChans(w, step.chan);
      AdvanceKeepsMsgs(w, step.chan);
    } else if step.Start? {
      StartKeepsShape(w, step);
    } else if step.Drop? {
      DropKeepsShape(w, step.msg);
    } else {
      QuietStepKeepsShape(w, step);
    }
  }
}
