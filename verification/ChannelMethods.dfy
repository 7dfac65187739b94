/** The channel operations as they run: methods that hold the channel's lock and
    update its buffer and queues in place, while other channels interfere. */
module ChannelMethods {
  import opened Basics
  import opened ChannelModel
  import opened ChannelInvariant
  import opened ChannelHistory
  import opened ChannelAsked
  import opened ChannelTheorems
  import opened ChannelWaiters

  /** What all channels share: the messages, the selects, and each other.  `log` is
      a history variable. */
  class Memory {
    const staleRecv: Status
    var chans: seq<Chan>
    var selects: seq<Select>
    var msgs: seq<Msg>
    var log: seq<Event>

    constructor (staleRecv: Status)
      ensures Snapshot() == Initial(staleRecv)
    {
      this.staleRecv := staleRecv;
      chans, selects, msgs, log := [], [], [], [];
    }

    function Snapshot(): World
      reads this
    {
      World(chans, selects, msgs, log, staleRecv)
    }

    /** `Simplex::commit` and `Multiplex::commit`. */
    method CommitMsg(m: nat)
      requires MsgOk(Snapshot(), m)
      modifies this`msgs, this`selects
      ensures Snapshot() == Commit(old(Snapshot()), m)
    {
      match msgs[m].end {
        case Simplex =>
          if !msgs[m].oneshot {
            msgs := msgs[m := msgs[m].(signal := msgs[m].signal + 1)];
          }
        case Multiplex(s, k) =>
          selects := selects[s := selects[s].(key := k)];
          selects := selects[s := selects[s].(signal := selects[s].signal + 1)];
      }
      msgs := msgs[m := msgs[m].(done := true)];
    }

    /** `BaseMsg::recv_from(void*)`. */
    method RecvFrom(dst: nat, value: Value) returns (status: Status)
      requires MsgOk(Snapshot(), dst)
      modifies this`msgs, this`selects, this`log
      ensures status == if Live(old(Snapshot()), dst) then Ok else staleRecv
      ensures Snapshot() == if Live(old(Snapshot()), dst) then RecvCommit(old(Snapshot()), dst, value) else old(Snapshot())
    {
      var x := msgs[dst];
      if x.end.Multiplex? && selects[x.end.select].key != INVALID_SELECT_KEY {
        return staleRecv;
      }
      msgs := msgs[dst := x.(inbox := Some(value))];
      CommitMsg(dst);
      log := log + [Received(x.chan, dst, x.end, value)];
      assert msgs == RecvCommit(old(Snapshot()), dst, value).msgs;
      status := Ok;
    }

    /** `BaseMsg::send_to(void*)`. */
    method SendTo(src: nat) returns (status: Status, value: Value)
      requires MsgOk(Snapshot(), src)
      modifies this`msgs, this`selects, this`log
      ensures status == if Live(old(Snapshot()), src) then Ok else InvalidSrc
      ensures status == Ok ==> value == old(msgs)[src].data
      ensures Snapshot() == if Live(old(Snapshot()), src) then SendCommit(old(Snapshot()), src) else old(Snapshot())
    {
      var x := msgs[src];
      value := x.data;
      if x.end.Multiplex? && selects[x.end.select].key != INVALID_SELECT_KEY {
        return InvalidSrc, value;
      }
      CommitMsg(src);
      log := log + [Sent(x.chan, src, x.end, x.data)];
      status := Ok;
    }

    /** Move the value and commit both ends, the locks being held: a plain receiver
        commits after a sending select, a plain sender after any receiver. */
    method Deliver(src: nat, dst: nat)
      requires MsgOk(Snapshot(), src) && MsgOk(Snapshot(), dst) && src != dst
      requires msgs[src].end.Multiplex? && msgs[dst].end.Multiplex? ==> msgs[src].end.select != msgs[dst].end.select
      modifies this`msgs, this`selects, this`log
      ensures Snapshot() == Exchange(old(Snapshot()), src, dst)
    {
      var x, y := msgs[src], msgs[dst];
      ExchangeAsCommits(Snapshot(), src, dst);
      msgs := msgs[dst := y.(inbox := Some(x.data))];
      if x.end.Multiplex? {
        CommitMsg(src);
        CommitMsg(dst);
      } else {
        CommitMsg(dst);
        CommitMsg(src);
      }
      log := log + [Sent(x.chan, src, x.end, x.data)] + [Received(y.chan, dst, y.end, x.data)];
    }

    /** `BaseMsg::send_to(BaseMsg*)`. */
    method Transfer(src: nat, dst: nat) returns (status: Status)
      requires Policy(Snapshot()) && MsgOk(Snapshot(), src) && MsgOk(Snapshot(), dst) && src != dst
      modifies this`msgs, this`selects, this`log
      ensures status == Match(old(Snapshot()), src, dst)
      ensures Snapshot() == if status == Ok then Exchange(old(Snapshot()), src, dst) else old(Snapshot())
    {
      var x, y := msgs[src].end, msgs[dst].end;
      if x.Multiplex? && y.Multiplex? && x.select == y.select {
        return Threw;
      }
      if x.Multiplex? && selects[x.select].key != INVALID_SELECT_KEY {
        return InvalidSrc;
      }
      if y.Multiplex? && selects[y.select].key != INVALID_SELECT_KEY {
        return if x.Multiplex? then InvalidDst else staleRecv;
      }
      Deliver(src, dst);
      status := Ok;
    }
  }

  function WithInbox(w: World, dst: nat, value: Value): World
    requires dst < |w.msgs|
  {
    w.(msgs := w.msgs[dst := w.msgs[dst].(inbox := Some(value))])
  }

  lemma MsgsCommute(w: World, a: nat, b: nat)
    requires MsgOk(w, a) && MsgOk(w, b) && a != b
    requires w.msgs[a].end.Multiplex? && w.msgs[b].end.Multiplex? ==> w.msgs[a].end.select != w.msgs[b].end.select
    ensures Commit(Commit(w, a), b).msgs == Commit(Commit(w, b), a).msgs
  {
  }

  lemma SelectsCommute(w: World, a: nat, b: nat)
    requires MsgOk(w, a) && MsgOk(w, b) && a != b
    requires w.msgs[a].end.Multiplex? && w.msgs[b].end.Multiplex? ==> w.msgs[a].end.select != w.msgs[b].end.select
    ensures Commit(Commit(w, a), b).selects == Commit(Commit(w, b), a).selects
  {
  }

  lemma CommitsCommute(w: World, a: nat, b: nat)
    requires MsgOk(w, a) && MsgOk(w, b) && a != b
    requires w.msgs[a].end.Multiplex? && w.msgs[b].end.Multiplex? ==> w.msgs[a].end.select != w.msgs[b].end.select
    ensures Commit(Commit(w, a), b) == Commit(Commit(w, b), a)
  {
    hide Commit;
    MsgsCommute(w, a, b);
    SelectsCommute(w, a, b);
    CommitLeavesRest(w, a);
    CommitLeavesRest(w, b);
    CommitLeavesRest(Commit(w, a), b);
    CommitLeavesRest(Commit(w, b), a);
  }

  lemma CommitLeavesRest(w: World, m: nat)
    requires MsgOk(w, m)
    ensures var v := Commit(w, m); v.chans == w.chans && v.log == w.log && v.staleRecv == w.staleRecv
  {
  }

  lemma InboxThenCommit(w: World, m: nat, value: Value)
    requires MsgOk(w, m)
    ensures RecvCommit(w, m, value) == Commit(WithInbox(w, m, value), m).(log := RecvCommit(w, m, value).log)
  {
  }

  lemma InboxCommutes(w: World, src: nat, dst: nat, value: Value)
    requires MsgOk(w, src) && MsgOk(w, dst) && src != dst
    ensures WithInbox(Commit(w, src), dst, value) == Commit(WithInbox(w, dst, value), src)
  {
    assert WithInbox(Commit(w, src), dst, value).msgs == Commit(WithInbox(w, dst, value), src).msgs;
  }

  lemma ExchangeIgnoresLog(w: World, src: nat, dst: nat)
    requires MsgOk(w, src) && MsgOk(w, dst) && src != dst
    ensures MsgOk(Commit(w, src), dst)
    ensures var v := Exchange(w, src, dst);
      v == Commit(WithInbox(Commit(w, src), dst, w.msgs[src].data), dst).(log := v.log)
  {
    InboxThenCommit(SendCommit(w, src), dst, w.msgs[src].data);
  }

  /** The order of the two commits of an exchange does not matter. */
  lemma ExchangeAsCommits(w: World, src: nat, dst: nat)
    requires MsgOk(w, src) && MsgOk(w, dst) && src != dst
    requires w.msgs[src].end.Multiplex? && w.msgs[dst].end.Multiplex? ==> w.msgs[src].end.select != w.msgs[dst].end.select
    ensures var w1 := WithInbox(w, dst, w.msgs[src].data);
      var v := Exchange(w, src, dst);
      v == Commit(Commit(w1, src), dst).(log := v.log) == Commit(Commit(w1, dst), src).(log := v.log)
  {
    var value := w.msgs[src].data;
    var w1 := WithInbox(w, dst, value);
    CommitsCommute(w1, src, dst);
    InboxCommutes(w, src, dst, value);
    ExchangeIgnoresLog(w, src, dst);
  }

  /** A call of an operation of channel `c`. */
  predicate Calls(step: Step, c: nat) {
    step.Start? && step.chan == c
  }

  /** The first step is the only call. */
  predicate CalledOnce(steps: seq<Step>, c: nat) {
    steps != [] && forall i | 0 < i < |steps| :: !Calls(steps[i], c)
  }

  lemma OnceGrows(steps: seq<Step>, more: seq<Step>, c: nat)
    requires CalledOnce(steps, c) && forall i | 0 <= i < |more| :: !Calls(more[i], c)
    ensures CalledOnce(steps + more, c)
  {
  }

  class BaseChannel {
    const id: nat
    const capacity: nat
    const mem: Memory
    var buffer: seq<Value>
    var senders: seq<nat>
    var recvers: seq<nat>
    /** Who holds the lock, and how far that operation is. */
    var op: Op

    ghost predicate Valid()
      reads this, mem
    {
      id < |mem.chans|
    }

    function Own(): Chan
      reads this
    {
      Chan(capacity, buffer, senders, recvers, op)
    }

    /** The state of the whole system, seen from this channel. */
    function System(): World
      requires Valid()
      reads this, mem
    {
      World(mem.chans[id := Own()], mem.selects, mem.msgs, mem.log, mem.staleRecv)
    }

    constructor (mem: Memory, capacity: nat)
      modifies mem
      ensures Valid() && this.mem == mem && id == |old(mem.chans)|
      ensures System() == Next(old(mem.Snapshot()), NewChannel(capacity))
      ensures this.capacity == capacity && buffer == [] && senders == [] && recvers == [] && op == Idle
    {
      this.id := |mem.chans|;
      this.capacity := capacity;
      this.mem := mem;
      buffer, senders, recvers, op := [], [], [], Idle;
      new;
      mem.chans := mem.chans + [Own()];
    }

    /** Anything that the rest of the system may do while this channel is locked. */
    method Interfere() returns (ghost steps: seq<Step>)
      requires Valid() && Inv(System()) && !op.Idle?
      modifies mem
      ensures Valid() && Inv(System()) && Grows(old(System()), System())
      ensures Runs(old(System()), steps) && System() == Execute(old(System()), steps)
      ensures forall i | 0 <= i < |steps| :: !Calls(steps[i], id)
    {
      hide Inv, Enabled, Next;
      steps := [];
      var n: nat := *;
      while n > 0
        invariant Valid() && Inv(System())
        invariant forall i | 0 <= i < |steps| :: !Calls(steps[i], id)
        invariant Runs(old(System()), steps) && System() == Execute(old(System()), steps)
      {
        var step: Step := *;
        if step != Progress(id) && Enabled(System(), step) {
          ghost var before := System();
          LockedChannelIsUntouched(before, step, id);
          NextKeepsInv(before, step);
          var after := Next(System(), step);
          mem.chans, mem.selects, mem.msgs, mem.log := after.chans, after.selects, after.msgs, after.log;
          assert mem.chans[id := Own()] == after.chans;
          RunsConcat(old(System()), steps, [step]);
          steps := steps + [step];
        }
        n := n - 1;
      }
      RunsGrow(old(System()), steps);
    }

    /** The operation of `m` has come this far in a run from `w0`. */
    ghost predicate InRun(w0: World, steps: seq<Step>, m: nat)
      reads this, mem
    {
      && Valid() && Runs(w0, steps) && System() == Execute(w0, steps) && Inv(System())
      && !op.Idle? && op.msg == m && CalledOnce(steps, id)
    }

    predicate Serves(m: nat, role: Role, oneshot: bool)
      reads mem
    {
      m < |mem.msgs| && mem.msgs[m].role == role && mem.msgs[m].oneshot == oneshot
    }

    /** `Interfere` in the middle of a run. */
    method Interleave(m: nat, ghost w0: World, ghost before: seq<Step>) returns (ghost steps: seq<Step>)
      requires InRun(w0, before, m)
      modifies mem
      ensures InRun(w0, steps, m) && before <= steps
      ensures m < |mem.msgs| && m < |old(mem.msgs)| && SameMessage(old(mem.msgs)[m], mem.msgs[m])
    {
      hide Inv, Runs, Execute, CalledOnce;
      LockedIsOpOk(System(), id);
      var more := Interfere();
      RunsConcat(w0, before, more);
      OnceGrows(before, more, id);
      steps := before + more;
    }

    /** Take the lock for a new message. */
    method Lock(role: Role, end: Endpoint, data: Value, oneshot: bool) returns (m: nat, ghost steps: seq<Step>)
      requires Valid() && Inv(System()) && Enabled(System(), Start(id, role, end, data, oneshot))
      modifies this`op, mem
      ensures steps == [Start(id, role, end, data, oneshot)]
      ensures m == |old(mem.msgs)| && InRun(old(System()), steps, m) && op == Entering(m) && Serves(m, role, oneshot)
    {
      ghost var before := System();
      m := |mem.msgs|;
      mem.msgs := mem.msgs + [Msg(id, role, end, data, oneshot, Active, false, 0, None)];
      if end.Multiplex? {
        mem.selects := mem.selects[end.select := mem.selects[end.select].(phase := Calling(m))];
      }
      op := Entering(m);
      steps := [Start(id, role, end, data, oneshot)];
      assert System() == Next(before, steps[0]);
      NextKeepsInv(before, steps[0]);
      assert Execute(before, steps) == Execute(Next(before, steps[0]), steps[1..]);
    }

    /** `TypeChannel::_buffer_send_to`. */
    method BufferSendTo(dst: nat) returns (ok: bool)
      requires Valid() && Policy(System()) && MsgOk(System(), dst)
      modifies this`buffer, mem`msgs, mem`selects, mem`log
      ensures Valid() && ok == (old(buffer) != [] && Live(old(System()), dst))
      ensures !ok ==> System() == old(System())
      ensures ok ==> buffer == old(buffer)[1..]
      ensures ok ==> System() == SetChan(RecvCommit(old(System()), dst, old(buffer)[0]), id, Own())
    {
      if buffer == [] {
        return false;
      }
      var status := mem.RecvFrom(dst, buffer[0]);
      if status == Ok {
        buffer := buffer[1..];
        return true;
      }
      return false;
    }

    /** `TypeChannel::_buffer_recv_from`. */
    method BufferRecvFrom(src: nat) returns (ok: bool)
      requires Valid() && MsgOk(System(), src)
      modifies this`buffer, mem`msgs, mem`selects, mem`log
      ensures Valid() && ok == (|old(buffer)| != capacity && Live(old(System()), src))
      ensures !ok ==> System() == old(System())
      ensures ok ==> buffer == old(buffer) + [old(mem.msgs)[src].data]
      ensures ok ==> System() == SetChan(SendCommit(old(System()), src), id, Own())
    {
      if |buffer| == capacity {
        return false;
      }
      var status, x := mem.SendTo(src);
      if status == Ok {
        buffer := buffer + [x];
        return true;
      }
      return false;
    }
  
    /** Let a sender and a receiver meet without the buffer. */
    method Meet(src: nat, dst: nat) returns (status: Status)
      requires Valid() && Policy(System()) && MsgOk(System(), src) && MsgOk(System(), dst) && src != dst
      modifies mem`msgs, mem`selects, mem`log
      ensures Valid() && status == Match(old(System()), src, dst)
      ensures System() == if status == Ok then SetChan(Exchange(old(System()), src, dst), id, Own()) else old(System())
    {
      hide Exchange, Match;
      TransfersIgnoreChans(mem.Snapshot(), mem.chans[id := Own()], src, dst);
      status := mem.Transfer(src, dst);
    }

    ghost predicate At(m: nat, role: Role)
      reads this, mem
    {
      && Valid() && Policy(System()) && OpOk(System(), id)
      && op.msg == m && mem.msgs[m].role == role
      && (op.Offering? ==> Partner(System(), id) != m || Opposite(Own(), role) == [])
    }

    /** A receive operation tries the buffer. */
    method TryTake(m: nat) returns (served: bool)
      requires At(m, Receiver) && op.Entering?
      modifies this`buffer, this`op, mem`msgs, mem`selects, mem`log
      ensures Valid() && OpOk(old(System()), id) && System() == Advance(old(System()), id)
      ensures op == if served then Refilling(m) else Offering(m)
    {
      StepEntering(System(), id);
      served := BufferSendTo(m);
      op := if served then Refilling(m) else Offering(m);
    }

    /** A send operation tries the buffer. */
    method TryPut(m: nat) returns (served: bool)
      requires At(m, Sender) && op.Entering?
      modifies this`buffer, this`op, mem`msgs, mem`selects, mem`log
      ensures Valid() && OpOk(old(System()), id) && System() == Advance(old(System()), id)
      ensures op == if served then Refilling(m) else Offering(m)
    {
      StepEntering(System(), id);
      served := BufferRecvFrom(m);
      op := if served then Refilling(m) else Offering(m);
    }

    /** One turn of the loop that refills the buffer from the waiting senders. */
    method RefillOnce(m: nat) returns (filled: bool)
      requires At(m, Receiver) && op.Refilling? && senders != []
      modifies this`buffer, this`senders, this`op, mem`msgs, mem`selects, mem`log
      ensures Valid() && OpOk(old(System()), id) && System() == Advance(old(System()), id)
      ensures senders == old(senders)[1..] && op == if filled then Exiting(m, Ok) else old(op)
    {
      StepRefilling(System(), id);
      var sender := senders[0];
      senders := senders[1..];
      filled := BufferRecvFrom(sender);
      if filled {
        op := Exiting(m, Ok);
      }
    }

    /** One turn of the loop that hands the buffer on to the waiting receivers. */
    method HandOnce(m: nat) returns (taken: bool)
      requires At(m, Sender) && op.Refilling? && recvers != []
      modifies this`buffer, this`recvers, this`op, mem`msgs, mem`selects, mem`log
      ensures Valid() && OpOk(old(System()), id) && System() == Advance(old(System()), id)
      ensures recvers == old(recvers)[1..] && op == if taken then Exiting(m, Ok) else old(op)
    {
      StepRefilling(System(), id);
      var recver := recvers[0];
      recvers := recvers[1..];
      taken := BufferSendTo(recver);
      if taken {
        op := Exiting(m, Ok);
      }
    }

    /** One turn of the loop that asks the waiting senders for a value. */
    method AskSender(m: nat) returns (status: Status)
      requires At(m, Receiver) && op.Offering? && senders != []
      modifies this`senders, this`op, mem`msgs, mem`selects, mem`log
      ensures Valid() && OpOk(old(System()), id) && System() == Advance(old(System()), id)
      ensures senders == if status in {Ok, InvalidSrc} then old(senders)[1..] else old(senders)
      ensures op == if status == InvalidSrc then old(op) else Exiting(m, status)
      ensures status in {Ok, InvalidSrc, InvalidDst, Threw}
    {
      StepAsking(System(), id);
      status := Meet(senders[0], m);
      if status == Ok {
        senders := senders[1..];
        op := Exiting(m, Ok);
      } else if status == InvalidSrc {
        senders := senders[1..];
      } else {
        op := Exiting(m, status);
      }
    }

    /** One turn of the loop that offers a value to the waiting receivers. */
    method AskReceiver(m: nat) returns (status: Status)
      requires At(m, Sender) && op.Offering? && recvers != []
      modifies this`recvers, this`op, mem`msgs, mem`selects, mem`log
      ensures Valid() && OpOk(old(System()), id) && System() == Advance(old(System()), id)
      ensures recvers == if status in {Ok, InvalidDst} then old(recvers)[1..] else old(recvers)
      ensures op == if status == InvalidDst then old(op) else Exiting(m, status)
      ensures status in {Ok, InvalidSrc, InvalidDst, Threw}
    {
      StepAsking(System(), id);
      status := Meet(m, recvers[0]);
      if status == Ok {
        recvers := recvers[1..];
        op := Exiting(m, Ok);
      } else if status == InvalidDst {
        recvers := recvers[1..];
      } else {
        op := Exiting(m, status);
      }
    }
  
    /** `TryTake` in the middle of a run. */
    method TakeTurn(m: nat, oneshot: bool, ghost w0: World, ghost before: seq<Step>)
      returns (served: bool, ghost steps: seq<Step>)
      requires InRun(w0, before, m) && Serves(m, Receiver, oneshot) && op.Entering?
      modifies this`buffer, this`op, mem
      ensures InRun(w0, steps, m) && Serves(m, Receiver, oneshot) && before <= steps
      ensures senders == old(senders) && recvers == old(recvers)
      ensures op == if served then Refilling(m) else Offering(m)
    {
      hide Inv, Runs, Execute, CalledOnce;
      steps := Interleave(m, w0, before);
      RunProgress(w0, steps, id);
      served := TryTake(m);
      steps := steps + [Progress(id)];
    }

    /** `TryPut` in the middle of a run. */
    method PutTurn(m: nat, oneshot: bool, ghost w0: World, ghost before: seq<Step>)
      returns (served: bool, ghost steps: seq<Step>)
      requires InRun(w0, before, m) && Serves(m, Sender, oneshot) && op.Entering?
      modifies this`buffer, this`op, mem
      ensures InRun(w0, steps, m) && Serves(m, Sender, oneshot) && before <= steps
      ensures senders == old(senders) && recvers == old(recvers)
      ensures op == if served then Refilling(m) else Offering(m)
    {
      hide Inv, Runs, Execute, CalledOnce;
      steps := Interleave(m, w0, before);
      RunProgress(w0, steps, id);
      served := TryPut(m);
      steps := steps + [Progress(id)];
    }

    /** `RefillOnce` in the middle of a run. */
    method RefillTurn(m: nat, oneshot: bool, ghost w0: World, ghost before: seq<Step>)
      returns (filled: bool, ghost steps: seq<Step>)
      requires InRun(w0, before, m) && Serves(m, Receiver, oneshot) && op.Refilling? && senders != []
      modifies this`buffer, this`senders, this`op, mem
      ensures InRun(w0, steps, m) && Serves(m, Receiver, oneshot) && before <= steps
      ensures senders == old(senders)[1..]
      ensures op == if filled then Exiting(m, Ok) else Refilling(m)
    {
      hide Inv, Runs, Execute, CalledOnce;
      steps := Interleave(m, w0, before);
      RunProgress(w0, steps, id);
      filled := RefillOnce(m);
      steps := steps + [Progress(id)];
    }

    /** `HandOnce` in the middle of a run. */
    method HandTurn(m: nat, oneshot: bool, ghost w0: World, ghost before: seq<Step>)
      returns (taken: bool, ghost steps: seq<Step>)
      requires InRun(w0, before, m) && Serves(m, Sender, oneshot) && op.Refilling? && recvers != []
      modifies this`buffer, this`recvers, this`op, mem
      ensures InRun(w0, steps, m) && Serves(m, Sender, oneshot) && before <= steps
      ensures recvers == old(recvers)[1..]
      ensures op == if taken then Exiting(m, Ok) else Refilling(m)
    {
      hide Inv, Runs, Execute, CalledOnce;
      steps := Interleave(m, w0, before);
      RunProgress(w0, steps, id);
      taken := HandOnce(m);
      steps := steps + [Progress(id)];
    }

    /** `AskSender` in the middle of a run. */
    method AskSenderTurn(m: nat, oneshot: bool, ghost w0: World, ghost before: seq<Step>)
      returns (status: Status, ghost steps: seq<Step>)
      requires InRun(w0, before, m) && Serves(m, Receiver, oneshot) && op.Offering? && senders != []
      modifies this`senders, this`op, mem
      ensures InRun(w0, steps, m) && Serves(m, Receiver, oneshot) && before <= steps
      ensures senders == if status in {Ok, InvalidSrc} then old(senders)[1..] else old(senders)
      ensures op == if status == InvalidSrc then Offering(m) else Exiting(m, status)
    {
      hide Inv, Runs, Execute, CalledOnce;
      steps := Interleave(m, w0, before);
      RunProgress(w0, steps, id);
      status := AskSender(m);
      steps := steps + [Progress(id)];
    }

    /** `AskReceiver` in the middle of a run. */
    method AskReceiverTurn(m: nat, oneshot: bool, ghost w0: World, ghost before: seq<Step>)
      returns (status: Status, ghost steps: seq<Step>)
      requires InRun(w0, before, m) && Serves(m, Sender, oneshot) && op.Offering? && recvers != []
      modifies this`recvers, this`op, mem
      ensures InRun(w0, steps, m) && Serves(m, Sender, oneshot) && before <= steps
      ensures recvers == if status in {Ok, InvalidDst} then old(recvers)[1..] else old(recvers)
      ensures op == if status == InvalidDst then Offering(m) else Exiting(m, status)
    {
      hide Inv, Runs, Execute, CalledOnce;
      steps := Interleave(m, w0, before);
      RunProgress(w0, steps, id);
      status := AskReceiver(m);
      steps := steps + [Progress(id)];
    }

    /** The loops found no waiter: the operation succeeded, joins its queue, or gives up. */
    method ConcludeOnce(m: nat, role: Role, oneshot: bool)
      requires At(m, role) && Serves(m, role, oneshot) && (op.Refilling? || op.Offering?) && Opposite(Own(), role) == []
      modifies this`senders, this`recvers, this`op
      ensures Valid() && OpOk(old(System()), id) && System() == Advance(old(System()), id)
      ensures op == Exiting(m, if old(op).Refilling? then Ok else if oneshot then InvalidOneshot else Inprocess)
    {
      StepConcluding(System(), id);
      if op.Refilling? {
        op := Exiting(m, Ok);
      } else if oneshot {
        op := Exiting(m, InvalidOneshot);
      } else {
        if role.Receiver? {
          recvers := recvers + [m];
        } else {
          senders := senders + [m];
        }
        op := Exiting(m, Inprocess);
      }
    }

    method Conclude(m: nat, role: Role, oneshot: bool, ghost w0: World, ghost before: seq<Step>)
      returns (ghost steps: seq<Step>)
      requires InRun(w0, before, m) && Serves(m, role, oneshot) && (op.Refilling? || op.Offering?)
      requires Opposite(Own(), role) == []
      modifies this`senders, this`recvers, this`op, mem
      ensures InRun(w0, steps, m) && before <= steps
      ensures op == Exiting(m, if old(op).Refilling? then Ok else if oneshot then InvalidOneshot else Inprocess)
    {
      hide Inv, Runs, Execute, CalledOnce;
      steps := Interleave(m, w0, before);
      RunProgress(w0, steps, id);
      ConcludeOnce(m, role, oneshot);
      steps := steps + [Progress(id)];
    }

    /** Report the status and release the lock. */
    method UnlockOnce(m: nat) returns (status: Status)
      requires Valid() && OpOk(System(), id) && op.Exiting? && op.msg == m
      modifies this`op, mem`msgs, mem`selects
      ensures Valid() && OpOk(old(System()), id) && System() == Advance(old(System()), id)
      ensures op == Idle && status == old(op).status && m < |mem.msgs| && mem.msgs[m].phase == Returned(status)
      ensures m < |old(mem.msgs)| && mem.msgs[m].done == old(mem.msgs)[m].done
    {
      status := op.status;
      mem.msgs := mem.msgs[m := mem.msgs[m].(phase := Returned(status))];
      if mem.msgs[m].end.Multiplex? {
        var s := mem.msgs[m].end.select;
        mem.selects := mem.selects[s := mem.selects[s].(phase := if status == Threw then Dropping(None) else Checking)];
      }
      op := Idle;
    }

    method Unlock(m: nat, ghost w0: World, ghost before: seq<Step>) returns (status: Status, ghost steps: seq<Step>)
      requires InRun(w0, before, m) && op.Exiting?
      modifies this`op, mem
      ensures status == old(op).status && before <= steps
      ensures Valid() && Runs(w0, steps) && System() == Execute(w0, steps) && Inv(System()) && CalledOnce(steps, id)
      ensures op == Idle && m < |mem.msgs| && mem.msgs[m].phase == Returned(status) && (mem.msgs[m].done <==> status == Ok)
    {
      hide Inv, Runs, Execute, CalledOnce;
      ExitingTellsDone(System(), id);
      RunProgress(w0, before, id);
      status := UnlockOnce(m);
      steps := before + [Progress(id)];
    }

    /** `BaseChannel::send_to`: a receive operation.  Its whole effect, interference
        included, is a run in which the operation of the new message starts, takes its
        steps and returns `status`. */
    method SendTo(end: Endpoint, oneshot: bool) returns (status: Status, m: nat, ghost steps: seq<Step>)
      requires Valid() && Inv(System()) && Enabled(System(), Start(id, Receiver, end, 0, oneshot))
      modifies this, mem
      ensures m == |old(mem.msgs)| && [Start(id, Receiver, end, 0, oneshot)] <= steps
      ensures Valid() && Runs(old(System()), steps) && System() == Execute(old(System()), steps) && Inv(System())
      ensures op == Idle && m < |mem.msgs| && mem.msgs[m].phase == Returned(status) && CalledOnce(steps, id)
      ensures CallOf(mem.msgs[m]) == Start(id, Receiver, end, 0, oneshot)
      ensures Reported(mem.log, mem.msgs[m], m, status)
    {
      hide Inv, Runs, Execute, Enabled, CalledOnce, Reported;
      ghost var w0 := System();
      m, steps := Lock(Receiver, end, 0, oneshot);
      var served: bool;
      served, steps := TakeTurn(m, oneshot, w0, steps);
      if served {
        while senders != [] && op.Refilling?
          invariant InRun(w0, steps, m) && Serves(m, Receiver, oneshot) && [Start(id, Receiver, end, 0, oneshot)] <= steps
          invariant op in {Refilling(m), Exiting(m, Ok)}
          decreases |senders|
        {
          served, steps := RefillTurn(m, oneshot, w0, steps);
        }
      } else {
        while senders != [] && op.Offering?
          invariant InRun(w0, steps, m) && Serves(m, Receiver, oneshot) && [Start(id, Receiver, end, 0, oneshot)] <= steps
          invariant op == Offering(m) || op.Exiting?
          decreases |senders|, op.Offering?
        {
          status, steps := AskSenderTurn(m, oneshot, w0, steps);
        }
      }
      if !op.Exiting? {
        steps := Conclude(m, Receiver, oneshot, w0, steps);
      }
      status, steps := Unlock(m, w0, steps);
      ReturnedAsCalled(w0, steps, System(), id, m, status);
    }

    /** `BaseChannel::recv_from`: a send operation. */
    method RecvFrom(end: Endpoint, data: Value, oneshot: bool) returns (status: Status, m: nat, ghost steps: seq<Step>)
      requires Valid() && Inv(System()) && Enabled(System(), Start(id, Sender, end, data, oneshot))
      modifies this, mem
      ensures m == |old(mem.msgs)| && [Start(id, Sender, end, data, oneshot)] <= steps
      ensures Valid() && Runs(old(System()), steps) && System() == Execute(old(System()), steps) && Inv(System())
      ensures op == Idle && m < |mem.msgs| && mem.msgs[m].phase == Returned(status) && CalledOnce(steps, id)
      ensures CallOf(mem.msgs[m]) == Start(id, Sender, end, data, oneshot)
      ensures Reported(mem.log, mem.msgs[m], m, status)
    {
      hide Inv, Runs, Execute, Enabled, CalledOnce, Reported;
      ghost var w0 := System();
      m, steps := Lock(Sender, end, data, oneshot);
      var served: bool;
      served, steps := PutTurn(m, oneshot, w0, steps);
      if served {
        while recvers != [] && op.Refilling?
          invariant InRun(w0, steps, m) && Serves(m, Sender, oneshot) && [Start(id, Sender, end, data, oneshot)] <= steps
          invariant op in {Refilling(m), Exiting(m, Ok)}
          decreases |recvers|
        {
          served, steps := HandTurn(m, oneshot, w0, steps);
        }
      } else {
        while recvers != [] && op.Offering?
          invariant InRun(w0, steps, m) && Serves(m, Sender, oneshot) && [Start(id, Sender, end, data, oneshot)] <= steps
          invariant op == Offering(m) || op.Exiting?
          decreases |recvers|, op.Offering?
        {
          status, steps := AskReceiverTurn(m, oneshot, w0, steps);
        }
      }
      if !op.Exiting? {
        steps := Conclude(m, Sender, oneshot, w0, steps);
      }
      status, steps := Unlock(m, w0, steps);
      ReturnedAsCalled(w0, steps, System(), id, m, status);
    }
  }

  lemma ExitingTellsDone(w: World, c: nat)
    requires Inv(w) && c < |w.chans| && w.chans[c].op.Exiting?
    ensures var op := w.chans[c].op; op.msg < |w.msgs| && (w.msgs[op.msg].done <==> op.status == Ok)
  {
    assert ChanOk(w, c) && StageOk(w, c);
  }

  /** `Ok` is reported if and only if the message has transferred: then the log has the
      value that it sent, or that its receiver got. */
  ghost predicate Reported(log: seq<Event>, x: Msg, m: nat, status: Status) {
    && (status == Ok <==> x.done)
    && (status == Ok ==>
          if x.role.Sender? then Sent(x.chan, m, x.end, x.data) in log
          else x.inbox.Some? && Received(x.chan, m, x.end, x.inbox.value) in log)
  }

  lemma ReturnedAsCalled(w0: World, steps: seq<Step>, w: World, c: nat, m: nat, status: Status)
    requires Inv(w0) && Runs(w0, steps) && w == Execute(w0, steps) && Inv(w)
    requires steps != [] && steps[0].Start? && m == |w0.msgs| && m < |w.msgs| && (w.msgs[m].done <==> status == Ok)
    ensures CallOf(w.msgs[m]) == steps[0] && Reported(w.log, w.msgs[m], m, status)
  {
    hide Inv, Runs, Execute;
    RunsAdd(w0, steps);
    assert Starts(steps)[0] == steps[0];
    assert CallsOf(w)[m] == CallOf(w.msgs[m]);
    if w.msgs[m].done {
      DoneIsLogged(w, m);
    }
  }

  lemma DoneIsLogged(w: World, m: nat)
    requires Inv(w) && m < |w.msgs| && w.msgs[m].done
    ensures w.msgs[m].role.Receiver? ==> w.msgs[m].inbox.Some?
    ensures ChannelHistory.Transfer(w.msgs[m], m) in w.log
  {
    assert MsgHistory(w.log, m, w.msgs[m]);
    LoggedTransfers(w.log, m);
  }

  lemma StepConcluding(w: World, c: nat)
    requires OpOk(w, c) && (w.chans[c].op.Refilling? || w.chans[c].op.Offering?)
    requires Opposite(w.chans[c], w.msgs[w.chans[c].op.msg].role) == []
    ensures var ch := w.chans[c];
      var m := ch.op.msg;
      Advance(w, c) == SetChan(w, c,
        if ch.op.Refilling? then ch.(op := Exiting(m, Ok))
        else if w.msgs[m].oneshot then ch.(op := Exiting(m, InvalidOneshot))
        else LinkLast(ch, w.msgs[m].role, m).(op := Exiting(m, Inprocess)))
  {
  }

  lemma CommitsIgnoreChans(w: World, chans: seq<Chan>, m: nat, value: Value)
    requires MsgOk(w, m) && |chans| == |w.chans|
    ensures var u := w.(chans := chans);
      SendCommit(u, m) == SendCommit(w, m).(chans := chans) && RecvCommit(u, m, value) == RecvCommit(w, m, value).(chans := chans)
  {
  }

  lemma TransfersIgnoreChans(w: World, chans: seq<Chan>, src: nat, dst: nat)
    requires MsgOk(w, src) && MsgOk(w, dst) && |chans| == |w.chans|
    ensures var u := w.(chans := chans);
      Match(u, src, dst) == Match(w, src, dst) && Exchange(u, src, dst) == Exchange(w, src, dst).(chans := chans)
  {
    CommitsIgnoreChans(w, chans, src, 0);
    CommitsIgnoreChans(SendCommit(w, src), chans, dst, w.msgs[src].data);
  }

  lemma StepEntering(w: World, c: nat)
    requires OpOk(w, c) && w.chans[c].op.Entering?
    ensures var ch := w.chans[c];
      var m := ch.op.msg;
      Advance(w, c) ==
        if w.msgs[m].role.Receiver? && ch.buffer != [] && Live(w, m) then
          SetChan(RecvCommit(w, m, ch.buffer[0]), c, ch.(buffer := ch.buffer[1..], op := Refilling(m)))
        else if w.msgs[m].role.Sender? && |ch.buffer| != ch.capacity && Live(w, m) then
          SetChan(SendCommit(w, m), c, ch.(buffer := ch.buffer + [w.msgs[m].data], op := Refilling(m)))
        else SetChan(w, c, ch.(op := Offering(m)))
  {
  }

  lemma StepRefilling(w: World, c: nat)
    requires OpOk(w, c) && w.chans[c].op.Refilling?
    ensures var ch := w.chans[c];
      var m := ch.op.msg;
      var q := Opposite(ch, w.msgs[m].role);
      Advance(w, c) ==
        if q == [] then SetChan(w, c, ch.(op := Exiting(m, Ok)))
        else if w.msgs[m].role.Receiver? && |ch.buffer| != ch.capacity && Live(w, q[0]) then
          SetChan(SendCommit(w, q[0]), c,
                  ch.(buffer := ch.buffer + [w.msgs[q[0]].data], senders := q[1..], op := Exiting(m, Ok)))
        else if w.msgs[m].role.Sender? && ch.buffer != [] && Live(w, q[0]) then
          SetChan(RecvCommit(w, q[0], ch.buffer[0]), c,
                  ch.(buffer := ch.buffer[1..], recvers := q[1..], op := Exiting(m, Ok)))
        else SetChan(w, c, UnlinkFirst(ch, w.msgs[m].role))
  {
  }

  lemma StepAsking(w: World, c: nat)
    requires OpOk(w, c) && w.chans[c].op.Offering? && Opposite(w.chans[c], w.msgs[w.chans[c].op.msg].role) != []
    ensures var ch := w.chans[c];
      var m := ch.op.msg;
      var role := w.msgs[m].role;
      var head := Opposite(ch, role)[0];
      var src, dst := if role.Receiver? then head else m, if role.Receiver? then m else head;
      Advance(w, c) == match Match(w, src, dst)
        case Ok => SetChan(Exchange(w, src, dst), c, UnlinkFirst(ch, role).(op := Exiting(m, Ok)))
        case InvalidSrc =>
          SetChan(w, c, if role.Receiver? then UnlinkFirst(ch, role) else ch.(op := Exiting(m, InvalidSrc)))
        case InvalidDst =>
          SetChan(w, c, if role.Receiver? then ch.(op := Exiting(m, InvalidDst)) else UnlinkFirst(ch, role))
        case Threw => SetChan(w, c, ch.(op := Exiting(m, Threw)))
        case _ => SetChan(w, c, ch.(op := Exiting(m, if role.Receiver? then InvalidDst else InvalidSrc)))
  {
  }

  lemma LockedIsOpOk(w: World, c: nat)
    requires Inv(w) && c < |w.chans| && !w.chans[c].op.Idle?
    ensures OpOk(w, c) && Holds(w, c, w.chans[c].op.msg)
    ensures w.chans[c].op.Offering? ==>
      w.chans[c].op.msg != Partner(w, c) || Opposite(w.chans[c], w.msgs[w.chans[c].op.msg].role) == []
  {
    assert ChanOk(w, c) && StageOk(w, c);
    if w.chans[c].senders != [] {
      assert Linkable(w, w.chans[c].senders[0], c, Sender);
    }
    if w.chans[c].recvers != [] {
      assert Linkable(w, w.chans[c].recvers[0], c, Receiver);
    }
  }

  /** The next step of the operation that holds `c`, at the end of a run. */
  lemma RunProgress(w0: World, steps: seq<Step>, c: nat)
    requires Runs(w0, steps)
    requires var w := Execute(w0, steps); Inv(w) && c < |w.chans| && !w.chans[c].op.Idle?
    ensures var w := Execute(w0, steps);
      var more := steps + [Progress(c)];
      var m := w.chans[c].op.msg;
      && Policy(w) && OpOk(w, c)
      && (w.chans[c].op.Offering? ==> m != Partner(w, c) || Opposite(w.chans[c], w.msgs[m].role) == [])
      && Runs(w0, more) && Execute(w0, more) == Advance(w, c) && Inv(Advance(w, c))
      && (CalledOnce(steps, c) ==> CalledOnce(more, c))
      && m < |Advance(w, c).msgs| && SameMessage(w.msgs[m], Advance(w, c).msgs[m])
  {
    hide Inv, Advance, CalledOnce;
    LockedAdvance(Execute(w0, steps), c);
    SingleRun(Execute(w0, steps), Progress(c));
    RunsConcat(w0, steps, [Progress(c)]);
    if CalledOnce(steps, c) {
      OnceGrows(steps, [Progress(c)], c);
    }
  }

  lemma LockedPartner(w: World, c: nat)
    requires Inv(w) && c < |w.chans| && !w.chans[c].op.Idle?
    ensures var m := w.chans[c].op.msg;
      && Policy(w) && OpOk(w, c)
      && (w.chans[c].op.Offering? ==> m != Partner(w, c) || Opposite(w.chans[c], w.msgs[m].role) == [])
  {
    hide Commits, Fifos, QueueOk, Resting;
    LockedIsOpOk(w, c);
    OperationIsOk(w, c);
    assert StageOk(w, c);
  }

  lemma LockedAdvance(w: World, c: nat)
    requires Inv(w) && c < |w.chans| && !w.chans[c].op.Idle?
    ensures var m := w.chans[c].op.msg;
      && Policy(w) && OpOk(w, c)
      && (w.chans[c].op.Offering? ==> m != Partner(w, c) || Opposite(w.chans[c], w.msgs[m].role) == [])
      && Inv(Advance(w, c))
      && m < |Advance(w, c).msgs| && SameMessage(w.msgs[m], Advance(w, c).msgs[m])
  {
    hide Inv, Partner, Apply;
    LockedPartner(w, c);
    NextKeepsInv(w, Progress(c));
    AdvanceConfinedTo(w, c);
  }

  /** A locked channel is left alone by every step but its own. */
  lemma LockedChannelIsUntouched(w: World, step: Step, c: nat)
    requires Inv(w) && Enabled(w, step) && c < |w.chans| && !w.chans[c].op.Idle? && step != Progress(c)
    ensures c < |Next(w, step).chans| && Next(w, step).chans[c] == w.chans[c]
    ensures Next(w, step).staleRecv == w.staleRecv && !Calls(step, c)
  {
    PolicyIsFixed(w, step);
    if step.Progress? {
      AdvanceConfinedTo(w, step.chan);
    }
  }
}
