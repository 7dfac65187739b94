/** What callers ask for is what they get: the capacities of channels, the defaults of
    selects, and the cases and values of messages, over every run. */
module ChannelAsked {
  import opened Basics
  import opened ChannelModel
  import opened ChannelInvariant
  import opened ChannelHistory

  // ---------- what a run asks for ----------

  /** The capacities asked for, in the order of the calls. */
  function Capacities(steps: seq<Step>): seq<nat> {
    if steps == [] then []
    else (if steps[0].NewChannel? then [steps[0].capacity] else []) + Capacities(steps[1..])
  }

  /** The default keys of the selects. */
  function Fallbacks(steps: seq<Step>): seq<int> {
    if steps == [] then []
    else (if steps[0].NewSelect? then [steps[0].fallback] else []) + Fallbacks(steps[1..])
  }

  /** The calls of channel operations. */
  function Starts(steps: seq<Step>): (starts: seq<Step>)
    ensures forall k | 0 <= k < |starts| :: starts[k].Start?
  {
    if steps == [] then []
    else (if steps[0].Start? then [steps[0]] else []) + Starts(steps[1..])
  }

  // ---------- what a state has ----------

  function CapacitiesOf(w: World): (r: seq<nat>)
    ensures |r| == |w.chans| && forall c | 0 <= c < |r| :: r[c] == w.chans[c].capacity
  {
    seq(|w.chans|, c requires 0 <= c < |w.chans| => w.chans[c].capacity)
  }

  function FallbacksOf(w: World): (r: seq<int>)
    ensures |r| == |w.selects| && forall s | 0 <= s < |r| :: r[s] == w.selects[s].fallback
  {
    seq(|w.selects|, s requires 0 <= s < |w.selects| => w.selects[s].fallback)
  }

  /** The call that a message is for. */
  function CallOf(x: Msg): Step {
    Start(x.chan, x.role, x.end, x.data, x.oneshot)
  }

  function CallsOf(w: World): (r: seq<Step>)
    ensures |r| == |w.msgs| && forall m | 0 <= m < |r| :: r[m] == CallOf(w.msgs[m])
  {
    seq(|w.msgs|, m requires 0 <= m < |w.msgs| => CallOf(w.msgs[m]))
  }

  /** `v` has what `w` has and, besides, what these steps ask for. */
  ghost predicate Added(w: World, steps: seq<Step>, v: World) {
    && CapacitiesOf(v) == CapacitiesOf(w) + Capacities(steps)
    && FallbacksOf(v) == FallbacksOf(w) + Fallbacks(steps)
    && CallsOf(v) == CallsOf(w) + Starts(steps)
  }

  lemma AskedFirst(steps: seq<Step>)
    requires steps != []
    ensures Capacities(steps) == (if steps[0].NewChannel? then [steps[0].capacity] else []) + Capacities(steps[1..])
    ensures Fallbacks(steps) == (if steps[0].NewSelect? then [steps[0].fallback] else []) + Fallbacks(steps[1..])
    ensures Starts(steps) == (if steps[0].Start? then [steps[0]] else []) + Starts(steps[1..])
  {
  }

  lemma AskedNothing()
    ensures Capacities([]) == [] && Fallbacks([]) == [] && Starts([]) == []
  {
  }

  lemma AskedOne(step: Step)
    ensures Capacities([step]) == if step.NewChannel? then [step.capacity] else []
    ensures Fallbacks([step]) == if step.NewSelect? then [step.fallback] else []
    ensures Starts([step]) == if step.Start? then [step] else []
  {
    hide Capacities, Fallbacks, Starts;
    AskedFirst([step]);
    AskedNothing();
    assert [step][1..] == [];
  }

  // ---------- one step ----------

  lemma EffectKeepsCapacity(w: World, c: nat, e: Effect)
    requires CanApply(w, c, e)
    ensures c < |Apply(w, c, e).chans| && Apply(w, c, e).chans[c].capacity == w.chans[c].capacity
    ensures |Apply(w, c, e).chans| == |w.chans|
  {
    hide Commit, SendCommit, RecvCommit, Exchange;
  }

  lemma UnlockKeepsFallbacks(w: World, c: nat)
    requires CanApply(w, c, Unlock)
    ensures var v := Apply(w, c, Unlock);
      |v.selects| == |w.selects| && forall s | 0 <= s < |w.selects| :: v.selects[s].fallback == w.selects[s].fallback
  {
  }

  lemma NothingAdded(w: World, c: nat, v: World)
    requires |v.chans| == |w.chans| && |v.selects| == |w.selects| && |v.msgs| == |w.msgs|
    requires forall d | 0 <= d < |w.chans| :: v.chans[d].capacity == w.chans[d].capacity
    requires forall s | 0 <= s < |w.selects| :: v.selects[s].fallback == w.selects[s].fallback
    requires forall m | 0 <= m < |w.msgs| :: SameMessage(w.msgs[m], v.msgs[m])
    ensures Added(w, [Progress(c)], v)
  {
    hide Capacities, Fallbacks, Starts;
    assert CapacitiesOf(v) == CapacitiesOf(w) && FallbacksOf(v) == FallbacksOf(w) && CallsOf(v) == CallsOf(w);
    AskedOne(Progress(c));
  }

  lemma AdvanceAddsNothing(w: World, c: nat)
    requires Inv(w) && OpOk(w, c)
    ensures Added(w, [Progress(c)], Advance(w, c))
  {
    OperationIsOk(w, c);
    var e := Decide(w, c);
    ApplyConfined(w, c, e);
    hide Inv, Apply, Decide, ChanOk, Added;
    EffectKeepsCapacity(w, c, e);
    if e.Unlock? {
      UnlockKeepsFallbacks(w, c);
    } else {
      ApplyKeepsPhases(w, c, e);
    }
    NothingAdded(w, c, Advance(w, c));
  }

  lemma NewThingAdds(w: World, step: Step)
    requires Enabled(w, step) && (step.NewChannel? || step.NewSelect?)
    ensures Added(w, [step], Next(w, step))
  {
    hide Capacities, Fallbacks, Starts;
    AskedOne(step);
    var v := Next(w, step);
    assert CapacitiesOf(v) == CapacitiesOf(w) + if step.NewChannel? then [step.capacity] else [];
    assert FallbacksOf(v) == FallbacksOf(w) + if step.NewSelect? then [step.fallback] else [];
    assert CallsOf(v) == CallsOf(w);
  }

  lemma StartAdds(w: World, step: Step)
    requires Enabled(w, step) && step.Start?
    ensures Added(w, [step], Next(w, step))
  {
    hide Capacities, Fallbacks, Starts;
    AskedOne(step);
    var v := Next(w, step);
    assert CapacitiesOf(v) == CapacitiesOf(w) && FallbacksOf(v) == FallbacksOf(w);
    assert CallsOf(v) == CallsOf(w) + [step];
  }

  lemma OtherStepAddsNothing(w: World, step: Step)
    requires Enabled(w, step) && !step.Progress? && !step.NewChannel? && !step.NewSelect? && !step.Start?
    ensures Added(w, [step], Next(w, step))
  {
    hide Capacities, Fallbacks, Starts;
    AskedOne(step);
    var v := Next(w, step);
    assert CapacitiesOf(v) == CapacitiesOf(w) && FallbacksOf(v) == FallbacksOf(w) && CallsOf(v) == CallsOf(w);
  }

  lemma NextAdds(w: World, step: Step)
    requires Inv(w) && Enabled(w, step)
    ensures Added(w, [step], Next(w, step))
  {
    hide Inv, Added;
    if step.Progress? {
      AdvanceAddsNothing(w, step.chan);
    } else if step.NewChannel? || step.NewSelect? {
      NewThingAdds(w, step);
    } else if step.Start? {
      StartAdds(w, step);
    } else {
      OtherStepAddsNothing(w, step);
    }
  }

  // ---------- runs ----------

  lemma AskedCons(steps: seq<Step>)
    requires steps != []
    ensures Capacities(steps) == Capacities([steps[0]]) + Capacities(steps[1..])
    ensures Fallbacks(steps) == Fallbacks([steps[0]]) + Fallbacks(steps[1..])
    ensures Starts(steps) == Starts([steps[0]]) + Starts(steps[1..])
  {
    hide Capacities, Fallbacks, Starts;
    AskedFirst(steps);
    AskedOne(steps[0]);
  }

  lemma AddsFirst(w: World, steps: seq<Step>, u: World, v: World)
    requires steps != [] && Added(w, [steps[0]], u) && Added(u, steps[1..], v)
    ensures Added(w, steps, v)
  {
    hide Capacities, Fallbacks, Starts;
    AskedCons(steps);
  }

  /** In every run each channel has the capacity, each select the default, and each
      message the channel, role, case, value and mode that its call asked for. */
  lemma {:induction false} RunsAdd(w: World, steps: seq<Step>)
    requires Inv(w) && Runs(w, steps)
    ensures Added(w, steps, Execute(w, steps))
    decreases |steps|
  {
    hide Inv, Enabled, Next;
    if steps != [] {
      NextKeepsInv(w, steps[0]);
      NextAdds(w, steps[0]);
      RunsAdd(Next(w, steps[0]), steps[1..]);
      AddsFirst(w, steps, Next(w, steps[0]), Execute(w, steps));
    }
  }
}
