/** The consumers a simulation calls eligible, and those the live cascade does. */
module Eligibility {
  import opened Values
  import opened SignalGraph
  import opened Configuration
  import opened TransientState
  import opened LuaConversion
  import opened Engines
  import opened LogicBlocks
  import opened Cascades
  import opened CascadeOrder
  import opened PlanFacts
  import opened CascadeSafety
  import opened SignalAgreement
  import opened RuntimeEvents
  import opened RuntimeSafety
  import opened Simulation

  /** The consumers a simulation calls eligible: those whose block is enabled,
      whatever its health. */
  function EnabledConsumers(p: Plan, s: RuntimeState, consumers: seq<EndpointRef>, n: nat): seq<EndpointRef>
    requires |s.blocks| == |p.config.blocks| && n <= |consumers|
  {
    if n == 0 then []
    else
      var c := BlockPosition(p.config.blocks, consumers[n - 1].block);
      EnabledConsumers(p, s, consumers, n - 1) + if c.Some? && s.blocks[c.value].enabled then [consumers[n - 1]] else []
  }

  /** The eligible consumers a simulation reports for one output. */
  function EligibleFor(p: Plan, s: RuntimeState, block: BlockId, output: OutputEffect): seq<EndpointRef>
    requires |s.blocks| == |p.config.blocks| && |s.signals| == |p.config.signals| && Known(p, block)
  {
    var at := SignalOf(p, block, output.endpoint);
    if at.Some? && s.signals[at.value].value != Some(output.value) then
      var consumers := Consumers(p, p.config.signals[at.value].name);
      EnabledConsumers(p, s, consumers, |consumers|)
    else []
  }

  /** The eligible consumers a simulation reports for outputs `i..`. */
  ghost function SimulatedEligible(p: Plan, s: RuntimeState, block: BlockId, outputs: seq<OutputEffect>, i: nat): seq<EndpointRef>
    requires Shaped(p, s) && Known(p, block) && i <= |outputs|
    decreases |outputs| - i
  {
    if i == |outputs| then [] else EligibleFor(p, s, block, outputs[i]) + SimulatedEligible(p, s, block, outputs, i + 1)
  }

  // ----- one signal: exactly when the two lists are the same ---------------------------------

  /** The block behind a consumer is enabled but suspended. */
  predicate SuspendedConsumer(p: Plan, s: RuntimeState, r: EndpointRef)
    requires |s.blocks| == |p.config.blocks|
  {
    var c := BlockPosition(p.config.blocks, r.block);
    c.Some? && s.blocks[c.value].enabled && s.blocks[c.value].health != Active
  }

  /** The live list is never longer, and shorter as soon as a consumer is
      suspended. */
  lemma {:induction false} SuspendedConsumersAreMissing(p: Plan, s: RuntimeState, consumers: seq<EndpointRef>, n: nat)
    requires |s.blocks| == |p.config.blocks| && n <= |consumers|
    ensures |Eligible(p, s, consumers, n)| <= |EnabledConsumers(p, s, consumers, n)|
    ensures |Eligible(p, s, consumers, n)| == |EnabledConsumers(p, s, consumers, n)|
       <==> forall j :: 0 <= j < n ==> !SuspendedConsumer(p, s, consumers[j])
    ensures (forall j :: 0 <= j < n ==> !SuspendedConsumer(p, s, consumers[j]))
        ==> Eligible(p, s, consumers, n) == EnabledConsumers(p, s, consumers, n)
  {
    if n > 0 { SuspendedConsumersAreMissing(p, s, consumers, n - 1); }
  }

  /** For one output the simulation reports the consumers the live cascade calls
      eligible exactly when no consumer it lists is enabled but suspended. */
  lemma EligibleExactlyUnlessSuspended(p: Plan, s: RuntimeState, consumers: seq<EndpointRef>)
    requires |s.blocks| == |p.config.blocks|
    ensures Eligible(p, s, consumers, |consumers|) == EnabledConsumers(p, s, consumers, |consumers|)
       <==> forall r :: r in consumers ==> !SuspendedConsumer(p, s, r)
  {
    SuspendedConsumersAreMissing(p, s, consumers, |consumers|);
  }

  // ----- a whole root: the live list is contained in the simulated one ------------------------------

  lemma {:induction false} EligibleAreEnabled(p: Plan, s: RuntimeState, consumers: seq<EndpointRef>, n: nat)
    requires |s.blocks| == |p.config.blocks| && n <= |consumers|
    ensures multiset(Eligible(p, s, consumers, n)) <= multiset(EnabledConsumers(p, s, consumers, n))
  {
    if n > 0 {
      EligibleAreEnabled(p, s, consumers, n - 1);
      var c := BlockPosition(p.config.blocks, consumers[n - 1].block);
      var runs := if c.Some? && Runnable(s.blocks[c.value]) then [consumers[n - 1]] else [];
      var on := if c.Some? && s.blocks[c.value].enabled then [consumers[n - 1]] else [];
      ContainedTogether(Eligible(p, s, consumers, n - 1), EnabledConsumers(p, s, consumers, n - 1), runs, on);
    }
  }

  lemma ContainedTogether<T>(a: seq<T>, b: seq<T>, x: seq<T>, y: seq<T>)
    requires multiset(a) <= multiset(b) && multiset(x) <= multiset(y)
    ensures multiset(a + x) <= multiset(b + y)
  {
  }

  /** No block has been switched. */
  ghost predicate SameSwitches(s: RuntimeState, t: RuntimeState) {
    |s.blocks| == |t.blocks| && forall c :: 0 <= c < |s.blocks| ==> t.blocks[c].enabled == s.blocks[c].enabled
  }

  lemma {:induction false} EnabledFromSwitches(p: Plan, s: RuntimeState, t: RuntimeState, consumers: seq<EndpointRef>, n: nat)
    requires |s.blocks| == |p.config.blocks| && SameSwitches(s, t) && n <= |consumers|
    ensures EnabledConsumers(p, t, consumers, n) == EnabledConsumers(p, s, consumers, n)
  {
    if n > 0 { EnabledFromSwitches(p, s, t, consumers, n - 1); }
  }

  lemma {:induction false} SimulatedFromValues(p: Plan, s: RuntimeState, t: RuntimeState, block: BlockId, outputs: seq<OutputEffect>, i: nat)
    requires Shaped(p, s) && Shaped(p, t) && SameSwitches(s, t) && Known(p, block) && i <= |outputs|
    requires forall at :: at in PublishedAt(p, block, outputs, i) ==> t.signals[at].value == s.signals[at].value
    ensures SimulatedEligible(p, t, block, outputs, i) == SimulatedEligible(p, s, block, outputs, i)
    decreases |outputs| - i
  {
    hide Consumers, SameSwitches;
    if i < |outputs| {
      var at := SignalOf(p, block, outputs[i].endpoint);
      if at.Some? {
        assert at.value in PublishedAt(p, block, outputs, i);
        var consumers := Consumers(p, p.config.signals[at.value].name);
        EnabledFromSwitches(p, s, t, consumers, |consumers|);
      }
      assert PublishedAt(p, block, outputs, i + 1) <= PublishedAt(p, block, outputs, i);
      SimulatedFromValues(p, s, t, block, outputs, i + 1);
    }
  }

  lemma RecordedWithinSimulated(p: Plan, s: RuntimeState, block: BlockId, output: OutputEffect)
    requires Shaped(p, s) && Known(p, block)
    ensures multiset(RecordedEligible(p, s, block, output)) <= multiset(EligibleFor(p, s, block, output))
  {
    hide Consumers;
    var at := SignalOf(p, block, output.endpoint);
    if at.Some? {
      var consumers := Consumers(p, p.config.signals[at.value].name);
      EligibleAreEnabled(p, s, consumers, |consumers|);
    }
  }

  /** After one output, what is simulated for the later ones still stands. */
  lemma OutputWithinSimulated(p: Plan, rank: BlockId -> nat, s: RuntimeState, execs: seq<BlockExecution>, k: nat,
                              outputs: seq<OutputEffect>, i: nat, now: MonotonicMs, utc: Option<int>)
    requires Setting(p, View(rank, false), s, execs, k) && i < |outputs| && s.nextExecutionId <= U64_MAX
    requires OutputsTyped(ConfigOf(p, execs[k].block).endpoints, outputs)
    ensures var o, block := PropagateOutput(p, s, execs, k, outputs[i], now, utc), execs[k].block;
            && o.execs[k].execution.eligibleConsumers == execs[k].execution.eligibleConsumers + RecordedEligible(p, s, block, outputs[i])
            && o.s.nextExecutionId <= U64_MAX
            && (o.error.None? ==> SimulatedEligible(p, o.s, block, outputs, i + 1) == SimulatedEligible(p, s, block, outputs, i + 1))
  {
    hide PropagateOutput, ValidPlan, OutputsTyped, SimulatedEligible, Framed, RecordedEligible, Recorded;
    var block := execs[k].block;
    EachOutputTyped(ConfigOf(p, block).endpoints, outputs, i);
    OutputSettles(p, View(rank, false), s, execs, k, outputs[i], now, utc);
    OutputOrder(p, s, execs, k, outputs[i], now, utc);
    var o := PropagateOutput(p, s, execs, k, outputs[i], now, utc);
    if o.error.None? {
      LaterOutputsUntouched(p, View(rank, false), s, o.s, block, outputs, i);
      SimulatedFromValues(p, s, o.s, block, outputs, i + 1);
    }
  }

  lemma {:induction false} OutputsWithinSimulated(p: Plan, rank: BlockId -> nat, s: RuntimeState, execs: seq<BlockExecution>, k: nat,
                                                  outputs: seq<OutputEffect>, i: nat, now: MonotonicMs, utc: Option<int>)
    requires Setting(p, View(rank, false), s, execs, k) && i <= |outputs| && s.nextExecutionId <= U64_MAX
    requires OutputsTyped(ConfigOf(p, execs[k].block).endpoints, outputs)
    ensures var o := PropagateOutputs(p, s, execs, k, outputs, i, now, utc);
            o.error.None? ==> multiset(o.execs[k].execution.eligibleConsumers)
                              <= multiset(execs[k].execution.eligibleConsumers) + multiset(SimulatedEligible(p, s, execs[k].block, outputs, i))
    decreases |outputs| - i
  {
    hide PropagateOutput, ValidPlan, OutputsTyped, RecordedEligible, EligibleFor, Ranks, ConfigOf;
    if i < |outputs| {
      OutputWithinSimulated(p, rank, s, execs, k, outputs, i, now, utc);
      RecordedWithinSimulated(p, s, execs[k].block, outputs[i]);
      var o := PropagateOutput(p, s, execs, k, outputs[i], now, utc);
      if o.error.None? { OutputsWithinSimulated(p, rank, o.s, o.execs, k, outputs, i + 1, now, utc); }
    }
  }

  /** The root of a successful cascade records no more consumers as eligible
      than are simulated for the state it started from. */
  lemma RootWithinSimulated(p: Plan, rank: BlockId -> nat, checkpoint: RuntimeState, s: RuntimeState, x: BlockExecution, now: MonotonicMs, utc: Option<int>)
    requires SoundPlan(p, rank) && FullInv(p, checkpoint) && Evolves(p, checkpoint, s, now) && ExecOk(p, x)
    requires x.execution.eligibleConsumers == [] && s.signals == checkpoint.signals
    ensures var r := Follow(p, checkpoint, s, x, now, utc);
            r.result.Ok? && r.result.value != [] && x.execution.outcome.Ok? ==>
              multiset(r.result.value[0].execution.eligibleConsumers)
              <= multiset(SimulatedEligible(p, checkpoint, x.block, x.execution.outcome.value.outputs, 0))
  {
    hide ValidPlan, Ranks, PropagateOutputs, BlocksOk, SignalsOk, CascadesWithin, UsageError, SimulatedEligible, OutputsTyped;
    RootCompletes(p, rank, checkpoint, s, x, now, utc);
    assert [x][0] == x;
    if x.execution.outcome.Ok? {
      var outputs := x.execution.outcome.value.outputs;
      OutputsWithinSimulated(p, rank, s, [x], 0, outputs, 0, now, utc);
      EvolvesKeepsSwitches(p, checkpoint, s, now);
      SimulatedFromValues(p, checkpoint, s, x.block, outputs, 0);
    }
  }

  lemma EvolvesKeepsSwitches(p: Plan, s: RuntimeState, t: RuntimeState, now: MonotonicMs)
    requires Shaped(p, s) && Evolves(p, s, t, now)
    ensures SameSwitches(s, t)
  {
    forall c | 0 <= c < |s.blocks| ensures t.blocks[c].enabled == s.blocks[c].enabled {
      assert BlockEvolves(s.blocks[c], t.blocks[c], now);
    }
  }

  /** The consumers the root of a live cascade records as eligible are among
      those the simulation of the same input reports. */
  lemma LiveEligibleWithinSimulated(p: Plan, rank: BlockId -> nat, s: RuntimeState, c: nat, endpoint: EndpointName, value: TypedValue,
                                    timers: seq<PendingTimer>, now: MonotonicMs)
    requires SoundPlan(p, rank) && FullInv(p, s) && c < |s.blocks| && Lists(timers, s.blocks[c].engine.timers)
    requires ValidateInput(p.config.blocks[c].endpoints, endpoint, value).Ok? && !Earlier(s, now)
    ensures var endpoints, e, id := p.config.blocks[c].endpoints, s.blocks[c].engine, p.config.blocks[c].id;
            var scenario := LiveScenario(endpoints, e, ValidateInput(endpoints, endpoint, value).value, value, now);
            var sim := Simulated(p.host, endpoints, e.logic, scenario, e.state, timers, now);
            var r := InputEvent(p, s, id, endpoint, TriggerWith(value), now, None);
            r.result.Ok? && r.result.value != [] && sim.outcome.Ok? ==>
              multiset(r.result.value[0].execution.eligibleConsumers) <= multiset(SimulatedEligible(p, s, id, sim.outcome.value.outputs, 0))
  {
    hide UpdateBlock, Follow, Simulated, ScenarioAccepted, BlocksOk, SignalsOk, CascadesWithin, Ranks, LiveScenario, Lists;
    hide SimulatedEligible, ExecutionOk, StateTotal, TimersTotal, BlockAccepted, Evolves;
    var id := p.config.blocks[c].id;
    BlockChecked(p, c);
    assert DistinctEndpoints(p.config.blocks[c].endpoints) by { AcceptedEndpoints(p, c); }
    BlockAt(p, c);
    RootsAreKnown(p, s);
    UpdateRootSafe(p, s, id, endpoint, TriggerWith(value), now, None);
    RootIsSimulated(p, s, c, endpoint, value, timers, now);
    var root := UpdateRoot(p, s, id, endpoint, TriggerWith(value), now, None);
    if root.result.Ok? && root.result.value.Some? {
      RootNamesItsBlock(p, s, c, endpoint, value, now);
      RootWithinSimulated(p, rank, s, root.s, root.result.value.value, now, None);
    }
  }

  // ----- a whole root: exactly when the two lists are the same -----------------------------------------

  ghost predicate NoneSuspended(p: Plan, s: RuntimeState, listed: seq<EndpointRef>)
    requires |s.blocks| == |p.config.blocks|
  {
    forall r :: r in listed ==> !SuspendedConsumer(p, s, r)
  }

  lemma NoneSuspendedTogether(p: Plan, s: RuntimeState, a: seq<EndpointRef>, b: seq<EndpointRef>)
    requires |s.blocks| == |p.config.blocks|
    ensures NoneSuspended(p, s, a + b) <==> NoneSuspended(p, s, a) && NoneSuspended(p, s, b)
  {
    forall r | r in a + b ensures r in a || r in b {}
    forall r | r in a || r in b ensures r in a + b {}
  }

  lemma {:induction false} ConsumersMissed(p: Plan, s: RuntimeState, consumers: seq<EndpointRef>, n: nat)
    requires |s.blocks| == |p.config.blocks| && n <= |consumers|
    ensures var enabled := EnabledConsumers(p, s, consumers, n);
            if NoneSuspended(p, s, enabled) then Eligible(p, s, consumers, n) == enabled
            else |Eligible(p, s, consumers, n)| < |enabled|
  {
    if n > 0 {
      ConsumersMissed(p, s, consumers, n - 1);
      var c := BlockPosition(p.config.blocks, consumers[n - 1].block);
      var on := if c.Some? && s.blocks[c.value].enabled then [consumers[n - 1]] else [];
      NoneSuspendedTogether(p, s, EnabledConsumers(p, s, consumers, n - 1), on);
      if on != [] { assert on[0] in on; }
    }
  }

  lemma RecordedExactly(p: Plan, s: RuntimeState, block: BlockId, output: OutputEffect)
    requires Shaped(p, s) && Known(p, block)
    ensures var listed := EligibleFor(p, s, block, output);
            if NoneSuspended(p, s, listed) then RecordedEligible(p, s, block, output) == listed
            else |RecordedEligible(p, s, block, output)| < |listed|
  {
    hide Consumers;
    var at := SignalOf(p, block, output.endpoint);
    if at.Some? {
      var consumers := Consumers(p, p.config.signals[at.value].name);
      ConsumersMissed(p, s, consumers, |consumers|);
    }
  }

  /** When each output is followed, no consumer listed for it is suspended. */
  ghost predicate NoneSuspendedAlong(p: Plan, s: RuntimeState, execs: seq<BlockExecution>, k: nat, outputs: seq<OutputEffect>, i: nat,
                                     now: MonotonicMs, utc: Option<int>)
    requires Shaped(p, s) && k < |execs| && Known(p, execs[k].block) && i <= |outputs|
    decreases |outputs| - i
  {
    i == |outputs| ||
    (&& NoneSuspended(p, s, EligibleFor(p, s, execs[k].block, outputs[i]))
     && var o := PropagateOutput(p, s, execs, k, outputs[i], now, utc);
        NoneSuspendedAlong(p, o.s, o.execs, k, outputs, i + 1, now, utc))
  }

  /** A block that is suspended stays so during a cascade. */
  lemma SuspensionStays(p: Plan, s: RuntimeState, t: RuntimeState, listed: seq<EndpointRef>)
    requires |s.blocks| == |p.config.blocks| && StillRunnable(s, t) && NoneSuspended(p, t, listed)
    ensures NoneSuspended(p, s, listed)
  {
    forall r | r in listed ensures !SuspendedConsumer(p, s, r) {
      assert !SuspendedConsumer(p, t, r);
      var c := BlockPosition(p.config.blocks, r.block);
      if c.Some? && s.blocks[c.value].enabled { assert Runnable(t.blocks[c.value]); }
    }
  }

  /** The lists are the same exactly if none is suspended along the way. */
  ghost predicate ListsAgreeAlong(p: Plan, s: RuntimeState, t: RuntimeState, before: seq<EndpointRef>, recorded: seq<EndpointRef>,
                                  simulated: seq<EndpointRef>, along: bool)
    requires |s.blocks| == |p.config.blocks|
  {
    && StillRunnable(s, t)
    && (if along then recorded == before + simulated else |recorded| < |before| + |simulated|)
    && (NoneSuspended(p, t, simulated) ==> along)
    && (along ==> NoneSuspended(p, s, simulated))
  }

  /** One output and then the later ones. */
  lemma AgreeTogether(p: Plan, s: RuntimeState, t: RuntimeState, u: RuntimeState, before: seq<EndpointRef>, one: seq<EndpointRef>, listed: seq<EndpointRef>,
                      recorded: seq<EndpointRef>, later: seq<EndpointRef>, along: bool)
    requires |s.blocks| == |p.config.blocks| && StillRunnable(s, t)
    requires if NoneSuspended(p, s, listed) then one == listed else |one| < |listed|
    requires |t.blocks| == |p.config.blocks| && ListsAgreeAlong(p, t, u, before + one, recorded, later, along)
    ensures ListsAgreeAlong(p, s, u, before, recorded, listed + later, NoneSuspended(p, s, listed) && along)
  {
    hide NoneSuspended, StillRunnable;
    StillRunnableTwice(s, t, u);
    StillRunnableSizes(s, u);
    NoneSuspendedTogether(p, u, listed, later);
    NoneSuspendedTogether(p, s, listed, later);
    if NoneSuspended(p, u, listed) { SuspensionStays(p, s, u, listed); }
    if along { SuspensionStays(p, s, t, later); }
    assert before + listed + later == before + (listed + later);
  }

  lemma StillRunnableSizes(s: RuntimeState, t: RuntimeState)
    requires StillRunnable(s, t)
    ensures |s.blocks| == |t.blocks|
  {
  }

  lemma OutputStays(p: Plan, s: RuntimeState, execs: seq<BlockExecution>, k: nat, output: OutputEffect, now: MonotonicMs, utc: Option<int>)
    requires Shaped(p, s) && k < |execs| && Known(p, execs[k].block) && s.nextExecutionId <= U64_MAX
    ensures StillRunnable(s, PropagateOutput(p, s, execs, k, output, now, utc).s)
  {
    hide PropagateOutput, StillRunnable;
    OutputOrder(p, s, execs, k, output, now, utc);
  }

  lemma {:induction false} OutputsExactly(p: Plan, rank: BlockId -> nat, s: RuntimeState, execs: seq<BlockExecution>, k: nat,
                                          outputs: seq<OutputEffect>, i: nat, now: MonotonicMs, utc: Option<int>)
    requires Setting(p, View(rank, false), s, execs, k) && i <= |outputs| && s.nextExecutionId <= U64_MAX
    requires OutputsTyped(ConfigOf(p, execs[k].block).endpoints, outputs)
    ensures var o := PropagateOutputs(p, s, execs, k, outputs, i, now, utc);
            o.error.None? ==> ListsAgreeAlong(p, s, o.s, execs[k].execution.eligibleConsumers, o.execs[k].execution.eligibleConsumers,
                                              SimulatedEligible(p, s, execs[k].block, outputs, i),
                                              NoneSuspendedAlong(p, s, execs, k, outputs, i, now, utc))
    decreases |outputs| - i
  {
    hide PropagateOutput, ValidPlan, OutputsTyped, RecordedEligible, EligibleFor, Ranks, ConfigOf, NoneSuspended, ListsAgreeAlong, StillRunnable;
    if i == |outputs| {
      NothingAgrees(p, s, execs[k].execution.eligibleConsumers);
    } else {
      OutputWithinSimulated(p, rank, s, execs, k, outputs, i, now, utc);
      RecordedExactly(p, s, execs[k].block, outputs[i]);
      OutputStays(p, s, execs, k, outputs[i], now, utc);
      var o := PropagateOutput(p, s, execs, k, outputs[i], now, utc);
      if o.error.None? {
        assert o.execs[k].block == execs[k].block;
        OutputsExactly(p, rank, o.s, o.execs, k, outputs, i + 1, now, utc);
        var rest := PropagateOutputs(p, o.s, o.execs, k, outputs, i + 1, now, utc);
        if rest.error.None? {
          AgreeTogether(p, s, o.s, rest.s, execs[k].execution.eligibleConsumers,
                        RecordedEligible(p, s, execs[k].block, outputs[i]), EligibleFor(p, s, execs[k].block, outputs[i]),
                        rest.execs[k].execution.eligibleConsumers, SimulatedEligible(p, s, execs[k].block, outputs, i + 1),
                        NoneSuspendedAlong(p, o.s, o.execs, k, outputs, i + 1, now, utc));
        }
      }
    }
  }

  lemma NothingAgrees(p: Plan, s: RuntimeState, before: seq<EndpointRef>)
    requires |s.blocks| == |p.config.blocks|
    ensures ListsAgreeAlong(p, s, s, before, before, [], true)
  {
  }

  /** The same for a followed root. */
  lemma RootExactly(p: Plan, rank: BlockId -> nat, checkpoint: RuntimeState, s: RuntimeState, x: BlockExecution, now: MonotonicMs, utc: Option<int>)
    requires SoundPlan(p, rank) && FullInv(p, checkpoint) && Evolves(p, checkpoint, s, now) && ExecOk(p, x)
    requires x.execution.eligibleConsumers == [] && s.signals == checkpoint.signals && x.execution.outcome.Ok?
    ensures var r, outputs := Follow(p, checkpoint, s, x, now, utc), x.execution.outcome.value.outputs;
            r.result.Ok? ==>
              && r.result.value != []
              && ListsAgreeAlong(p, s, r.s, [], r.result.value[0].execution.eligibleConsumers, SimulatedEligible(p, checkpoint, x.block, outputs, 0),
                                 NoneSuspendedAlong(p, s, [x], 0, outputs, 0, now, utc))
  {
    hide ValidPlan, Ranks, PropagateOutputs, BlocksOk, SignalsOk, CascadesWithin, UsageError, SimulatedEligible, OutputsTyped, ListsAgreeAlong, NoneSuspendedAlong;
    RootCompletes(p, rank, checkpoint, s, x, now, utc);
    assert [x][0] == x;
    var outputs := x.execution.outcome.value.outputs;
    OutputsExactly(p, rank, s, [x], 0, outputs, 0, now, utc);
    EvolvesKeepsSwitches(p, checkpoint, s, now);
    SimulatedFromValues(p, checkpoint, s, x.block, outputs, 0);
  }

  /** A root that starts an execution makes no block runnable. */
  lemma RootStays(p: Plan, s: RuntimeState, c: nat, endpoint: EndpointName, value: TypedValue, now: MonotonicMs)
    requires Shaped(p, s) && c < |s.blocks|
    ensures var root := UpdateBlock(p, s, c, endpoint, TriggerWith(value), now, None);
            root.result.Ok? && root.result.value.Some? ==> StillRunnable(s, root.s)
  {
    hide Evaluate, ValidateUpdate;
  }

  /** The list a live root records equals the simulated one exactly if no
      listed consumer is suspended when its output is followed. It is the same
      if none is suspended after the event, and only if none was before. */
  lemma LiveEligibleExactly(p: Plan, rank: BlockId -> nat, s: RuntimeState, c: nat, endpoint: EndpointName, value: TypedValue,
                            timers: seq<PendingTimer>, now: MonotonicMs)
    requires SoundPlan(p, rank) && FullInv(p, s) && c < |s.blocks| && Lists(timers, s.blocks[c].engine.timers)
    requires ValidateInput(p.config.blocks[c].endpoints, endpoint, value).Ok? && !Earlier(s, now)
    ensures var endpoints, e, id := p.config.blocks[c].endpoints, s.blocks[c].engine, p.config.blocks[c].id;
            var scenario := LiveScenario(endpoints, e, ValidateInput(endpoints, endpoint, value).value, value, now);
            var sim := Simulated(p.host, endpoints, e.logic, scenario, e.state, timers, now);
            var root := UpdateRoot(p, s, id, endpoint, TriggerWith(value), now, None);
            var r := InputEvent(p, s, id, endpoint, TriggerWith(value), now, None);
            r.result.Ok? && r.result.value != [] && sim.outcome.Ok? ==>
              var outputs := sim.outcome.value.outputs;
              var simulated := SimulatedEligible(p, s, id, outputs, 0);
              var same := r.result.value[0].execution.eligibleConsumers == simulated;
              && root.result.Ok? && root.result.value.Some? && root.result.value.value.block == id
              && (same <==> NoneSuspendedAlong(p, root.s, [root.result.value.value], 0, outputs, 0, now, None))
              && (NoneSuspended(p, r.s, simulated) ==> same) && (same ==> NoneSuspended(p, s, simulated))
  {
    hide UpdateBlock, Follow, Simulated, ScenarioAccepted, BlocksOk, SignalsOk, CascadesWithin, Ranks, LiveScenario, Lists;
    hide SimulatedEligible, ExecutionOk, StateTotal, TimersTotal, BlockAccepted, Evolves;
    hide NoneSuspendedAlong, NoneSuspended, StillRunnable;
    var id := p.config.blocks[c].id;
    BlockChecked(p, c);
    assert DistinctEndpoints(p.config.blocks[c].endpoints) by { AcceptedEndpoints(p, c); }
    BlockAt(p, c);
    RootsAreKnown(p, s);
    UpdateRootSafe(p, s, id, endpoint, TriggerWith(value), now, None);
    RootIsSimulated(p, s, c, endpoint, value, timers, now);
    var root := UpdateRoot(p, s, id, endpoint, TriggerWith(value), now, None);
    if root.result.Ok? && root.result.value.Some? && root.result.value.value.execution.outcome.Ok? {
      RootNamesItsBlock(p, s, c, endpoint, value, now);
      RootExactly(p, rank, s, root.s, root.result.value.value, now, None);
      RootStays(p, s, c, endpoint, value, now);
      var simulated := SimulatedEligible(p, s, id, root.result.value.value.execution.outcome.value.outputs, 0);
      if NoneSuspended(p, root.s, simulated) { SuspensionStays(p, s, root.s, simulated); }
    }
  }
}
