/** A run after which a simulation reports a consumer as eligible that the live
    cascade of the same input does not: the consumer has failed five times and
    is suspended. */
module SuspendedConsumers {
  import opened Values
  import opened SignalGraph
  import opened ScheduleRules
  import opened Configuration
  import opened Topology
  import opened TransientState
  import opened LuaConversion
  import opened Engines
  import opened LogicBlocks
  import opened Cascades
  import opened CascadeOrder
  import opened PlanFacts
  import opened CascadeSafety
  import opened RuntimeEvents
  import opened RuntimeSafety
  import opened RuntimeRuns
  import opened Activation
  import opened Simulation
  import opened Eligibility

  // ----- a handler that fails --------------------------------------------------------------------

  /** The handler of the block with these endpoints always fails. */
  ghost predicate Fails(host: Host, endpoints: seq<Endpoint>) {
    forall call: HandlerCall :: call.endpoints == endpoints ==> host.handler(call) == Raised(RuntimeFailure)
  }

  lemma FailingUpdate(host: Host, endpoints: seq<Endpoint>, e: EngineState, name: EndpointName, value: TypedValue, now: MonotonicMs)
    requires EngineInv(host.limits, endpoints, e) && Fails(host, endpoints)
    requires ValidateInput(endpoints, name, value).Ok? && NotAfter(e.lastAcceptedAt, Some(now))
    ensures var step := ProcessUpdate(host, endpoints, e, name, TriggerWith(value), now, None);
            && step.result.Ok? && step.result.value.Some? && step.result.value.value.outcome == Err(RuntimeFailure)
            && step.engine.state == e.state && step.engine.timers == e.timers && step.engine.logic == e.logic
  {
  }

  /** The block that `failures` failures and starts leave behind. */
  ghost predicate Failed(b: BlockState, failures: nat) {
    && b.enabled && |b.window| <= failures
    && if failures < FAILURE_SUSPENSION_THRESHOLD then b.health == Active && b.failures == failures else b.health == SuspendedScriptFailures
  }

  /** What such a trigger's root leaves behind. */
  ghost predicate FailedRoot(p: Plan, s: RuntimeState, root: Root, c: nat, failures: nat)
    requires Shaped(p, s) && c < |s.blocks|
  {
    && root.result.Ok? && root.result.value.Some? && root.result.value.value.execution.outcome.Err?
    && root.s.signals == s.signals && |root.s.blocks| == |s.blocks|
    && (forall i :: 0 <= i < |s.blocks| && i != c ==> root.s.blocks[i] == s.blocks[i])
    && Lighter(s.blocks[c], root.s.blocks[c]) && root.s.blocks[c].engine.logic == s.blocks[c].engine.logic
    && Failed(root.s.blocks[c], failures)
  }

  lemma RootFails(p: Plan, s: RuntimeState, c: nat, endpoint: EndpointName, value: TypedValue, now: MonotonicMs, failures: nat)
    requires FullInv(p, s) && c < |s.blocks| && !Earlier(s, now) && Fails(p.host, p.config.blocks[c].endpoints)
    requires ValidateInput(p.config.blocks[c].endpoints, endpoint, value).Ok?
    requires Failed(s.blocks[c], failures) && failures < FAILURE_SUSPENSION_THRESHOLD <= p.host.limits.maxLiveExecutionsPerBlockPerSecond
    ensures FailedRoot(p, s, UpdateBlock(p, s, c, endpoint, TriggerWith(value), now, None), c, failures + 1)
  {
    hide ProcessUpdate, EngineInv, InputsOk, SignalOk, StateTotal, TimersTotal, Fails, SignalsOk, ValidateInput;
    ClockAdvances(p, s, now);
    BlockAtInv(p, At(s, now), c);
    var b := Admit(s.blocks[c], now, p.host.limits.maxLiveExecutionsPerBlockPerSecond).0;
    FailingUpdate(p.host, p.config.blocks[c].endpoints, b.engine, endpoint, value, now);
  }

  /** One more trigger of such a block fails once more and changes nothing
      else that matters. */
  lemma FailsAgain(p: Plan, rank: BlockId -> nat, s: RuntimeState, c: nat, endpoint: EndpointName, value: TypedValue, now: MonotonicMs, failures: nat)
    requires SoundPlan(p, rank) && FullInv(p, s) && c < |s.blocks| && !Earlier(s, now) && Fails(p.host, p.config.blocks[c].endpoints)
    requires ValidateInput(p.config.blocks[c].endpoints, endpoint, value).Ok?
    requires Failed(s.blocks[c], failures) && failures < FAILURE_SUSPENSION_THRESHOLD <= p.host.limits.maxLiveExecutionsPerBlockPerSecond
    requires SourceTotal(s.blocks) <= p.host.limits.maxLogicSourceBytesTotal
    ensures var t := Step(p, s, DriveInput(p.config.blocks[c].id, endpoint, TriggerWith(value), now, None));
            && FullInv(p, t) && t.signals == s.signals && t.lastAcceptedAt == Some(now)
            && (forall i :: 0 <= i < |s.blocks| && i != c ==> t.blocks[i] == s.blocks[i])
            && SourceTotal(t.blocks) == SourceTotal(s.blocks) && Failed(t.blocks[c], failures + 1)
  {
    hide UpdateBlock, StateTotal, TimersTotal, SourceTotal, Ranks, CascadesWithin, Fails, BlocksOk, SignalsOk, ValidateInput, BlockAccepted, Lighter, Failed;
    var id := p.config.blocks[c].id;
    BlockAt(p, c);
    RootFails(p, s, c, endpoint, value, now, failures);
    UpdateRootSafe(p, s, id, endpoint, TriggerWith(value), now, None);
    RootsAreKnown(p, s);
    var root := UpdateRoot(p, s, id, endpoint, TriggerWith(value), now, None);
    LighterBlock(p, s, root.s, c);
    SameProgramsSameTotal(s.blocks, root.s.blocks);
  }

  // ----- the example --------------------------------------------------------------------------------

  const PRODUCING: seq<Endpoint> := [Endpoint(0, Input, DPT_BOOL), Endpoint(1, Output, DPT_BOOL)]
  const CONSUMING: seq<Endpoint> := [Endpoint(0, Input, DPT_BOOL), Endpoint(1, Input, DPT_BOOL)]

  function Producer(logic: LogicProgram): BlockConfig { BlockConfig(0, true, PRODUCING, logic, [], [SignalBinding(1, 0)]) }

  function Consumer(logic: LogicProgram): BlockConfig { BlockConfig(1, true, CONSUMING, logic, [], [SignalBinding(0, 0)]) }

  function Pair(logic: LogicProgram): seq<BlockConfig> { [Producer(logic), Consumer(logic)] }

  /** One signal between two blocks. */
  function PairPlan(host: Host, sandbox: Sandbox, source: seq<char>): Plan {
    Plan(RuntimeConfig(Pair(LogicProgram(source, sandbox.revisionFor(source))), [SignalConfig(0, DPT_BOOL)], Site(None)), host, sandbox)
  }

  /** What the producer's handler returns: `true` on the output called `name`. */
  function Produced(name: seq<char>): Lua { LuaTable([(LuaString("outputs"), LuaTable([(LuaString(name), LuaBoolean(true))]))]) }

  /** A desktop host whose producer drives its output, and whose consumer
      fails. */
  ghost predicate Drives(host: Host, name: seq<char>) {
    && host.limits == DESKTOP && host.naming.endpoint(name) == Some(1)
    && (forall call: HandlerCall :: call.endpoints == PRODUCING ==> host.handler(call) == Returned([Produced(name)]))
    && Fails(host, CONSUMING)
  }

  ghost predicate Loadable(sandbox: Sandbox, source: seq<char>) {
    sandbox.loads(source) && |source| <= DESKTOP.maxLogicSourceBytesPerBlock
  }

  function ProducerFirst(): BlockId -> nat { (id: BlockId) => if id == 0 then 1 else 0 }

  lemma PairBindings(logic: LogicProgram)
    ensures Bindings(Pair(logic)) == [Bound(0, 1, true, 0), Bound(1, 0, false, 0)]
  {
    var blocks, producer, consumer := Pair(logic), Producer(logic), Consumer(logic);
    assert EndpointPosition(producer.endpoints, 1) == Some(1) && EndpointPosition(consumer.endpoints, 0) == Some(0);
    assert producer.bindings[0] == SignalBinding(1, 0) && consumer.bindings[0] == SignalBinding(0, 0);
    assert BoundAt(producer, 0) == Bound(0, 1, true, 0) && BoundAt(consumer, 0) == Bound(1, 0, false, 0);
    assert BoundOf(producer, 0) == [] && BoundOf(consumer, 0) == [];
    assert BoundOf(producer, 1) == [Bound(0, 1, true, 0)] && BoundOf(consumer, 1) == [Bound(1, 0, false, 0)];
    assert AllBound(blocks, 0) == [] && AllBound(blocks, 1) == [Bound(0, 1, true, 0)];
  }

  lemma PairGraph(logic: LogicProgram)
    ensures BlockEdges(Pair(logic)) == map[0 := [1]]
    ensures ConsumersIn(Bindings(Pair(logic)), 0) == [EndpointRef(1, 0)]
  {
    PairBindings(logic);
    var bound, first := [Bound(0, 1, true, 0), Bound(1, 0, false, 0)], [Bound(0, 1, true, 0)];
    assert bound[..1] == first && first[..0] == [];
    assert ProducersIn(first) == map[0 := EndpointRef(0, 1)];
    assert ProducersIn(bound) == map[0 := EndpointRef(0, 1)];
    assert EdgesIn(first[..0], map[0 := EndpointRef(0, 1)]) == map[];
    assert EdgesIn(first, map[0 := EndpointRef(0, 1)]) == map[];
    assert Children(map[], 0) + [1] == [1];
    assert ConsumersIn(first, 0) == [];
  }

  lemma PairBlocks(sandbox: Sandbox, source: seq<char>)
    requires Loadable(sandbox, source)
    ensures var logic := LogicProgram(source, sandbox.revisionFor(source));
            && BlockAccepted(Producer(logic), DESKTOP, sandbox) && BlockAccepted(Consumer(logic), DESKTOP, sandbox)
            && BindingsTyped(Producer(logic), [SignalConfig(0, DPT_BOOL)]) && BindingsTyped(Consumer(logic), [SignalConfig(0, DPT_BOOL)])
  {
    assert PRODUCING[1..] == [Endpoint(1, Output, DPT_BOOL)];
  }

  /** The producer's cascade is the producer and its consumer. */
  lemma PairCascades(t: Tree)
    requires Unfolds(map[0 := [1]], t)
    ensures NodeCount(t) <= 2
  {
    if t.id == 0 {
      var child := t.children[0];
      assert t.children == [child] && child.children == [];
      assert NodeCounts([child]) == NodeCount(child) + NodeCounts([child][1..]);
    }
  }

  lemma PairCounts(logic: LogicProgram)
    ensures BindingCount(Pair(logic), 2) == 2 && SourceBytes(Pair(logic), 2) == 2 * |logic.source|
  {
    var blocks := Pair(logic);
    assert BindingCount(blocks, 1) == 1;
    assert SourceBytes(blocks, 0) == 0;
    assert SourceBytes(blocks, 1) == |logic.source|;
  }

  lemma PairAccepted(host: Host, sandbox: Sandbox, source: seq<char>)
    requires host.limits == DESKTOP && Loadable(sandbox, source)
    ensures var p := PairPlan(host, sandbox, source); Accepted(p.config, DESKTOP, sandbox) && SoundPlan(p, ProducerFirst())
  {
    var p := PairPlan(host, sandbox, source);
    var logic := LogicProgram(source, sandbox.revisionFor(source));
    PairBindings(logic);
    PairGraph(logic);
    PairBlocks(sandbox, source);
    PairCounts(logic);
    RankedIsAcyclic(EdgesOf(p), ProducerFirst());
    forall t | Unfolds(EdgesOf(p), t) ensures NodeCount(t) <= 2 { PairCascades(t); }
    hide BlockAccepted, BindingsTyped, Bindings, BlockEdges, Acyclic, Unfolds, NodeCount, BindingCount, SourceBytes;
  }

  lemma PairIs(host: Host, sandbox: Sandbox, source: seq<char>)
    requires host.limits == DESKTOP && Loadable(sandbox, source)
    ensures var p := PairPlan(host, sandbox, source);
            && SoundPlan(p, ProducerFirst()) && DistinctBlocks(p.config.blocks) && p.host == host && |p.config.blocks| == 2
            && BlockPosition(p.config.blocks, 0) == Some(0) && BlockPosition(p.config.blocks, 1) == Some(1)
            && p.config.blocks[0].id == 0 && p.config.blocks[0].endpoints == PRODUCING && p.config.blocks[0].enabled
            && p.config.blocks[1].id == 1 && p.config.blocks[1].endpoints == CONSUMING
  {
    PairAccepted(host, sandbox, source);
  }

  // ----- the run ---------------------------------------------------------------------------------------

  /** Five triggers of the consumer at its second input, which is not bound to a
      signal. */
  function FiveTriggers(): seq<HostCall> { seq(5, _ => Trigger()) }

  function Trigger(): HostCall { DriveInput(1, 1, TriggerWith(BoolValue(true)), 0, None) }

  ghost function StateAfter(p: Plan, n: nat): (s: RuntimeState)
    requires DistinctBlocks(p.config.blocks)
    ensures Shaped(p, s)
  {
    if n == 0 then InitialState(p) else Step(p, StateAfter(p, n - 1), Trigger())
  }

  /** The consumer has failed `n` times and nothing else has happened. */
  ghost predicate OnlyFailed(p: Plan, s: RuntimeState, n: nat) {
    && |p.config.blocks| == |s.blocks| == 2 && FullInv(p, s) && Failed(s.blocks[1], n)
    && s.blocks[0] == InitialState(p).blocks[0] && s.signals == InitialState(p).signals
    && (s.lastAcceptedAt.Some? ==> s.lastAcceptedAt.value == 0)
    && SourceTotal(s.blocks) <= DESKTOP.maxLogicSourceBytesTotal
  }

  lemma FailsOnceMore(p: Plan, s: RuntimeState, n: nat)
    requires n < 5 && SoundPlan(p, ProducerFirst()) && p.host.limits == DESKTOP && Fails(p.host, CONSUMING) && OnlyFailed(p, s, n)
    requires p.config.blocks[1].id == 1 && p.config.blocks[1].endpoints == CONSUMING
    ensures OnlyFailed(p, Step(p, s, Trigger()), n + 1)
  {
    hide FullInv, Step, SourceTotal, Failed, SoundPlan, ValidateInput, InitialState, Fails;
    SecondInput();
    FailsAgain(p, ProducerFirst(), s, 1, 1, BoolValue(true), 0, n);
  }

  lemma {:induction false} FailsEachTime(host: Host, sandbox: Sandbox, source: seq<char>, n: nat)
    requires n <= 5 && host.limits == DESKTOP && Fails(host, CONSUMING) && Loadable(sandbox, source)
    ensures var p := PairPlan(host, sandbox, source); DistinctBlocks(p.config.blocks) && OnlyFailed(p, StateAfter(p, n), n)
  {
    var p := PairPlan(host, sandbox, source);
    PairIs(host, sandbox, source);
    hide OnlyFailed, Step, SoundPlan, InitialState, Fails, PairPlan, Shaped, DistinctBlocks;
    if n == 0 {
      FailsNotYet(host, sandbox, source);
    } else {
      FailsEachTime(host, sandbox, source, n - 1);
      FailsOnceMore(p, StateAfter(p, n - 1), n - 1);
    }
  }

  lemma SecondInput()
    ensures ValidateInput(CONSUMING, 1, BoolValue(true)).Ok?
  {
    assert EndpointPosition(CONSUMING, 1) == Some(1);
  }

  lemma FailsNotYet(host: Host, sandbox: Sandbox, source: seq<char>)
    requires host.limits == DESKTOP && Loadable(sandbox, source)
    ensures var p := PairPlan(host, sandbox, source); OnlyFailed(p, InitialState(p), 0)
  {
    var p := PairPlan(host, sandbox, source);
    InitialSafe(p);
    var blocks := InitialState(p).blocks;
    TwoSources(blocks);
  }

  lemma TwoSources(blocks: seq<BlockState>)
    requires |blocks| == 2
    ensures SourceTotal(blocks) == |blocks[0].engine.logic.source| + |blocks[1].engine.logic.source|
  {
    assert SourceTotal(blocks[..1][..0]) == 0;
    assert SourceTotal(blocks[..1]) == |blocks[0].engine.logic.source|;
  }

  // ----- the producer's input -------------------------------------------------------------------------

  const DRIVEN: OutputEffect := OutputEffect(1, BoolValue(true))

  lemma OutputConverts(naming: Naming, name: seq<char>)
    requires naming.endpoint(name) == Some(1)
    ensures ConvertedOutputs(PRODUCING, naming, Some([(LuaString(name), LuaBoolean(true))])) == Some([DRIVEN])
  {
    var entry := (LuaString(name), LuaBoolean(true));
    assert PRODUCING[1..] == [Endpoint(1, Output, DPT_BOOL)];
    assert EndpointPosition(PRODUCING[1..], 1) == Some(0);
    assert EndpointPosition(PRODUCING, 1) == Some(1);
    assert ToTyped(DPT_BOOL, LuaBoolean(true)) == Some(BoolValue(true));
    var slots: Slots := [None, Some(BoolValue(true))];
    assert EmptySlots(2)[1 := Some(BoolValue(true))] == slots;
    assert TakeOutput(PRODUCING, naming, EmptySlots(2), entry) == Some(slots);
    assert TakeOutputs(PRODUCING, naming, EmptySlots(2), [entry]) == Some(slots);
    assert FilledOutputs(PRODUCING, slots, 0) == [];
    assert FilledOutputs(PRODUCING, slots, 1) == [];
    assert FilledOutputs(PRODUCING, slots, 2) == [DRIVEN];
  }

  /** The producer's handler drives the output. */
  lemma Drive(host: Host, name: seq<char>, call: HandlerCall)
    requires Drives(host, name) && call.endpoints == PRODUCING && StateWithin(call.state, DESKTOP)
    ensures ExecuteLogic(host, call) == Ok(Transition(map[], [DRIVEN], []))
  {
    hide ConvertedOutputs, StateWithin;
    OutputConverts(host.naming, name);
    var raw := Some([(LuaString(name), LuaBoolean(true))]);
    assert TakeFields(Fields(None, None, None), Produced(name).entries) == Some(Fields(None, raw, None));
    assert TakeStates(map[], []) == Some(map[]);
    var patch: State := map[];
    assert call.state + patch == call.state;
  }

  /** What the producer's input starts. */
  ghost predicate Started(p: Plan, s: RuntimeState, root: Root)
    requires Shaped(p, s)
  {
    && root.result.Ok? && root.result.value.Some?
    && root.s.signals == s.signals && |root.s.blocks| == |s.blocks|
    && forall i :: 0 < i < |s.blocks| ==> root.s.blocks[i] == s.blocks[i]
  }

  lemma ProducerStarts(p: Plan, s: RuntimeState)
    requires FullInv(p, s) && !Earlier(s, 0) && |s.blocks| > 0 && s.blocks[0] == InitialState(p).blocks[0] && p.config.blocks[0].enabled
    requires p.config.blocks[0].endpoints == PRODUCING && p.host.limits.maxLiveExecutionsPerBlockPerSecond >= 1
    ensures Started(p, s, UpdateBlock(p, s, 0, 0, TriggerWith(BoolValue(true)), 0, None))
  {
    hide ProcessUpdate, EngineInv, WindowOk, SignalOk, StateTotal, TimersTotal;
    ClockAdvances(p, s, 0);
    BlockAtInv(p, At(s, 0), 0);
    var b := Admit(s.blocks[0], 0, p.host.limits.maxLiveExecutionsPerBlockPerSecond).0;
    UpdateKeepsInv(p.host, PRODUCING, b.engine, 0, TriggerWith(BoolValue(true)), 0, None);
  }

  lemma TwoBlocks(blocks: seq<BlockState>)
    requires |blocks| == 2 && forall c :: 0 <= c < 2 ==> StateWithin(blocks[c].engine.state, DESKTOP) && |blocks[c].engine.timers| <= DESKTOP.maxPendingTimersPerBlock
    ensures StateTotal(blocks) <= DESKTOP.maxStateBytesTotal && TimersTotal(blocks) <= DESKTOP.maxPendingTimersTotal
  {
    assert StateTotal(blocks[..1][..0]) == 0 && TimersTotal(blocks[..1][..0]) == 0;
    assert StateTotal(blocks[..1]) == TotalBytes(blocks[0].engine.state);
    assert TimersTotal(blocks[..1]) == |blocks[0].engine.timers|;
  }

  /** Two blocks never exceed the desktop budgets. */
  lemma PairWithinBudgets(p: Plan, s: RuntimeState, t: RuntimeState, now: MonotonicMs)
    requires p.host.limits == DESKTOP && Shaped(p, s) && Evolves(p, s, t, now) && |s.blocks| == 2
    requires SourceTotal(s.blocks) <= DESKTOP.maxLogicSourceBytesTotal
    ensures UsageError(DESKTOP, t).None?
  {
    hide SourceTotal, StateTotal, TimersTotal, StateWithin, SignalOk;
    forall c | 0 <= c < 2 ensures t.blocks[c].engine.logic == s.blocks[c].engine.logic {
      assert BlockEvolves(s.blocks[c], t.blocks[c], now);
    }
    SameProgramsSameTotal(s.blocks, t.blocks);
    forall c | 0 <= c < 2
      ensures StateWithin(t.blocks[c].engine.state, DESKTOP) && |t.blocks[c].engine.timers| <= DESKTOP.maxPendingTimersPerBlock
    {
      BlockAtInv(p, t, c);
    }
    TwoBlocks(t.blocks);
  }

  /** Following an execution that drives one output records the consumers that
      may run in the state it starts from. */
  lemma RootRecordsOne(p: Plan, checkpoint: RuntimeState, s: RuntimeState, x: BlockExecution)
    requires SoundPlan(p, ProducerFirst()) && FullInv(p, checkpoint) && Evolves(p, checkpoint, s, 0) && ExecOk(p, x)
    requires p.host.limits == DESKTOP && |checkpoint.blocks| == 2 && SourceTotal(checkpoint.blocks) <= DESKTOP.maxLogicSourceBytesTotal
    requires x.execution.outcome.Ok? && x.execution.outcome.value.outputs == [DRIVEN] && x.execution.eligibleConsumers == []
    ensures var r := Follow(p, checkpoint, s, x, 0, None);
            r.result.Ok? && r.result.value != [] && r.result.value[0].execution.eligibleConsumers == RecordedEligible(p, s, x.block, DRIVEN)
  {
    hide SoundPlan, BlocksOk, SignalsOk, UsageError, SourceTotal, StateTotal, TimersTotal, PropagateOutput, RecordedEligible, BlockEvolves, ExecutionOk;
    FollowSafe(p, ProducerFirst(), checkpoint, s, x, 0, None);
    RootCompletes(p, ProducerFirst(), checkpoint, s, x, 0, None);
    assert [x][0] == x;
    PairWithinBudgets(p, checkpoint, Propagate(p, s, [x], 0, 0, None).s, 0);
    OutputOrder(p, s, [x], 0, DRIVEN, 0, None);
    var o := PropagateOutput(p, s, [x], 0, DRIVEN, 0, None);
    assert PropagateOutputs(p, s, [x], 0, [DRIVEN], 0, 0, None) == Propagate(p, s, [x], 0, 0, None);
    if o.error.None? { assert PropagateOutputs(p, o.s, o.execs, 0, [DRIVEN], 1, 0, None) == o; }
    assert PropagateOutputs(p, s, [x], 0, [DRIVEN], 0, 0, None) == o;
  }

  // ----- the two lists ------------------------------------------------------------------------------------

  /** The same input of the producer, live and simulated. The simulation takes
      the live snapshot and reports the consumer as eligible; the live cascade
      succeeds and its root does not. */
  ghost predicate ListsDiffer(p: Plan, s: RuntimeState) {
    && Shaped(p, s) && DistinctBlocks(p.config.blocks) && Known(p, 0) && |s.blocks| == 2 && p.config.blocks[0].endpoints == PRODUCING
    && var r, e, value := InputEvent(p, s, 0, 0, TriggerWith(BoolValue(true)), 0, None), s.blocks[0].engine, BoolValue(true);
       var scenario := LiveScenario(p.config.blocks[0].endpoints, e, 0, value, 0);
       var sim := Simulated(p.host, p.config.blocks[0].endpoints, e.logic, scenario, e.state, [], 0);
       && ScenarioAccepted(p.host, p.config.blocks[0].endpoints, e.logic, scenario, e.state, [])
       && sim.outcome.Ok? && SimulatedEligible(p, s, 0, sim.outcome.value.outputs, 0) == [EndpointRef(1, 0)]
       && r.result.Ok? && r.result.value != [] && Bare(r.result.value[0].execution) == sim
       && r.result.value[0].execution.eligibleConsumers == []
  }

  lemma SuspendedNow(host: Host, sandbox: Sandbox, source: seq<char>, s: RuntimeState, t: RuntimeState)
    requires var p := PairPlan(host, sandbox, source); OnlyFailed(p, s, 5) && Shaped(p, t) && t.signals == s.signals && t.blocks[1] == s.blocks[1]
    ensures var p := PairPlan(host, sandbox, source); Known(p, 0) && RecordedEligible(p, t, 0, DRIVEN) == []
    ensures SimulatedEligible(PairPlan(host, sandbox, source), s, 0, [DRIVEN], 0) == [EndpointRef(1, 0)]
  {
    var p := PairPlan(host, sandbox, source);
    PairGraph(LogicProgram(source, sandbox.revisionFor(source)));
    assert BlockPosition(p.config.blocks, 0) == Some(0) && BlockPosition(p.config.blocks, 1) == Some(1);
    assert SignalOf(p, 0, 1) == Some(0);
    var consumers := [EndpointRef(1, 0)];
    assert Consumers(p, 0) == consumers;
    assert EnabledConsumers(p, s, consumers, 0) == [] && Eligible(p, t, consumers, 0) == [];
    assert EligibleFor(p, s, 0, DRIVEN) == consumers;
    assert SimulatedEligible(p, s, 0, [DRIVEN], 1) == [];
  }

  /** The live answer to the producer's input. */
  lemma ProducerAnswers(p: Plan, s: RuntimeState, name: seq<char>) returns (root: Root)
    requires SoundPlan(p, ProducerFirst()) && DistinctBlocks(p.config.blocks) && OnlyFailed(p, s, 5) && Drives(p.host, name) && p.host.limits == DESKTOP
    requires BlockPosition(p.config.blocks, 0) == Some(0) && p.config.blocks[0].id == 0 && p.config.blocks[0].endpoints == PRODUCING && p.config.blocks[0].enabled
    ensures Shaped(p, root.s) && Started(p, s, root)
    ensures var e := s.blocks[0].engine;
            var scenario := LiveScenario(PRODUCING, e, 0, BoolValue(true), 0);
            var sim := Simulated(p.host, PRODUCING, e.logic, scenario, e.state, [], 0);
            var r := InputEvent(p, s, 0, 0, TriggerWith(BoolValue(true)), 0, None);
            && ScenarioAccepted(p.host, PRODUCING, e.logic, scenario, e.state, []) && sim.outcome == Ok(Transition(map[], [DRIVEN], []))
            && r.result.Ok? && r.result.value != [] && Bare(r.result.value[0].execution) == sim
            && r.result.value[0].execution.eligibleConsumers == RecordedEligible(p, root.s, 0, DRIVEN)
  {
    var value := BoolValue(true);
    FirstInput();
    hide SoundPlan, DistinctBlocks, BlocksOk, SignalsOk, SourceTotal, StateTotal, TimersTotal, UpdateBlock, Follow, Evolves, ExecutionOk, Failed, Simulated;
    hide ScenarioAccepted, RecordedEligible, StateWithin, Drives, ValidateInput, LiveScenario;
    ProducerStarts(p, s);
    RootsAreKnown(p, s);
    UpdateRootSafe(p, s, 0, 0, TriggerWith(value), 0, None);
    root := UpdateRoot(p, s, 0, 0, TriggerWith(value), 0, None);
    RootIsSimulated(p, s, 0, 0, value, [], 0);
    SimulationDrives(p, s, name);
    RootNamesItsBlock(p, s, 0, 0, value, 0);
    RootRecordsOne(p, s, root.s, root.result.value.value);
    SimulationPredictsTheCascade(p, ProducerFirst(), s, 0, 0, value, [], 0);
  }

  lemma FirstInput()
    ensures ValidateInput(PRODUCING, 0, BoolValue(true)) == Ok(0)
  {
  }

  lemma ListsDifferNow(host: Host, sandbox: Sandbox, source: seq<char>, name: seq<char>, s: RuntimeState)
    requires Drives(host, name) && host.limits == DESKTOP && Loadable(sandbox, source) && OnlyFailed(PairPlan(host, sandbox, source), s, 5)
    ensures ListsDiffer(PairPlan(host, sandbox, source), s)
  {
    var p := PairPlan(host, sandbox, source);
    PairIs(host, sandbox, source);
    OnlyFailedShape(p, s);
    hide OnlyFailed, SoundPlan, DistinctBlocks, Drives, PairPlan, InputEvent, Simulated, LiveScenario, ScenarioAccepted, SimulatedEligible, RecordedEligible, Shaped;
    var root := ProducerAnswers(p, s, name);
    SuspendedNow(host, sandbox, source, s, root.s);
  }

  lemma OnlyFailedShape(p: Plan, s: RuntimeState)
    requires OnlyFailed(p, s, 5)
    ensures Shaped(p, s) && |s.blocks| == 2
  {
  }

  lemma SimulationDrives(p: Plan, s: RuntimeState, name: seq<char>)
    requires Drives(p.host, name) && FullInv(p, s) && |s.blocks| > 0 && p.config.blocks[0].endpoints == PRODUCING
    ensures var e := s.blocks[0].engine;
            Simulated(p.host, PRODUCING, e.logic, LiveScenario(PRODUCING, e, 0, BoolValue(true), 0), e.state, [], 0).outcome
            == Ok(Transition(map[], [DRIVEN], []))
  {
    hide SignalOk, StateTotal, TimersTotal, StateWithin, ExecuteLogic, LiveScenario;
    BlockAtInv(p, s, 0);
    var e := s.blocks[0].engine;
    var scenario := LiveScenario(PRODUCING, e, 0, BoolValue(true), 0);
    var trigger := ByInput(MakeInputTrigger(scenario.trigger.endpoint, scenario.trigger.value, scenario.trigger.previous));
    Drive(p.host, name, HandlerCall(PRODUCING, e.logic, SuppliedSnapshots(PRODUCING, scenario.inputs, 2), trigger, e.state, TimerMap([]), 0, Unavailable));
  }

  /** For every such host, sandbox and source: after a run of five triggers of
      an accepted configuration the two lists differ. */
  lemma SuspendedConsumerIsSimulated(host: Host, sandbox: Sandbox, source: seq<char>, name: seq<char>) returns (states: seq<RuntimeState>)
    requires Drives(host, name) && Loadable(sandbox, source)
    ensures var p := PairPlan(host, sandbox, source);
            Accepted(p.config, host.limits, sandbox) && IsRun(p, FiveTriggers(), states) && ListsDiffer(p, states[5])
  {
    var p := PairPlan(host, sandbox, source);
    PairAccepted(host, sandbox, source);
    hide ListsDiffer, OnlyFailed, Accepted, SoundPlan, IsRun, PairPlan, Step, InitialState, Shaped;
    FailsEachTime(host, sandbox, source, 5);
    states := seq(6, (n: nat) => StateAfter(p, n));
    RunIsThis(p, states);
    ListsDifferNow(host, sandbox, source, name, states[5]);
  }

  lemma RunIsThis(p: Plan, states: seq<RuntimeState>)
    requires DistinctBlocks(p.config.blocks) && states == seq(6, (n: nat) requires DistinctBlocks(p.config.blocks) => StateAfter(p, n))
    ensures IsRun(p, FiveTriggers(), states)
  {
    hide Step, InitialState;
  }
}
