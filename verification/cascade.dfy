/** What one event does to the runtime: the root execution of a block and the
    depth-first propagation of its signals. */
module Cascades {
  import opened Values
  import opened SignalGraph
  import opened Configuration
  import opened TransientState
  import opened LuaConversion
  import opened Engines
  import opened LogicBlocks
  import opened ScheduleCursors

  /** The fixed part of a runtime. */
  datatype Plan = Plan(config: RuntimeConfig, host: Host, sandbox: Sandbox)

  datatype SignalState = SignalState(value: Option<TypedValue>, observedAt: Option<MonotonicMs>,
                                     changedAt: Option<MonotonicMs>, producingExecution: Option<nat>)

  datatype BlockExecution = BlockExecution(block: BlockId, execution: Execution)

  /** The mutable part of a runtime. */
  datatype RuntimeState = RuntimeState(
    blocks: seq<BlockState>,
    signals: seq<SignalState>,
    lastAcceptedAt: Option<MonotonicMs>,
    nextExecutionId: nat,
    schedules: ScheduleState)

  datatype Resource = LogicSource | StateData | TimerCount

  datatype RuntimeEventError =
    | UnknownBlock(id: BlockId)
    | BlockError(id: BlockId, error: EventError)
    | TimeWentBackwards(target: Option<BlockId>, previous: MonotonicMs, current: MonotonicMs)
    | CascadeLimitReached(actual: nat, maximum: nat)
    | ResourceLimit(resource: Resource, actual: nat, maximum: nat)

  /** A run of propagation: the state it reached, the executions so far, and
      the error that stopped it. */
  datatype Outcome = Outcome(s: RuntimeState, execs: seq<BlockExecution>, error: Option<RuntimeEventError>)

  /** The effect of handing one value to one consumer. */
  datatype Delivery =
    | Observed(s: RuntimeState)
    | Executed(s: RuntimeState, execution: Execution)
    | Refused(s: RuntimeState, error: EventError)

  // ----- shape and small steps --------------------------------------------------------

  ghost predicate Shaped(p: Plan, s: RuntimeState) {
    && |s.blocks| == |p.config.blocks| && |s.signals| == |p.config.signals|
    && forall c :: 0 <= c < |s.blocks| ==> |s.blocks[c].engine.inputs| == |p.config.blocks[c].endpoints|
  }

  function Consumers(p: Plan, signal: SignalName): seq<EndpointRef> {
    ConsumersIn(Bindings(p.config.blocks), signal)
  }

  function WithBlock(s: RuntimeState, c: nat, b: BlockState): RuntimeState
    requires c < |s.blocks|
  {
    s.(blocks := s.blocks[c := b])
  }

  predicate Runnable(b: BlockState) { b.enabled && b.health == Active }

  function NextId(id: nat): nat { if id < U64_MAX then id + 1 else id }

  /** Stores a value without running the handler. */
  ghost function ObserveAt(p: Plan, s: RuntimeState, c: nat, endpoint: EndpointName, value: TypedValue, now: MonotonicMs): (d: Delivery)
    requires Shaped(p, s) && c < |s.blocks|
    ensures Shaped(p, d.s) && !d.Executed?
  {
    var step := ProcessUpdate(p.host, p.config.blocks[c].endpoints, s.blocks[c].engine, endpoint, Observe(value), now, None);
    var after := WithBlock(s, c, s.blocks[c].(engine := step.engine));
    if step.result.Err? then Refused(after, step.result.error) else Observed(after)
  }

  /** Admits and runs a live execution, or observes the value when the rate
      window rejects it. */
  ghost function TriggerAt(p: Plan, s: RuntimeState, c: nat, endpoint: EndpointName, value: TypedValue,
                           now: MonotonicMs, utc: Option<int>): (d: Delivery)
    requires Shaped(p, s) && c < |s.blocks|
    ensures Shaped(p, d.s)
  {
    var (admittedBlock, admitted) := Admit(s.blocks[c], now, p.host.limits.maxLiveExecutionsPerBlockPerSecond);
    if !admitted then ObserveAt(p, WithBlock(s, c, admittedBlock), c, endpoint, value, now)
    else
      var step := ProcessUpdate(p.host, p.config.blocks[c].endpoints, admittedBlock.engine, endpoint, TriggerWith(value), now, utc);
      var ran := admittedBlock.(engine := step.engine);
      match step.result
      case Err(error) => Refused(WithBlock(s, c, ran), error)
      case Ok(execution) =>
        Executed(WithBlock(s, c, Record(ran, execution.value.outcome)).(lastAcceptedAt := Some(now)), execution.value)
  }

  /** Hands a value to one consumer: blocks that are disabled or suspended only
      observe it. */
  ghost function HandTo(p: Plan, s: RuntimeState, c: nat, endpoint: EndpointName, value: TypedValue,
                        now: MonotonicMs, utc: Option<int>): (d: Delivery)
    requires Shaped(p, s) && c < |s.blocks|
    ensures Shaped(p, d.s)
  {
    if Runnable(s.blocks[c]) then TriggerAt(p, s, c, endpoint, value, now, utc)
    else ObserveAt(p, s, c, endpoint, value, now)
  }

  /** Stores a fresh value of a signal. */
  function Publish(s: RuntimeState, at: nat, value: TypedValue, now: MonotonicMs, id: Option<nat>): RuntimeState
    requires at < |s.signals|
  {
    var changed := s.signals[at].value != Some(value);
    s.(signals := s.signals[at := SignalState(Some(value), Some(now),
                                              if changed then Some(now) else s.signals[at].changedAt, id)])
  }

  /** The consumers that may run: their block is enabled and active. */
  function Eligible(p: Plan, s: RuntimeState, consumers: seq<EndpointRef>, n: nat): seq<EndpointRef>
    requires |s.blocks| == |p.config.blocks| && n <= |consumers|
  {
    if n == 0 then []
    else
      var c := BlockPosition(p.config.blocks, consumers[n - 1].block);
      Eligible(p, s, consumers, n - 1)
      + if c.Some? && Runnable(s.blocks[c.value]) then [consumers[n - 1]] else []
  }

  function Annotate(execs: seq<BlockExecution>, k: nat, effect: SignalEffect, eligible: seq<EndpointRef>): (r: seq<BlockExecution>)
    requires k < |execs|
    ensures |r| == |execs| && r[k].block == execs[k].block
  {
    var x := execs[k].execution;
    execs[k := execs[k].(execution := x.(signalEffects := x.signalEffects + [effect],
                                         eligibleConsumers := x.eligibleConsumers + eligible))]
  }

  // ----- propagation ------------------------------------------------------------------

  /** Executions the limit still allows. */
  ghost function Slack(p: Plan, execs: seq<BlockExecution>): nat {
    if |execs| < p.host.limits.maxCascadeExecutions then p.host.limits.maxCascadeExecutions - |execs| else 0
  }

  /** The first executions are still there, for the same blocks. */
  ghost predicate Grown(execs: seq<BlockExecution>, later: seq<BlockExecution>) {
    |execs| <= |later| && forall i :: 0 <= i < |execs| ==> later[i].block == execs[i].block
  }

  ghost predicate Known(p: Plan, id: BlockId) { BlockPosition(p.config.blocks, id).Some? }

  /** Follows the outputs of execution `k`. */
  ghost function Propagate(p: Plan, s: RuntimeState, execs: seq<BlockExecution>, k: nat, now: MonotonicMs, utc: Option<int>): (o: Outcome)
    requires Shaped(p, s) && k < |execs| && Known(p, execs[k].block)
    ensures Shaped(p, o.s) && Grown(execs, o.execs)
    decreases Slack(p, execs), 4, 0
  {
    if execs[k].execution.outcome.Err? then Outcome(s, execs, None)
    else PropagateOutputs(p, s, execs, k, execs[k].execution.outcome.value.outputs, 0, now, utc)
  }

  ghost function PropagateOutputs(p: Plan, s: RuntimeState, execs: seq<BlockExecution>, k: nat, outputs: seq<OutputEffect>, i: nat,
                                  now: MonotonicMs, utc: Option<int>): (o: Outcome)
    requires Shaped(p, s) && k < |execs| && Known(p, execs[k].block) && i <= |outputs|
    ensures Shaped(p, o.s) && Grown(execs, o.execs)
    decreases Slack(p, execs), 3, |outputs| - i
  {
    if i == |outputs| then Outcome(s, execs, None)
    else
      var o := PropagateOutput(p, s, execs, k, outputs[i], now, utc);
      if o.error.Some? then o else PropagateOutputs(p, o.s, o.execs, k, outputs, i + 1, now, utc)
  }

  /** The signal an output of a block is bound to. */
  function SignalOf(p: Plan, block: BlockId, endpoint: EndpointName): (r: Option<nat>)
    requires Known(p, block)
    ensures r.Some? ==> r.value < |p.config.signals|
  {
    var b := p.config.blocks[BlockPosition(p.config.blocks, block).value];
    var name := BoundSignal(b.bindings, endpoint);
    if name.None? then None else SignalPosition(p.config.signals, name.value)
  }

  function EffectOf(p: Plan, s: RuntimeState, block: BlockId, output: OutputEffect, at: nat, id: Option<nat>): SignalEffect
    requires |s.signals| == |p.config.signals| && at < |s.signals|
  {
    var name := p.config.signals[at].name;
    SignalEffect(name, output.value, s.signals[at].value != Some(output.value), EndpointRef(block, output.endpoint), id, Consumers(p, name))
  }

  ghost function PropagateOutput(p: Plan, s: RuntimeState, execs: seq<BlockExecution>, k: nat, output: OutputEffect,
                                 now: MonotonicMs, utc: Option<int>): (o: Outcome)
    requires Shaped(p, s) && k < |execs| && Known(p, execs[k].block)
    ensures Shaped(p, o.s) && Grown(execs, o.execs)
    decreases Slack(p, execs), 2, 0
  {
    var at := SignalOf(p, execs[k].block, output.endpoint);
    if at.None? then Outcome(s, execs, None)
    else
      var effect := EffectOf(p, s, execs[k].block, output, at.value, execs[k].execution.id);
      var published := Publish(s, at.value, output.value, now, execs[k].execution.id);
      var consumers := effect.consumers;
      var eligible := if effect.changed then Eligible(p, published, consumers, |consumers|) else [];
      var annotated := Annotate(execs, k, effect, eligible);
      if effect.changed then Deliver(p, published, annotated, k, output.value, consumers, 0, now, utc)
      else Refresh(p, published, annotated, output.value, consumers, 0, now)
  }

  /** An unchanged value is observed by every consumer and runs nothing. */
  ghost function Refresh(p: Plan, s: RuntimeState, execs: seq<BlockExecution>, value: TypedValue, consumers: seq<EndpointRef>, j: nat,
                         now: MonotonicMs): (o: Outcome)
    requires Shaped(p, s) && j <= |consumers|
    ensures Shaped(p, o.s) && o.execs == execs
    decreases |consumers| - j
  {
    if j == |consumers| then Outcome(s, execs, None)
    else
      var c := BlockPosition(p.config.blocks, consumers[j].block);
      if c.None? then Refresh(p, s, execs, value, consumers, j + 1, now)
      else
        var d := ObserveAt(p, s, c.value, consumers[j].endpoint, value, now);
        if d.Refused? then Outcome(d.s, execs, Some(BlockError(consumers[j].block, d.error)))
        else Refresh(p, d.s, execs, value, consumers, j + 1, now)
  }

  /** A changed value reaches each consumer in turn; one that runs is followed
      to the end before the next consumer sees the value. */
  ghost function Deliver(p: Plan, s: RuntimeState, execs: seq<BlockExecution>, k: nat, value: TypedValue, consumers: seq<EndpointRef>, j: nat,
                         now: MonotonicMs, utc: Option<int>): (o: Outcome)
    requires Shaped(p, s) && k < |execs| && j <= |consumers|
    ensures Shaped(p, o.s) && Grown(execs, o.execs)
    decreases Slack(p, execs), 1, |consumers| - j
  {
    if j == |consumers| then Outcome(s, execs, None)
    else
      var o := DeliverOne(p, s, execs, k, value, consumers[j], now, utc);
      if o.error.Some? then o else Deliver(p, o.s, o.execs, k, value, consumers, j + 1, now, utc)
  }

  ghost function DeliverOne(p: Plan, s: RuntimeState, execs: seq<BlockExecution>, k: nat, value: TypedValue, consumer: EndpointRef,
                            now: MonotonicMs, utc: Option<int>): (o: Outcome)
    requires Shaped(p, s) && k < |execs|
    ensures Shaped(p, o.s) && Grown(execs, o.execs)
    decreases Slack(p, execs), 0, 0
  {
    var c := BlockPosition(p.config.blocks, consumer.block);
    if c.None? then Outcome(s, execs, None)
    else if Runnable(s.blocks[c.value]) && |execs| >= p.host.limits.maxCascadeExecutions then
      Outcome(s, execs, Some(CascadeLimitReached(|execs| + 1, p.host.limits.maxCascadeExecutions)))
    else
      var d := HandTo(p, s, c.value, consumer.endpoint, value, now, utc);
      match d
      case Refused(after, error) => Outcome(after, execs, Some(BlockError(consumer.block, error)))
      case Observed(after) => Outcome(after, execs, None)
      case Executed(after, execution) =>
        var child := AssignId(after, execution, execs[k].execution.id);
        Propagate(p, child.0, execs + [BlockExecution(consumer.block, child.1)], |execs|, now, utc)
  }

  /** Gives an execution the next identity. */
  function AssignId(s: RuntimeState, execution: Execution, cause: Option<nat>): (RuntimeState, Execution) {
    (s.(nextExecutionId := NextId(s.nextExecutionId)), execution.(id := Some(s.nextExecutionId), causalProducer := cause))
  }

  lemma RunnableOnlyExecutes(p: Plan, s: RuntimeState, c: nat, endpoint: EndpointName, value: TypedValue, now: MonotonicMs, utc: Option<int>)
    requires Shaped(p, s) && c < |s.blocks|
    ensures HandTo(p, s, c, endpoint, value, now, utc).Executed? ==> Runnable(s.blocks[c])
  {
  }
}
