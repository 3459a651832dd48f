/** From a reachable state of an accepted configuration, a cascade never fails:
    it stays within the validated size, every engine accepts what it is handed,
    and the reachable-state invariant holds afterwards. */
module CascadeSafety {
  import opened Values
  import opened SignalGraph
  import opened Configuration
  import opened Topology
  import opened TransientState
  import opened LuaConversion
  import opened Engines
  import opened LogicBlocks
  import opened Cascades
  import opened PlanFacts

  ghost predicate SignalOk(config: SignalConfig, signal: SignalState, clock: Option<MonotonicMs>) {
    && (signal.value.Some? <==> signal.observedAt.Some?)
    && (signal.value.Some? ==> signal.value.value.GetDpt() == config.dpt)
    && NotAfter(signal.observedAt, clock)
    && (signal.changedAt.Some? <==> signal.value.Some?)
    && NotAfter(signal.changedAt, signal.observedAt)
  }

  ghost predicate BlocksOk(p: Plan, s: RuntimeState)
    requires Shaped(p, s)
  {
    forall c :: 0 <= c < |s.blocks| ==> BlockInv(p.host.limits, p.config.blocks[c].endpoints, s.blocks[c], s.lastAcceptedAt)
  }

  ghost predicate SignalsOk(p: Plan, s: RuntimeState)
    requires Shaped(p, s)
  {
    forall at :: 0 <= at < |s.signals| ==> SignalOk(p.config.signals[at], s.signals[at], s.lastAcceptedAt)
  }

  /** The reachable-state invariant of the runtime. */
  ghost predicate Inv(p: Plan, s: RuntimeState) {
    Shaped(p, s) && BlocksOk(p, s) && SignalsOk(p, s) && s.nextExecutionId <= U64_MAX
  }

  /** What one block may become while `now` stands still: the same program, and
      no timer due by now that was not there before. */
  ghost predicate BlockEvolves(b: BlockState, after: BlockState, now: MonotonicMs) {
    && after.enabled == b.enabled
    && after.engine.logic == b.engine.logic
    && forall n :: n in after.engine.timers && after.engine.timers[n].dueAt <= now ==>
         n in b.engine.timers && after.engine.timers[n] == b.engine.timers[n]
  }

  ghost predicate Evolves(p: Plan, s: RuntimeState, t: RuntimeState, now: MonotonicMs) {
    && Inv(p, t) && t.lastAcceptedAt == Some(now)
    && t.schedules == s.schedules
    && |t.blocks| == |s.blocks|
    && forall c :: 0 <= c < |s.blocks| ==> BlockEvolves(s.blocks[c], t.blocks[c], now)
  }

  lemma EvolvesSelf(p: Plan, s: RuntimeState, now: MonotonicMs)
    requires Inv(p, s) && s.lastAcceptedAt == Some(now)
    ensures Evolves(p, s, s, now)
  {
    hide BlocksOk, SignalsOk;
  }

  lemma EvolvesTwice(p: Plan, s: RuntimeState, t: RuntimeState, u: RuntimeState, now: MonotonicMs)
    requires Evolves(p, s, t, now) && Evolves(p, t, u, now)
    ensures Evolves(p, s, u, now)
  {
    forall c | 0 <= c < |s.blocks| ensures BlockEvolves(s.blocks[c], u.blocks[c], now) {
      assert BlockEvolves(s.blocks[c], t.blocks[c], now) && BlockEvolves(t.blocks[c], u.blocks[c], now);
    }
  }

  lemma ReplaceBlock(p: Plan, s: RuntimeState, c: nat, b: BlockState, now: MonotonicMs)
    requires Inv(p, s) && s.lastAcceptedAt == Some(now) && c < |s.blocks|
    requires BlockInv(p.host.limits, p.config.blocks[c].endpoints, b, Some(now)) && BlockEvolves(s.blocks[c], b, now)
    ensures Evolves(p, s, WithBlock(s, c, b), now)
  {
  }

  /** `endpoint` of block `c` is an input that takes `value`. */
  ghost predicate Takes(p: Plan, c: nat, endpoint: EndpointName, value: TypedValue)
    requires c < |p.config.blocks|
  {
    ValidateInput(p.config.blocks[c].endpoints, endpoint, value).Ok?
  }

  lemma ObserveAtSafe(p: Plan, s: RuntimeState, c: nat, endpoint: EndpointName, value: TypedValue, now: MonotonicMs)
    requires Inv(p, s) && s.lastAcceptedAt == Some(now) && c < |s.blocks| && Takes(p, c, endpoint, value)
    ensures var d := ObserveAt(p, s, c, endpoint, value, now); d.Observed? && Evolves(p, s, d.s, now)
  {
    var b := s.blocks[c];
    assert BlockInv(p.host.limits, p.config.blocks[c].endpoints, b, Some(now));
    UpdateKeepsInv(p.host, p.config.blocks[c].endpoints, b.engine, endpoint, Observe(value), now, None);
    var step := ProcessUpdate(p.host, p.config.blocks[c].endpoints, b.engine, endpoint, Observe(value), now, None);
    ReplaceBlock(p, s, c, b.(engine := step.engine), now);
  }

  lemma TriggerAtSafe(p: Plan, s: RuntimeState, c: nat, endpoint: EndpointName, value: TypedValue, now: MonotonicMs, utc: Option<int>)
    requires Inv(p, s) && s.lastAcceptedAt == Some(now) && c < |s.blocks| && Takes(p, c, endpoint, value)
    requires Runnable(s.blocks[c])
    ensures var d := TriggerAt(p, s, c, endpoint, value, now, utc);
            && !d.Refused? && Evolves(p, s, d.s, now)
            && (d.Executed? ==> ExecutionOk(p.config.blocks[c].endpoints, d.execution))
  {
    hide ProcessUpdate, ObserveAt, StateWithin;
    var endpoints, b := p.config.blocks[c].endpoints, s.blocks[c];
    assert BlockInv(p.host.limits, endpoints, b, Some(now));
    AdmitKeepsInv(p.host.limits, endpoints, b, now);
    var (admittedBlock, admitted) := Admit(b, now, p.host.limits.maxLiveExecutionsPerBlockPerSecond);
    if admitted {
      UpdateKeepsInv(p.host, endpoints, admittedBlock.engine, endpoint, TriggerWith(value), now, utc);
      var step := ProcessUpdate(p.host, endpoints, admittedBlock.engine, endpoint, TriggerWith(value), now, utc);
      var ran := admittedBlock.(engine := step.engine);
      var execution := step.result.value.value;
      RecordKeepsInv(p.host.limits, endpoints, ran, execution.outcome, Some(now));
      ReplaceBlock(p, s, c, Record(ran, execution.outcome), now);
    } else {
      ReplaceBlock(p, s, c, admittedBlock, now);
      ObserveAtSafe(p, WithBlock(s, c, admittedBlock), c, endpoint, value, now);
      EvolvesTwice(p, s, WithBlock(s, c, admittedBlock), ObserveAt(p, WithBlock(s, c, admittedBlock), c, endpoint, value, now).s, now);
    }
  }

  lemma HandToSafe(p: Plan, s: RuntimeState, c: nat, endpoint: EndpointName, value: TypedValue, now: MonotonicMs, utc: Option<int>)
    requires Inv(p, s) && s.lastAcceptedAt == Some(now) && c < |s.blocks| && Takes(p, c, endpoint, value)
    ensures var d := HandTo(p, s, c, endpoint, value, now, utc);
            && !d.Refused? && Evolves(p, s, d.s, now)
            && (d.Executed? ==> ExecutionOk(p.config.blocks[c].endpoints, d.execution))
  {
    if Runnable(s.blocks[c]) { TriggerAtSafe(p, s, c, endpoint, value, now, utc); }
    else { ObserveAtSafe(p, s, c, endpoint, value, now); }
  }

  lemma PublishSafe(p: Plan, s: RuntimeState, at: nat, value: TypedValue, now: MonotonicMs, id: Option<nat>)
    requires Inv(p, s) && s.lastAcceptedAt == Some(now) && at < |s.signals| && p.config.signals[at].dpt == value.GetDpt()
    ensures Evolves(p, s, Publish(s, at, value, now, id), now)
  {
  }

  // ----- the bound ------------------------------------------------------------------------

  ghost predicate ExecOk(p: Plan, x: BlockExecution) {
    Known(p, x.block) && ExecutionOk(ConfigOf(p, x.block).endpoints, x.execution)
  }

  ghost predicate ExecsOk(p: Plan, execs: seq<BlockExecution>) {
    forall i :: 0 <= i < |execs| ==> ExecOk(p, execs[i])
  }

  /** No error, at most `weight` more executions, everything still in order. */
  ghost predicate Completes(p: Plan, s: RuntimeState, execs: seq<BlockExecution>, weight: nat, o: Outcome, now: MonotonicMs) {
    && o.error.None?
    && |o.execs| <= |execs| + weight
    && ExecsOk(p, o.execs)
    && Evolves(p, s, o.s, now)
  }

  /** What every lemma of the induction assumes. */
  ghost predicate Underway(p: Plan, rank: BlockId -> nat, s: RuntimeState, execs: seq<BlockExecution>, k: nat, weight: nat, now: MonotonicMs) {
    && ValidPlan(p) && Ranks(EdgesOf(p), rank)
    && Inv(p, s) && s.lastAcceptedAt == Some(now)
    && k < |execs| && ExecsOk(p, execs)
    && |execs| + weight <= p.host.limits.maxCascadeExecutions
  }

  ghost predicate Served(p: Plan, consumers: seq<EndpointRef>, value: TypedValue) {
    forall r :: r in consumers ==> Known(p, r.block) && Takes(p, BlockPosition(p.config.blocks, r.block).value, r.endpoint, value)
  }

  lemma ConsumersTake(p: Plan, at: nat, value: TypedValue)
    requires ValidPlan(p) && at < |p.config.signals| && p.config.signals[at].dpt == value.GetDpt()
    ensures Served(p, Consumers(p, NameOf(p, at)), value)
  {
    forall r | r in Consumers(p, NameOf(p, at))
      ensures Known(p, r.block) && Takes(p, BlockPosition(p.config.blocks, r.block).value, r.endpoint, value)
    {
      ConsumerIsInput(p, at, r);
    }
  }

  /** For every accepted configuration and every handler, following an
      execution never fails and runs at most the validated cascade. */
  lemma {:induction false} PropagateCompletes(p: Plan, rank: BlockId -> nat, s: RuntimeState, execs: seq<BlockExecution>, k: nat,
                                              now: MonotonicMs, utc: Option<int>)
    requires k < |execs| && Ranks(EdgesOf(p), rank)
    requires Underway(p, rank, s, execs, k, TreeSize(EdgesOf(p), rank, execs[k].block) - 1, now)
    ensures Completes(p, s, execs, TreeSize(EdgesOf(p), rank, execs[k].block) - 1, Propagate(p, s, execs, k, now, utc), now)
    decreases Slack(p, execs), 4, 0
  {
    hide PropagateOutput, ValidPlan, Ranks, BlocksOk, SignalsOk;
    var x := execs[k];
    if x.execution.outcome.Ok? {
      var outputs := x.execution.outcome.value.outputs;
      OutputsWithinTree(p, rank, x.block, outputs);
      OutputsComplete(p, rank, s, execs, k, outputs, 0, now, utc);
    }
  }

  lemma {:induction false} OutputsComplete(p: Plan, rank: BlockId -> nat, s: RuntimeState, execs: seq<BlockExecution>, k: nat,
                                           outputs: seq<OutputEffect>, i: nat, now: MonotonicMs, utc: Option<int>)
    requires k < |execs| && Known(p, execs[k].block) && i <= |outputs| && Ranks(EdgesOf(p), rank)
    requires Underway(p, rank, s, execs, k, OutputsWeight(p, rank, execs[k].block, outputs, i), now)
    requires OutputsTyped(ConfigOf(p, execs[k].block).endpoints, outputs)
    ensures Completes(p, s, execs, OutputsWeight(p, rank, execs[k].block, outputs, i),
                      PropagateOutputs(p, s, execs, k, outputs, i, now, utc), now)
    decreases Slack(p, execs), 3, |outputs| - i
  {
    hide PropagateOutput, ValidPlan, Ranks, OutputWeight, BlocksOk, SignalsOk;
    if i < |outputs| {
      OutputCompletes(p, rank, s, execs, k, outputs[i], now, utc);
      var o := PropagateOutput(p, s, execs, k, outputs[i], now, utc);
      OutputsComplete(p, rank, o.s, o.execs, k, outputs, i + 1, now, utc);
      EvolvesTwice(p, s, o.s, PropagateOutputs(p, o.s, o.execs, k, outputs, i + 1, now, utc).s, now);
    }
  }

  lemma {:induction false} OutputCompletes(p: Plan, rank: BlockId -> nat, s: RuntimeState, execs: seq<BlockExecution>, k: nat,
                                           output: OutputEffect, now: MonotonicMs, utc: Option<int>)
    requires k < |execs| && Known(p, execs[k].block) && Ranks(EdgesOf(p), rank)
    requires Underway(p, rank, s, execs, k, OutputWeight(p, rank, execs[k].block, output), now)
    requires OutputTyped(ConfigOf(p, execs[k].block).endpoints, output)
    ensures Completes(p, s, execs, OutputWeight(p, rank, execs[k].block, output), PropagateOutput(p, s, execs, k, output, now, utc), now)
    decreases Slack(p, execs), 2, 0
  {
    hide HandTo, ObserveAt, ValidPlan, Ranks, BlocksOk, SignalsOk;
    var at := SignalOf(p, execs[k].block, output.endpoint);
    if at.Some? {
      var effect := EffectOf(p, s, execs[k].block, output, at.value, execs[k].execution.id);
      var published := Publish(s, at.value, output.value, now, execs[k].execution.id);
      var consumers := effect.consumers;
      var eligible := if effect.changed then Eligible(p, published, consumers, |consumers|) else [];
      var annotated := Annotate(execs, k, effect, eligible);
      OutputSignal(p, execs[k].block, output);
      PublishSafe(p, s, at.value, output.value, now, execs[k].execution.id);
      ConsumersTake(p, at.value, output.value);
      assert ExecsOk(p, annotated);
      if effect.changed {
        ConsumersWeigh(PlanBindings(p), NameOf(p, at.value), EdgesOf(p), rank);
        assert BlocksOf(consumers)[0..] == BlocksOf(consumers);
        DeliverCompletes(p, rank, published, annotated, k, output.value, consumers, 0, now, utc);
        EvolvesTwice(p, s, published, Deliver(p, published, annotated, k, output.value, consumers, 0, now, utc).s, now);
      } else {
        RefreshCompletes(p, published, annotated, output.value, consumers, 0, now);
        EvolvesTwice(p, s, published, Refresh(p, published, annotated, output.value, consumers, 0, now).s, now);
      }
    }
  }

  lemma {:induction false} RefreshCompletes(p: Plan, s: RuntimeState, execs: seq<BlockExecution>, value: TypedValue,
                                            consumers: seq<EndpointRef>, j: nat, now: MonotonicMs)
    requires Inv(p, s) && s.lastAcceptedAt == Some(now) && j <= |consumers| && Served(p, consumers, value)
    ensures var o := Refresh(p, s, execs, value, consumers, j, now); o.error.None? && Evolves(p, s, o.s, now)
    decreases |consumers| - j
  {
    hide ObserveAt, BlocksOk, SignalsOk, BlockEvolves, Takes;
    EvolvesSelf(p, s, now);
    if j < |consumers| {
      assert consumers[j] in consumers;
      var c := BlockPosition(p.config.blocks, consumers[j].block).value;
      ObserveAtSafe(p, s, c, consumers[j].endpoint, value, now);
      var d := ObserveAt(p, s, c, consumers[j].endpoint, value, now);
      RefreshCompletes(p, d.s, execs, value, consumers, j + 1, now);
      EvolvesTwice(p, s, d.s, Refresh(p, d.s, execs, value, consumers, j + 1, now).s, now);
    }
  }

  lemma {:induction false} DeliverCompletes(p: Plan, rank: BlockId -> nat, s: RuntimeState, execs: seq<BlockExecution>, k: nat,
                                            value: TypedValue, consumers: seq<EndpointRef>, j: nat, now: MonotonicMs, utc: Option<int>)
    requires Ranks(EdgesOf(p), rank) && j <= |consumers| && Served(p, consumers, value)
    requires Underway(p, rank, s, execs, k, SumSizes(EdgesOf(p), rank, BlocksOf(consumers)[j..]), now)
    ensures Completes(p, s, execs, SumSizes(EdgesOf(p), rank, BlocksOf(consumers)[j..]),
                      Deliver(p, s, execs, k, value, consumers, j, now, utc), now)
    decreases Slack(p, execs), 1, |consumers| - j
  {
    hide HandTo, DeliverOne, ValidPlan, Ranks, TreeSize;
    if j < |consumers| {
      var rest := BlocksOf(consumers)[j..];
      assert rest[0] == consumers[j].block && rest[1..] == BlocksOf(consumers)[j + 1..];
      assert consumers[j] in consumers;
      DeliverOneCompletes(p, rank, s, execs, k, value, consumers[j], now, utc);
      var o := DeliverOne(p, s, execs, k, value, consumers[j], now, utc);
      DeliverCompletes(p, rank, o.s, o.execs, k, value, consumers, j + 1, now, utc);
      EvolvesTwice(p, s, o.s, Deliver(p, o.s, o.execs, k, value, consumers, j + 1, now, utc).s, now);
    }
  }

  /** A consumer that runs starts a cascade of its own within its weight. */
  lemma ChildStarts(p: Plan, rank: BlockId -> nat, s: RuntimeState, execs: seq<BlockExecution>, k: nat,
                    value: TypedValue, consumer: EndpointRef, now: MonotonicMs, utc: Option<int>)
    requires Ranks(EdgesOf(p), rank) && Known(p, consumer.block)
    requires Takes(p, BlockPosition(p.config.blocks, consumer.block).value, consumer.endpoint, value)
    requires Underway(p, rank, s, execs, k, TreeSize(EdgesOf(p), rank, consumer.block), now)
    ensures var d := HandTo(p, s, BlockPosition(p.config.blocks, consumer.block).value, consumer.endpoint, value, now, utc);
            && !d.Refused? && Evolves(p, s, d.s, now)
            && (d.Executed? ==>
                  var child := AssignId(d.s, d.execution, execs[k].execution.id);
                  var more := execs + [BlockExecution(consumer.block, child.1)];
                  && Evolves(p, s, child.0, now)
                  && Underway(p, rank, child.0, more, |execs|, TreeSize(EdgesOf(p), rank, consumer.block) - 1, now))
  {
    hide HandTo, ValidPlan, Ranks, BlocksOk, SignalsOk, OutputsTyped, BlockEvolves;
    var c := BlockPosition(p.config.blocks, consumer.block).value;
    HandToSafe(p, s, c, consumer.endpoint, value, now, utc);
    var d := HandTo(p, s, c, consumer.endpoint, value, now, utc);
    if d.Executed? {
      RenumberedEvolves(p, s, d.s, NextId(d.s.nextExecutionId), now);
    }
  }

  /** Handing out an identity changes nothing else. */
  lemma RenumberedEvolves(p: Plan, s: RuntimeState, t: RuntimeState, next: nat, now: MonotonicMs)
    requires Evolves(p, s, t, now) && next <= U64_MAX
    ensures Evolves(p, s, t.(nextExecutionId := next), now)
  {
    hide BlockInv, SignalOk, BlockEvolves;
  }

  lemma {:induction false} DeliverOneCompletes(p: Plan, rank: BlockId -> nat, s: RuntimeState, execs: seq<BlockExecution>, k: nat,
                                               value: TypedValue, consumer: EndpointRef, now: MonotonicMs, utc: Option<int>)
    requires Ranks(EdgesOf(p), rank) && Known(p, consumer.block)
    requires Takes(p, BlockPosition(p.config.blocks, consumer.block).value, consumer.endpoint, value)
    requires Underway(p, rank, s, execs, k, TreeSize(EdgesOf(p), rank, consumer.block), now)
    ensures Completes(p, s, execs, TreeSize(EdgesOf(p), rank, consumer.block), DeliverOne(p, s, execs, k, value, consumer, now, utc), now)
    decreases Slack(p, execs), 0, 0
  {
    hide HandTo, PropagateOutputs, ValidPlan, Ranks, BlocksOk, SignalsOk;
    ChildStarts(p, rank, s, execs, k, value, consumer, now, utc);
    var d := HandTo(p, s, BlockPosition(p.config.blocks, consumer.block).value, consumer.endpoint, value, now, utc);
    if d.Executed? {
      var child := AssignId(d.s, d.execution, execs[k].execution.id);
      var more := execs + [BlockExecution(consumer.block, child.1)];
      PropagateCompletes(p, rank, child.0, more, |execs|, now, utc);
      EvolvesTwice(p, s, child.0, Propagate(p, child.0, more, |execs|, now, utc).s, now);
    }
  }
}
