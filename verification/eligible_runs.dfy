/** Every consumer that an execution records as eligible runs in the same
    cascade, unless its block ends suspended. */
module EligibleRuns {
  import opened Values
  import opened Configuration
  import opened LuaConversion
  import opened Engines
  import opened LogicBlocks
  import opened Cascades
  import opened CascadeOrder
  import opened PlanFacts
  import opened CascadeSafety
  import opened RuntimeEvents
  import opened RuntimeSafety

  /** Execution `m` was caused by execution `i` and ran consumer `r`. */
  ghost predicate RanFor(execs: seq<BlockExecution>, i: nat, r: EndpointRef, m: nat) {
    && i < m < |execs| && execs[m].block == r.block && execs[m].execution.causalProducer == execs[i].execution.id
    && execs[m].execution.trigger.ByInput? && execs[m].execution.trigger.input.endpoint == r.endpoint
  }

  /** The block of `r` may not run. */
  ghost predicate Stopped(p: Plan, s: RuntimeState, r: EndpointRef)
    requires |s.blocks| == |p.config.blocks|
  {
    var c := BlockPosition(p.config.blocks, r.block);
    c.Some? ==> !Runnable(s.blocks[c.value])
  }

  ghost predicate ServedBy(p: Plan, s: RuntimeState, execs: seq<BlockExecution>, i: nat, r: EndpointRef)
    requires |s.blocks| == |p.config.blocks|
  {
    Stopped(p, s, r) || exists m :: RanFor(execs, i, r, m)
  }

  /** All that executions from `n` on recorded has been served. */
  ghost predicate ServedFrom(p: Plan, s: RuntimeState, execs: seq<BlockExecution>, n: nat)
    requires |s.blocks| == |p.config.blocks|
  {
    forall i, r :: n <= i < |execs| && r in execs[i].execution.eligibleConsumers ==> ServedBy(p, s, execs, i, r)
  }

  /** Executions and state move on, and what was served stays served. */
  ghost predicate MovesOn(s: RuntimeState, execs: seq<BlockExecution>, k: nat, t: RuntimeState, later: seq<BlockExecution>) {
    && StillRunnable(s, t) && k < |execs| <= |later|
    && (forall i :: 0 <= i < |execs| && i != k ==> later[i] == execs[i])
    && Kept(execs[k], later[k])
  }

  lemma StaysServed(p: Plan, s: RuntimeState, execs: seq<BlockExecution>, k: nat, t: RuntimeState, later: seq<BlockExecution>, i: nat, r: EndpointRef)
    requires |s.blocks| == |p.config.blocks| && MovesOn(s, execs, k, t, later) && i < |execs| && ServedBy(p, s, execs, i, r)
    ensures ServedBy(p, t, later, i, r)
  {
    if m :| RanFor(execs, i, r, m) { assert RanFor(later, i, r, m); }
  }

  lemma StayServedFrom(p: Plan, s: RuntimeState, execs: seq<BlockExecution>, k: nat, t: RuntimeState, later: seq<BlockExecution>, n: nat)
    requires |s.blocks| == |p.config.blocks| && MovesOn(s, execs, k, t, later) && k < n <= |execs|
    requires ServedFrom(p, s, execs, n) && ServedFrom(p, t, later, |execs|)
    ensures ServedFrom(p, t, later, n)
  {
    hide ServedBy;
    forall i, r | n <= i < |later| && r in later[i].execution.eligibleConsumers ensures ServedBy(p, t, later, i, r) {
      if i < |execs| { StaysServed(p, s, execs, k, t, later, i, r); }
    }
  }

  // ----- one delivery ------------------------------------------------------------------------------

  /** A consumer that only observes may not run afterwards. */
  lemma ObserverStopped(p: Plan, s: RuntimeState, c: nat, endpoint: EndpointName, value: TypedValue, now: MonotonicMs, utc: Option<int>)
    requires Shaped(p, s) && c < |s.blocks|
    ensures var d := HandTo(p, s, c, endpoint, value, now, utc); d.Observed? ==> !Runnable(d.s.blocks[c])
  {
    hide Evaluate, Pruned;
  }

  lemma ChildStartsEmpty(p: Plan, s: RuntimeState, c: nat, endpoint: EndpointName, value: TypedValue, now: MonotonicMs, utc: Option<int>)
    requires Shaped(p, s) && c < |s.blocks|
    ensures var d := HandTo(p, s, c, endpoint, value, now, utc); d.Executed? ==> d.execution.eligibleConsumers == []
  {
    hide ExecuteLogic, Pruned, ObserveAt;
  }

  /** What following an execution guarantees of the executions it adds, and of
      what it records on execution `k`. */
  ghost predicate Serves(p: Plan, execs: seq<BlockExecution>, k: nat, o: Outcome)
    requires |o.s.blocks| == |p.config.blocks|
  {
    o.error.None? ==>
      && k < |execs| <= |o.execs| && ServedFrom(p, o.s, o.execs, |execs|)
      && forall r :: r in o.execs[k].execution.eligibleConsumers ==> r in execs[k].execution.eligibleConsumers || ServedBy(p, o.s, o.execs, k, r)
  }

  lemma ServesNothing(p: Plan, s: RuntimeState, execs: seq<BlockExecution>, k: nat)
    requires |s.blocks| == |p.config.blocks| && k < |execs|
    ensures Serves(p, execs, k, Outcome(s, execs, None))
  {
  }

  lemma ServesTwice(p: Plan, s: RuntimeState, execs: seq<BlockExecution>, k: nat, first: Outcome, second: Outcome)
    requires |first.s.blocks| == |second.s.blocks| == |p.config.blocks| && first.error.None?
    requires Serves(p, execs, k, first) && Serves(p, first.execs, k, second) && (second.error.None? ==> MovesOn(first.s, first.execs, k, second.s, second.execs))
    ensures Serves(p, execs, k, second)
  {
    hide ServedBy, ServedFrom, MovesOn;
    if second.error.None? {
      StayServedFrom(p, first.s, first.execs, k, second.s, second.execs, |execs|);
      forall r | r in second.execs[k].execution.eligibleConsumers && r !in execs[k].execution.eligibleConsumers
        ensures ServedBy(p, second.s, second.execs, k, r)
      {
        if r in first.execs[k].execution.eligibleConsumers { StaysServed(p, first.s, first.execs, k, second.s, second.execs, k, r); }
      }
    }
  }

  lemma ExtendsMovesOn(s: RuntimeState, execs: seq<BlockExecution>, k: nat, o: Outcome)
    requires k < |execs| && Extends(s, execs, k, o)
    ensures MovesOn(s, execs, k, o.s, o.execs)
  {
  }

  // ----- the induction ---------------------------------------------------------------------------------

  lemma {:induction false} PropagateServes(p: Plan, s: RuntimeState, execs: seq<BlockExecution>, k: nat, now: MonotonicMs, utc: Option<int>)
    requires Shaped(p, s) && k < |execs| && Known(p, execs[k].block) && s.nextExecutionId <= U64_MAX
    ensures Serves(p, execs, k, Propagate(p, s, execs, k, now, utc))
    decreases Slack(p, execs), 4, 0
  {
    hide PropagateOutputs, Serves;
    if execs[k].execution.outcome.Ok? {
      OutputsServe(p, s, execs, k, execs[k].execution.outcome.value.outputs, 0, now, utc);
    } else {
      ServesNothing(p, s, execs, k);
    }
  }

  lemma {:induction false} OutputsServe(p: Plan, s: RuntimeState, execs: seq<BlockExecution>, k: nat, outputs: seq<OutputEffect>, i: nat,
                                        now: MonotonicMs, utc: Option<int>)
    requires Shaped(p, s) && k < |execs| && Known(p, execs[k].block) && i <= |outputs| && s.nextExecutionId <= U64_MAX
    ensures Serves(p, execs, k, PropagateOutputs(p, s, execs, k, outputs, i, now, utc))
    decreases Slack(p, execs), 3, |outputs| - i
  {
    hide PropagateOutput, Serves, Forest, Numbered, StillRunnable, Kept, MovesOn;
    if i == |outputs| {
      ServesNothing(p, s, execs, k);
    } else {
      OutputServes(p, s, execs, k, outputs[i], now, utc);
      OutputOrder(p, s, execs, k, outputs[i], now, utc);
      var o := PropagateOutput(p, s, execs, k, outputs[i], now, utc);
      if o.error.None? {
        OutputsServe(p, o.s, o.execs, k, outputs, i + 1, now, utc);
        OutputsOrder(p, o.s, o.execs, k, outputs, i + 1, now, utc);
        var rest := PropagateOutputs(p, o.s, o.execs, k, outputs, i + 1, now, utc);
        ExtendsMovesOn(o.s, o.execs, k, rest);
        ServesTwice(p, s, execs, k, o, rest);
      }
    }
  }

  lemma {:induction false} OutputServes(p: Plan, s: RuntimeState, execs: seq<BlockExecution>, k: nat, output: OutputEffect, now: MonotonicMs, utc: Option<int>)
    requires Shaped(p, s) && k < |execs| && Known(p, execs[k].block) && s.nextExecutionId <= U64_MAX
    ensures Serves(p, execs, k, PropagateOutput(p, s, execs, k, output, now, utc))
    decreases Slack(p, execs), 2, 0
  {
    hide Deliver, Refresh, Eligible, ServedBy, Foreseen;
    var at := SignalOf(p, execs[k].block, output.endpoint);
    if at.None? {
      ServesNothing(p, s, execs, k);
    } else {
      var effect := EffectOf(p, s, execs[k].block, output, at.value, execs[k].execution.id);
      var published := Publish(s, at.value, output.value, now, execs[k].execution.id);
      var consumers := effect.consumers;
      var eligible := if effect.changed then Eligible(p, published, consumers, |consumers|) else [];
      var annotated := Annotate(execs, k, effect, eligible);
      if effect.changed {
        EligibleForeseen(p, published, consumers, annotated[k]);
        EligibleAmong(p, published, consumers, |consumers|);
        DeliverServes(p, published, annotated, k, output.value, consumers, 0, now, utc);
        DeliverOrder(p, published, annotated, k, output.value, consumers, 0, now, utc);
      }
    }
  }

  lemma EligibleForeseen(p: Plan, s: RuntimeState, consumers: seq<EndpointRef>, x: BlockExecution)
    requires |s.blocks| == |p.config.blocks| && forall r :: r in Eligible(p, s, consumers, |consumers|) ==> r in x.execution.eligibleConsumers
    ensures Foreseen(p, s, x, consumers)
  {
    forall r | r in consumers && Known(p, r.block) && Runnable(s.blocks[BlockPosition(p.config.blocks, r.block).value])
      ensures r in x.execution.eligibleConsumers
    {
      assert consumers[..|consumers|] == consumers;
      EligibleComplete(p, s, consumers, |consumers|, r);
    }
  }

  lemma {:induction false} EligibleAmong(p: Plan, s: RuntimeState, consumers: seq<EndpointRef>, n: nat)
    requires |s.blocks| == |p.config.blocks| && n <= |consumers|
    ensures forall r :: r in Eligible(p, s, consumers, n) ==> r in consumers
  {
    if n > 0 { EligibleAmong(p, s, consumers, n - 1); }
  }

  /** Consumers from `j` on are served. */
  ghost predicate ServesConsumers(p: Plan, execs: seq<BlockExecution>, k: nat, consumers: seq<EndpointRef>, j: nat, o: Outcome)
    requires |o.s.blocks| == |p.config.blocks|
  {
    o.error.None? ==>
      && k < |execs| <= |o.execs| && ServedFrom(p, o.s, o.execs, |execs|)
      && forall i :: j <= i < |consumers| ==> ServedBy(p, o.s, o.execs, k, consumers[i])
  }

  lemma {:induction false} DeliverServes(p: Plan, s: RuntimeState, execs: seq<BlockExecution>, k: nat, value: TypedValue, consumers: seq<EndpointRef>, j: nat,
                                         now: MonotonicMs, utc: Option<int>)
    requires Shaped(p, s) && k < |execs| && j <= |consumers| && s.nextExecutionId <= U64_MAX && Foreseen(p, s, execs[k], consumers)
    ensures ServesConsumers(p, execs, k, consumers, j, Deliver(p, s, execs, k, value, consumers, j, now, utc))
    decreases Slack(p, execs), 1, |consumers| - j
  {
    hide DeliverOne, ServedBy, Forest, Numbered, StillRunnable, Kept, MovesOn, Foreseen;
    if j < |consumers| {
      DeliverOneServes(p, s, execs, k, value, consumers, j, now, utc);
      DeliverOneOrder(p, s, execs, k, value, consumers, j, now, utc);
      var o := DeliverOne(p, s, execs, k, value, consumers[j], now, utc);
      if o.error.None? {
        ForeseenStays(p, s, o.s, execs[k], consumers);
        DeliverServes(p, o.s, o.execs, k, value, consumers, j + 1, now, utc);
        DeliverOrder(p, o.s, o.execs, k, value, consumers, j + 1, now, utc);
        var rest := Deliver(p, o.s, o.execs, k, value, consumers, j + 1, now, utc);
        ExtendsMovesOn(o.s, o.execs, k, rest);
        if rest.error.None? {
          StayServedFrom(p, o.s, o.execs, k, rest.s, rest.execs, |execs|);
          StaysServed(p, o.s, o.execs, k, rest.s, rest.execs, k, consumers[j]);
        }
      }
    }
  }

  lemma {:induction false} DeliverOneServes(p: Plan, s: RuntimeState, execs: seq<BlockExecution>, k: nat, value: TypedValue, consumers: seq<EndpointRef>, j: nat,
                                            now: MonotonicMs, utc: Option<int>)
    requires Shaped(p, s) && k < |execs| && j < |consumers| && s.nextExecutionId <= U64_MAX && Foreseen(p, s, execs[k], consumers)
    ensures var o := DeliverOne(p, s, execs, k, value, consumers[j], now, utc);
            o.error.None? ==> k < |execs| <= |o.execs| && ServedFrom(p, o.s, o.execs, |execs|) && ServedBy(p, o.s, o.execs, k, consumers[j])
    decreases Slack(p, execs), 0, 0
  {
    hide HandTo, Propagate, Forest, Numbered, StillRunnable, Foreseen;
    var r := consumers[j];
    var at := BlockPosition(p.config.blocks, r.block);
    if at.Some? && !(Runnable(s.blocks[at.value]) && |execs| >= p.host.limits.maxCascadeExecutions) {
      HandToKeepsRunnable(p, s, at.value, r.endpoint, value, now, utc);
      ObserverStopped(p, s, at.value, r.endpoint, value, now, utc);
      ChildStartsEmpty(p, s, at.value, r.endpoint, value, now, utc);
      var d := HandTo(p, s, at.value, r.endpoint, value, now, utc);
      if d.Executed? {
        var child := AssignId(d.s, d.execution, execs[k].execution.id);
        var more := execs + [BlockExecution(r.block, child.1)];
        PropagateServes(p, child.0, more, |execs|, now, utc);
        PropagateOrder(p, child.0, more, |execs|, now, utc);
        ChildServes(p, execs, k, r, more, Propagate(p, child.0, more, |execs|, now, utc));
      }
    }
  }

  lemma ChildServes(p: Plan, execs: seq<BlockExecution>, k: nat, r: EndpointRef, more: seq<BlockExecution>, o: Outcome)
    requires |o.s.blocks| == |p.config.blocks| && k < |execs| && |more| == |execs| + 1 && more[..|execs|] == execs
    requires RanFor(more, k, r, |execs|) && more[|execs|].execution.eligibleConsumers == [] && Serves(p, more, |execs|, o)
    requires |more| <= |o.execs| && (forall i :: 0 <= i < |execs| ==> o.execs[i] == more[i]) && Kept(more[|execs|], o.execs[|execs|])
    ensures o.error.None? ==> ServedFrom(p, o.s, o.execs, |execs|) && ServedBy(p, o.s, o.execs, k, r)
  {
    assert more[k] == more[..|execs|][k] == execs[k];
    assert RanFor(o.execs, k, r, |execs|);
  }

  // ----- events -----------------------------------------------------------------------------------------------

  /** Every eligible consumer of every execution was run by a later execution of
      the same cascade that names it as its cause, or its block is stopped. */
  lemma FollowedConsumersRun(p: Plan, checkpoint: RuntimeState, s: RuntimeState, x: BlockExecution, now: MonotonicMs, utc: Option<int>)
    requires Shaped(p, checkpoint) && Shaped(p, s) && Known(p, x.block) && s.nextExecutionId <= U64_MAX && x.execution.eligibleConsumers == []
    ensures var r := Follow(p, checkpoint, s, x, now, utc); r.result.Ok? ==> ServedFrom(p, r.s, r.result.value, 0)
  {
    hide Propagate, UsageError, ServedBy;
    assert [x][0] == x;
    PropagateServes(p, s, [x], 0, now, utc);
  }

  ghost predicate StartsEmpty(root: Root) {
    root.result.Ok? && root.result.value.Some? ==> root.result.value.value.execution.eligibleConsumers == [] && root.s.nextExecutionId <= U64_MAX
  }

  lemma ExecutionsStartEmpty(host: Host, endpoints: seq<Endpoint>, e: EngineState, name: EndpointName, update: InputUpdate, now: MonotonicMs, utc: Option<int>)
    requires |e.inputs| == |endpoints|
    ensures var r := ProcessUpdate(host, endpoints, e, name, update, now, utc).result; r.Ok? && r.value.Some? ==> r.value.value.eligibleConsumers == []
    ensures var r := ProcessTimer(host, endpoints, e, now, utc).result; r.Ok? && r.value.Some? ==> r.value.value.eligibleConsumers == []
  {
    hide ExecuteLogic, Snapshots;
  }

  lemma UpdateStartsEmpty(p: Plan, s: RuntimeState, id: BlockId, endpoint: EndpointName, update: InputUpdate, now: MonotonicMs, utc: Option<int>)
    requires Shaped(p, s) && s.nextExecutionId <= U64_MAX
    ensures StartsEmpty(UpdateRoot(p, s, id, endpoint, update, now, utc))
  {
    hide ProcessUpdate, Admit, Record, ValidateUpdate;
    var at := BlockPosition(p.config.blocks, id);
    if at.Some? {
      var endpoints, b := p.config.blocks[at.value].endpoints, s.blocks[at.value];
      var ready := Admit(b, now, p.host.limits.maxLiveExecutionsPerBlockPerSecond).0;
      AdmitKeepsSize(b, now, p.host.limits.maxLiveExecutionsPerBlockPerSecond);
      ExecutionsStartEmpty(p.host, endpoints, b.engine, endpoint, update, now, utc);
      ExecutionsStartEmpty(p.host, endpoints, ready.engine, endpoint, update, now, utc);
      if update.TriggerWith? {
        ExecutionsStartEmpty(p.host, endpoints, b.engine, endpoint, Observe(update.value), now, utc);
        ExecutionsStartEmpty(p.host, endpoints, ready.engine, endpoint, Observe(update.value), now, utc);
      }
    }
  }

  lemma AdmitKeepsSize(b: BlockState, now: MonotonicMs, maximum: nat)
    ensures Admit(b, now, maximum).0.engine.inputs == b.engine.inputs
  {
  }

  lemma TimerStartsEmpty(p: Plan, s: RuntimeState, now: MonotonicMs, utc: Option<int>)
    requires Shaped(p, s) && s.nextExecutionId <= U64_MAX
    ensures StartsEmpty(TimerRoot(p, s, now, utc))
  {
    hide ProcessTimer, Admit, Record;
    var first := FirstBlock(p, s, now);
    if first.Some? {
      var ready := Admit(s.blocks[first.value], now, p.host.limits.maxLiveExecutionsPerBlockPerSecond).0;
      AdmitKeepsSize(s.blocks[first.value], now, p.host.limits.maxLiveExecutionsPerBlockPerSecond);
      ExecutionsStartEmpty(p.host, p.config.blocks[first.value].endpoints, ready.engine, 0, Invalidate, now, utc);
    }
  }

  lemma ScheduleStartsEmpty(p: Plan, s: RuntimeState, trigger: ScheduleTrigger, now: MonotonicMs)
    requires Shaped(p, s) && s.nextExecutionId <= U64_MAX
    ensures StartsEmpty(ScheduleRoot(p, s, trigger, now))
  {
    hide ExecuteLogic, Snapshots, Admit, Record, TriggerCurrent;
  }

  lemma RunServes(p: Plan, s: RuntimeState, root: Root, restores: bool, now: MonotonicMs, utc: Option<int>)
    requires Shaped(p, s) && Shaped(p, root.s) && StartsEmpty(root)
    requires root.result.Ok? && root.result.value.Some? ==> Known(p, root.result.value.value.block)
    ensures var r := RunEvent(p, s, root, restores, now, utc); r.result.Ok? ==> ServedFrom(p, r.s, r.result.value, 0)
  {
    hide Follow, ServedBy;
    if root.result.Ok? && root.result.value.Some? { FollowedConsumersRun(p, s, root.s, root.result.value.value, now, utc); }
  }

  /** In every event that succeeds, each consumer that an execution recorded as
      eligible is run by a later execution it caused, unless the consumer's block
      has been suspended by the end. */
  lemma EventsServe(p: Plan, s: RuntimeState, id: BlockId, endpoint: EndpointName, update: InputUpdate, trigger: ScheduleTrigger,
                    now: MonotonicMs, utc: Option<int>)
    requires Inv(p, s) && DistinctBlocks(p.config.blocks)
    ensures var r := InputEvent(p, s, id, endpoint, update, now, utc); r.result.Ok? ==> ServedFrom(p, r.s, r.result.value, 0)
    ensures var r := TimerEvent(p, s, now, utc); r.result.Ok? ==> ServedFrom(p, r.s, r.result.value, 0)
    ensures var r := ScheduleEvent(p, s, trigger, now, utc); r.result.Ok? ==> ServedFrom(p, r.s, r.result.value, 0)
  {
    hide UpdateRoot, TimerRoot, ScheduleRoot, RunEvent, BlocksOk, SignalsOk, ServedBy;
    RootsAreKnown(p, s);
    UpdateStartsEmpty(p, s, id, endpoint, update, now, utc);
    TimerStartsEmpty(p, s, now, utc);
    ScheduleStartsEmpty(p, s, trigger, now);
    RunServes(p, s, UpdateRoot(p, s, id, endpoint, update, now, utc), true, now, utc);
    RunServes(p, s, TimerRoot(p, s, now, utc), false, now, utc);
    RunServes(p, s, ScheduleRoot(p, s, trigger, now), false, now, utc);
  }
}
