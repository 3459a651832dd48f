/** An induction principle for cascades: what every delivery keeps, a whole
    cascade keeps, and what every started execution has, all of them have. */
module CascadeInduction {
  import opened Values
  import opened Configuration
  import opened LuaConversion
  import opened Engines
  import opened Cascades

  /** What happens to the state on the way keeps `inv`. */
  ghost predicate Keeps(p: Plan, now: MonotonicMs, utc: Option<int>, inv: RuntimeState -> bool) {
    && (forall s, c: nat, endpoint, value :: Shaped(p, s) && inv(s) && c < |s.blocks| ==> inv(ObserveAt(p, s, c, endpoint, value, now).s))
    && (forall s, c: nat, endpoint, value :: Shaped(p, s) && inv(s) && c < |s.blocks| ==> inv(HandTo(p, s, c, endpoint, value, now, utc).s))
    && (forall s, at: nat, value, id :: Shaped(p, s) && inv(s) && at < |s.signals| ==> inv(Publish(s, at, value, now, id)))
    && (forall s, execution, cause :: inv(s) ==> inv(AssignId(s, execution, cause).0))
  }

  /** Every execution that a delivery starts has `good`, and signal metadata
      does not matter to it. */
  ghost predicate Starts(p: Plan, now: MonotonicMs, utc: Option<int>, inv: RuntimeState -> bool, good: BlockExecution -> bool) {
    && (forall s, c: nat, endpoint, value, cause ::
          Shaped(p, s) && inv(s) && c < |s.blocks| && HandTo(p, s, c, endpoint, value, now, utc).Executed? ==>
            var d := HandTo(p, s, c, endpoint, value, now, utc);
            good(BlockExecution(p.config.blocks[c].id, AssignId(d.s, d.execution, cause).1)))
    && (forall execs, k: nat, effect, eligible :: k < |execs| && good(execs[k]) ==> good(Annotate(execs, k, effect, eligible)[k]))
  }

  ghost predicate AllGood(execs: seq<BlockExecution>, good: BlockExecution -> bool) { forall i :: 0 <= i < |execs| ==> good(execs[i]) }

  ghost predicate Holds(o: Outcome, inv: RuntimeState -> bool, good: BlockExecution -> bool) { inv(o.s) && AllGood(o.execs, good) }

  lemma {:induction false} PropagateHolds(p: Plan, s: RuntimeState, execs: seq<BlockExecution>, k: nat, now: MonotonicMs, utc: Option<int>,
                                          inv: RuntimeState -> bool, good: BlockExecution -> bool)
    requires Keeps(p, now, utc, inv) && Starts(p, now, utc, inv, good)
    requires Shaped(p, s) && k < |execs| && Known(p, execs[k].block) && inv(s) && AllGood(execs, good)
    ensures Holds(Propagate(p, s, execs, k, now, utc), inv, good)
    decreases Slack(p, execs), 4, 0
  {
    hide PropagateOutputs, Keeps, Starts, Shaped;
    if execs[k].execution.outcome.Ok? {
      OutputsHold(p, s, execs, k, execs[k].execution.outcome.value.outputs, 0, now, utc, inv, good);
    }
  }

  lemma {:induction false} OutputsHold(p: Plan, s: RuntimeState, execs: seq<BlockExecution>, k: nat, outputs: seq<OutputEffect>, i: nat,
                                       now: MonotonicMs, utc: Option<int>, inv: RuntimeState -> bool, good: BlockExecution -> bool)
    requires Keeps(p, now, utc, inv) && Starts(p, now, utc, inv, good)
    requires Shaped(p, s) && k < |execs| && Known(p, execs[k].block) && i <= |outputs| && inv(s) && AllGood(execs, good)
    ensures Holds(PropagateOutputs(p, s, execs, k, outputs, i, now, utc), inv, good)
    decreases Slack(p, execs), 3, |outputs| - i
  {
    hide PropagateOutput, Keeps, Starts, Shaped, AllGood;
    if i < |outputs| {
      OutputHolds(p, s, execs, k, outputs[i], now, utc, inv, good);
      var o := PropagateOutput(p, s, execs, k, outputs[i], now, utc);
      if o.error.None? { OutputsHold(p, o.s, o.execs, k, outputs, i + 1, now, utc, inv, good); }
    }
  }

  lemma {:induction false} OutputHolds(p: Plan, s: RuntimeState, execs: seq<BlockExecution>, k: nat, output: OutputEffect,
                                       now: MonotonicMs, utc: Option<int>, inv: RuntimeState -> bool, good: BlockExecution -> bool)
    requires Keeps(p, now, utc, inv) && Starts(p, now, utc, inv, good)
    requires Shaped(p, s) && k < |execs| && Known(p, execs[k].block) && inv(s) && AllGood(execs, good)
    ensures Holds(PropagateOutput(p, s, execs, k, output, now, utc), inv, good)
    decreases Slack(p, execs), 2, 0
  {
    hide Deliver, Refresh, Eligible;
    var at := SignalOf(p, execs[k].block, output.endpoint);
    if at.Some? {
      var effect := EffectOf(p, s, execs[k].block, output, at.value, execs[k].execution.id);
      var published := Publish(s, at.value, output.value, now, execs[k].execution.id);
      var consumers := effect.consumers;
      var eligible := if effect.changed then Eligible(p, published, consumers, |consumers|) else [];
      var annotated := Annotate(execs, k, effect, eligible);
      AnnotatedGood(execs, k, effect, eligible, good);
      if effect.changed {
        DeliverHolds(p, published, annotated, k, output.value, consumers, 0, now, utc, inv, good);
      } else {
        RefreshHolds(p, published, annotated, output.value, consumers, 0, now, utc, inv);
      }
    }
  }

  lemma AnnotatedGood(execs: seq<BlockExecution>, k: nat, effect: SignalEffect, eligible: seq<EndpointRef>, good: BlockExecution -> bool)
    requires k < |execs| && AllGood(execs, good) && good(Annotate(execs, k, effect, eligible)[k])
    ensures AllGood(Annotate(execs, k, effect, eligible), good)
  {
  }

  lemma {:induction false} RefreshHolds(p: Plan, s: RuntimeState, execs: seq<BlockExecution>, value: TypedValue, consumers: seq<EndpointRef>, j: nat,
                                        now: MonotonicMs, utc: Option<int>, inv: RuntimeState -> bool)
    requires Keeps(p, now, utc, inv) && Shaped(p, s) && inv(s) && j <= |consumers|
    ensures inv(Refresh(p, s, execs, value, consumers, j, now).s)
    decreases |consumers| - j
  {
    hide ObserveAt, HandTo;
    if j < |consumers| {
      var c := BlockPosition(p.config.blocks, consumers[j].block);
      if c.None? {
        RefreshHolds(p, s, execs, value, consumers, j + 1, now, utc, inv);
      } else {
        var d := ObserveAt(p, s, c.value, consumers[j].endpoint, value, now);
        RefreshHolds(p, d.s, execs, value, consumers, j + 1, now, utc, inv);
      }
    }
  }

  lemma {:induction false} DeliverHolds(p: Plan, s: RuntimeState, execs: seq<BlockExecution>, k: nat, value: TypedValue, consumers: seq<EndpointRef>, j: nat,
                                        now: MonotonicMs, utc: Option<int>, inv: RuntimeState -> bool, good: BlockExecution -> bool)
    requires Keeps(p, now, utc, inv) && Starts(p, now, utc, inv, good)
    requires Shaped(p, s) && k < |execs| && j <= |consumers| && inv(s) && AllGood(execs, good)
    ensures Holds(Deliver(p, s, execs, k, value, consumers, j, now, utc), inv, good)
    decreases Slack(p, execs), 1, |consumers| - j
  {
    hide DeliverOne, Keeps, Starts, Shaped, AllGood;
    if j < |consumers| {
      DeliverOneHolds(p, s, execs, k, value, consumers[j], now, utc, inv, good);
      var o := DeliverOne(p, s, execs, k, value, consumers[j], now, utc);
      if o.error.None? { DeliverHolds(p, o.s, o.execs, k, value, consumers, j + 1, now, utc, inv, good); }
    }
  }

  lemma {:induction false} DeliverOneHolds(p: Plan, s: RuntimeState, execs: seq<BlockExecution>, k: nat, value: TypedValue, consumer: EndpointRef,
                                           now: MonotonicMs, utc: Option<int>, inv: RuntimeState -> bool, good: BlockExecution -> bool)
    requires Keeps(p, now, utc, inv) && Starts(p, now, utc, inv, good)
    requires Shaped(p, s) && k < |execs| && inv(s) && AllGood(execs, good)
    ensures Holds(DeliverOne(p, s, execs, k, value, consumer, now, utc), inv, good)
    decreases Slack(p, execs), 0, 0
  {
    hide HandTo, ObserveAt, Propagate;
    var at := BlockPosition(p.config.blocks, consumer.block);
    if at.Some? && !(Runnable(s.blocks[at.value]) && |execs| >= p.host.limits.maxCascadeExecutions) {
      var d := HandTo(p, s, at.value, consumer.endpoint, value, now, utc);
      if d.Executed? {
        RunnableOnlyExecutes(p, s, at.value, consumer.endpoint, value, now, utc);
        var child := AssignId(d.s, d.execution, execs[k].execution.id);
        var more := execs + [BlockExecution(consumer.block, child.1)];
        assert p.config.blocks[at.value].id == consumer.block;
        PropagateHolds(p, child.0, more, |execs|, now, utc, inv, good);
      }
    }
  }
}
