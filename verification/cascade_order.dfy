/** A cascade is the depth-first preorder of a tree of executions. */
module CascadeOrder {
  import opened Values
  import opened SignalGraph
  import opened Configuration
  import opened LuaConversion
  import opened Engines
  import opened LogicBlocks
  import opened Cascades

  /** `x` was caused by `cause` and runs one of its eligible consumers. */
  ghost predicate ChildOf(cause: Option<nat>, eligible: seq<EndpointRef>, x: BlockExecution) {
    && x.execution.causalProducer == cause
    && x.execution.trigger.ByInput?
    && EndpointRef(x.block, x.execution.trigger.input.endpoint) in eligible
  }

  /** `xs` lists subtrees one after the other, each as its root followed by the
      subtrees below it. */
  ghost predicate Forest(cause: Option<nat>, eligible: seq<EndpointRef>, xs: seq<BlockExecution>)
    decreases |xs|
  {
    xs == [] ||
    exists m :: 0 < m <= |xs| && ChildOf(cause, eligible, xs[0])
                && Forest(xs[0].execution.id, xs[0].execution.eligibleConsumers, xs[1..m])
                && Forest(cause, eligible, xs[m..])
  }

  function IdAfter(first: nat, n: nat): nat { if first + n <= U64_MAX then first + n else U64_MAX }

  /** Consecutive identities from `first`, until the counter saturates. */
  ghost predicate Numbered(xs: seq<BlockExecution>, first: nat) {
    forall i :: 0 <= i < |xs| ==> xs[i].execution.id == Some(IdAfter(first, i))
  }

  /** Signal metadata aside, an execution keeps everything it had. */
  ghost predicate Kept(before: BlockExecution, after: BlockExecution) {
    && before.block == after.block
    && after.execution == before.execution.(signalEffects := after.execution.signalEffects,
                                            eligibleConsumers := after.execution.eligibleConsumers)
    && forall r :: r in before.execution.eligibleConsumers ==> r in after.execution.eligibleConsumers
  }

  /** No block becomes runnable during a cascade, and none is switched. */
  ghost predicate StillRunnable(s: RuntimeState, t: RuntimeState) {
    && |s.blocks| == |t.blocks|
    && (forall c :: 0 <= c < |s.blocks| && Runnable(t.blocks[c]) ==> Runnable(s.blocks[c]))
    && forall c :: 0 <= c < |s.blocks| ==> t.blocks[c].enabled == s.blocks[c].enabled
  }

  /** What propagating execution `k` adds to the list of executions. */
  ghost predicate Extends(s: RuntimeState, execs: seq<BlockExecution>, k: nat, o: Outcome)
    requires k < |execs|
  {
    && |execs| <= |o.execs|
    && (forall i :: 0 <= i < |execs| && i != k ==> o.execs[i] == execs[i])
    && Kept(execs[k], o.execs[k])
    && Forest(execs[k].execution.id, o.execs[k].execution.eligibleConsumers, o.execs[|execs|..])
    && Numbered(o.execs[|execs|..], s.nextExecutionId)
    && o.s.nextExecutionId == IdAfter(s.nextExecutionId, |o.execs| - |execs|)
    && StillRunnable(s, o.s)
  }

  // ----- forests ------------------------------------------------------------------------

  lemma {:induction false} ForestWidens(cause: Option<nat>, a: seq<EndpointRef>, b: seq<EndpointRef>, xs: seq<BlockExecution>)
    requires Forest(cause, a, xs) && forall r :: r in a ==> r in b
    ensures Forest(cause, b, xs)
    decreases |xs|
  {
    if xs != [] {
      var m :| 0 < m <= |xs| && ChildOf(cause, a, xs[0])
               && Forest(xs[0].execution.id, xs[0].execution.eligibleConsumers, xs[1..m]) && Forest(cause, a, xs[m..]);
      ForestWidens(cause, a, b, xs[m..]);
    }
  }

  /** The first subtree of a forest ends before `m`. */
  lemma FirstSubtree(cause: Option<nat>, eligible: seq<EndpointRef>, xs: seq<BlockExecution>) returns (m: nat)
    requires Forest(cause, eligible, xs) && xs != []
    ensures 0 < m <= |xs| && ChildOf(cause, eligible, xs[0])
    ensures Forest(xs[0].execution.id, xs[0].execution.eligibleConsumers, xs[1..m]) && Forest(cause, eligible, xs[m..])
  {
    m :| 0 < m <= |xs| && ChildOf(cause, eligible, xs[0])
         && Forest(xs[0].execution.id, xs[0].execution.eligibleConsumers, xs[1..m]) && Forest(cause, eligible, xs[m..]);
  }

  lemma SubtreesAreForest(cause: Option<nat>, eligible: seq<EndpointRef>, xs: seq<BlockExecution>, m: nat)
    requires 0 < m <= |xs| && ChildOf(cause, eligible, xs[0])
    requires Forest(xs[0].execution.id, xs[0].execution.eligibleConsumers, xs[1..m]) && Forest(cause, eligible, xs[m..])
    ensures Forest(cause, eligible, xs)
  {
  }

  lemma {:induction false} ForestAppends(cause: Option<nat>, eligible: seq<EndpointRef>, xs: seq<BlockExecution>, ys: seq<BlockExecution>)
    requires Forest(cause, eligible, xs) && Forest(cause, eligible, ys)
    ensures Forest(cause, eligible, xs + ys)
    decreases |xs|
  {
    hide Forest, ChildOf;
    if xs == [] {
      assert xs + ys == ys;
    } else {
      var m := FirstSubtree(cause, eligible, xs);
      ForestAppends(cause, eligible, xs[m..], ys);
      var all := xs + ys;
      assert all[0] == xs[0] && all[1..m] == xs[1..m] && all[m..] == xs[m..] + ys;
      SubtreesAreForest(cause, eligible, all, m);
    }
  }

  lemma TreeIsForest(cause: Option<nat>, eligible: seq<EndpointRef>, root: BlockExecution, below: seq<BlockExecution>)
    requires ChildOf(cause, eligible, root)
    requires Forest(root.execution.id, root.execution.eligibleConsumers, below)
    ensures Forest(cause, eligible, [root] + below)
  {
    var xs := [root] + below;
    var m := |xs|;
    assert xs[1..m] == below && xs[m..] == [];
  }

  lemma NumberedAppends(xs: seq<BlockExecution>, ys: seq<BlockExecution>, first: nat)
    requires first <= U64_MAX && Numbered(xs, first) && Numbered(ys, IdAfter(first, |xs|))
    ensures Numbered(xs + ys, first)
  {
  }

  // ----- composing propagation ------------------------------------------------------------

  lemma ExtendsNothing(s: RuntimeState, execs: seq<BlockExecution>, k: nat, error: Option<RuntimeEventError>)
    requires k < |execs| && s.nextExecutionId <= U64_MAX
    ensures Extends(s, execs, k, Outcome(s, execs, error))
  {
  }

  lemma ExtendsTwice(s: RuntimeState, execs: seq<BlockExecution>, k: nat, first: Outcome, second: Outcome)
    requires k < |execs| && s.nextExecutionId <= U64_MAX && Extends(s, execs, k, first)
    requires k < |first.execs| && Extends(first.s, first.execs, k, second)
    ensures Extends(s, execs, k, second)
  {
    hide Forest, Numbered, StillRunnable, IdAfter;
    var n := |execs|;
    var xs, ys := first.execs[n..], second.execs[|first.execs|..];
    assert second.execs[n..] == xs + ys;
    var cause, eligible := execs[k].execution.id, second.execs[k].execution.eligibleConsumers;
    ForestWidens(cause, first.execs[k].execution.eligibleConsumers, eligible, xs);
    ForestAppends(cause, eligible, xs, ys);
    IdsAfter(s.nextExecutionId, |xs|, |ys|);
    NumberedAppends(xs, ys, s.nextExecutionId);
    StillRunnableTwice(s, first.s, second.s);
  }

  lemma IdsAfter(first: nat, m: nat, n: nat)
    requires first <= U64_MAX
    ensures IdAfter(IdAfter(first, m), n) == IdAfter(first, m + n)
  {
  }

  lemma StillRunnableTwice(s: RuntimeState, t: RuntimeState, u: RuntimeState)
    requires StillRunnable(s, t) && StillRunnable(t, u)
    ensures StillRunnable(s, u)
  {
  }

  /** A child and everything below it extend the parent. */
  lemma ExtendsByChild(s: RuntimeState, execs: seq<BlockExecution>, k: nat, child: RuntimeState, x: BlockExecution, o: Outcome)
    requires k < |execs| && s.nextExecutionId <= U64_MAX
    requires child.nextExecutionId == NextId(s.nextExecutionId) && x.execution.id == Some(s.nextExecutionId)
    requires ChildOf(execs[k].execution.id, execs[k].execution.eligibleConsumers, x)
    requires StillRunnable(s, child)
    requires Extends(child, execs + [x], |execs|, o)
    ensures Extends(s, execs, k, o) && o.execs[k] == execs[k]
  {
    var n := |execs|;
    var root, below := o.execs[n], o.execs[n + 1..];
    assert o.execs[n..] == [root] + below;
    assert (execs + [x])[k] == execs[k] && (execs + [x])[n] == x;
    TreeIsForest(execs[k].execution.id, execs[k].execution.eligibleConsumers, root, below);
    assert Numbered([root], s.nextExecutionId);
    NumberedAppends([root], below, s.nextExecutionId);
  }

  lemma ObserveKeepsRunnable(p: Plan, s: RuntimeState, c: nat, endpoint: EndpointName, value: TypedValue, now: MonotonicMs)
    requires Shaped(p, s) && c < |s.blocks|
    ensures var d := ObserveAt(p, s, c, endpoint, value, now);
            StillRunnable(s, d.s) && d.s.nextExecutionId == s.nextExecutionId
  {
  }

  lemma AdmitKeepsRunnable(p: Plan, s: RuntimeState, c: nat, now: MonotonicMs, t: RuntimeState)
    requires c < |s.blocks|
    requires StillRunnable(WithBlock(s, c, Admit(s.blocks[c], now, p.host.limits.maxLiveExecutionsPerBlockPerSecond).0), t)
    ensures StillRunnable(s, t)
  {
  }

  lemma TriggerKeepsRunnable(p: Plan, s: RuntimeState, c: nat, endpoint: EndpointName, value: TypedValue, now: MonotonicMs, utc: Option<int>)
    requires Shaped(p, s) && c < |s.blocks| && Admit(s.blocks[c], now, p.host.limits.maxLiveExecutionsPerBlockPerSecond).1
    ensures var d := TriggerAt(p, s, c, endpoint, value, now, utc);
            && StillRunnable(s, d.s) && d.s.nextExecutionId == s.nextExecutionId
            && (d.Executed? ==> d.execution.trigger.ByInput? && d.execution.trigger.input.endpoint == endpoint)
  {
    hide ExecuteLogic, ObserveAt;
  }

  lemma HandToKeepsRunnable(p: Plan, s: RuntimeState, c: nat, endpoint: EndpointName, value: TypedValue, now: MonotonicMs, utc: Option<int>)
    requires Shaped(p, s) && c < |s.blocks|
    ensures var d := HandTo(p, s, c, endpoint, value, now, utc);
            && StillRunnable(s, d.s) && d.s.nextExecutionId == s.nextExecutionId
            && (d.Executed? ==> Runnable(s.blocks[c]) && d.execution.trigger.ByInput? && d.execution.trigger.input.endpoint == endpoint)
  {
    hide ObserveAt, Evaluate, StillRunnable;
    if Runnable(s.blocks[c]) {
      var (b, admitted) := Admit(s.blocks[c], now, p.host.limits.maxLiveExecutionsPerBlockPerSecond);
      if admitted {
        TriggerKeepsRunnable(p, s, c, endpoint, value, now, utc);
      } else {
        ObserveKeepsRunnable(p, WithBlock(s, c, b), c, endpoint, value, now);
        AdmitKeepsRunnable(p, s, c, now, ObserveAt(p, WithBlock(s, c, b), c, endpoint, value, now).s);
      }
    } else {
      ObserveKeepsRunnable(p, s, c, endpoint, value, now);
    }
  }

  /** Consumers still to be served that may run are recorded as eligible. */
  ghost predicate Foreseen(p: Plan, s: RuntimeState, x: BlockExecution, consumers: seq<EndpointRef>)
    requires |s.blocks| == |p.config.blocks|
  {
    forall r :: r in consumers && Known(p, r.block) && Runnable(s.blocks[BlockPosition(p.config.blocks, r.block).value])
      ==> r in x.execution.eligibleConsumers
  }

  lemma {:induction false} EligibleComplete(p: Plan, s: RuntimeState, consumers: seq<EndpointRef>, n: nat, r: EndpointRef)
    requires |s.blocks| == |p.config.blocks| && n <= |consumers|
    requires r in consumers[..n] && Known(p, r.block) && Runnable(s.blocks[BlockPosition(p.config.blocks, r.block).value])
    ensures r in Eligible(p, s, consumers, n)
  {
    if r in consumers[..n - 1] {
      EligibleComplete(p, s, consumers, n - 1, r);
    } else {
      assert consumers[..n] == consumers[..n - 1] + [consumers[n - 1]];
    }
  }

  // ----- the main result --------------------------------------------------------------------

  /** Propagation appends the depth-first preorder of what the execution
      caused: identities are consecutive, each execution names the identity of
      its parent, and each runs a consumer its parent recorded as eligible. */
  lemma {:induction false} PropagateOrder(p: Plan, s: RuntimeState, execs: seq<BlockExecution>, k: nat, now: MonotonicMs, utc: Option<int>)
    requires Shaped(p, s) && k < |execs| && Known(p, execs[k].block) && s.nextExecutionId <= U64_MAX
    ensures Extends(s, execs, k, Propagate(p, s, execs, k, now, utc))
    decreases Slack(p, execs), 4, 0
  {
    if execs[k].execution.outcome.Ok? {
      OutputsOrder(p, s, execs, k, execs[k].execution.outcome.value.outputs, 0, now, utc);
    } else {
      ExtendsNothing(s, execs, k, None);
    }
  }

  lemma {:induction false} OutputsOrder(p: Plan, s: RuntimeState, execs: seq<BlockExecution>, k: nat, outputs: seq<OutputEffect>, i: nat,
                                        now: MonotonicMs, utc: Option<int>)
    requires Shaped(p, s) && k < |execs| && Known(p, execs[k].block) && i <= |outputs| && s.nextExecutionId <= U64_MAX
    ensures Extends(s, execs, k, PropagateOutputs(p, s, execs, k, outputs, i, now, utc))
    decreases Slack(p, execs), 3, |outputs| - i
  {
    hide HandTo, ObserveAt;
    if i == |outputs| {
      ExtendsNothing(s, execs, k, None);
    } else {
      OutputOrder(p, s, execs, k, outputs[i], now, utc);
      var o := PropagateOutput(p, s, execs, k, outputs[i], now, utc);
      if o.error.None? {
        OutputsOrder(p, o.s, o.execs, k, outputs, i + 1, now, utc);
        ExtendsTwice(s, execs, k, o, PropagateOutputs(p, o.s, o.execs, k, outputs, i + 1, now, utc));
      }
    }
  }

  /** The signal effect one output records on its execution. */
  function Recorded(p: Plan, s: RuntimeState, block: BlockId, output: OutputEffect, id: Option<nat>): seq<SignalEffect>
    requires |s.signals| == |p.config.signals| && Known(p, block)
  {
    var at := SignalOf(p, block, output.endpoint);
    if at.None? then [] else [EffectOf(p, s, block, output, at.value, id)]
  }

  /** The consumers one output records as eligible on its execution. */
  function RecordedEligible(p: Plan, s: RuntimeState, block: BlockId, output: OutputEffect): seq<EndpointRef>
    requires |s.blocks| == |p.config.blocks| && |s.signals| == |p.config.signals| && Known(p, block)
  {
    var at := SignalOf(p, block, output.endpoint);
    if at.Some? && s.signals[at.value].value != Some(output.value) then
      var consumers := Consumers(p, p.config.signals[at.value].name);
      Eligible(p, s, consumers, |consumers|)
    else []
  }

  lemma {:induction false} EligibleFromBlocks(p: Plan, s: RuntimeState, t: RuntimeState, consumers: seq<EndpointRef>, n: nat)
    requires |s.blocks| == |p.config.blocks| && t.blocks == s.blocks && n <= |consumers|
    ensures Eligible(p, t, consumers, n) == Eligible(p, s, consumers, n)
  {
    if n > 0 { EligibleFromBlocks(p, s, t, consumers, n - 1); }
  }

  /** Recording an effect and its eligible consumers adds no execution. */
  lemma AnnotateExtends(s: RuntimeState, t: RuntimeState, execs: seq<BlockExecution>, k: nat, effect: SignalEffect, eligible: seq<EndpointRef>)
    requires k < |execs| && s.nextExecutionId <= U64_MAX && t.nextExecutionId == s.nextExecutionId && t.blocks == s.blocks
    ensures Extends(s, execs, k, Outcome(t, Annotate(execs, k, effect, eligible), None))
  {
    ExtendsNothing(s, execs, k, None);
  }

  lemma {:induction false} OutputOrder(p: Plan, s: RuntimeState, execs: seq<BlockExecution>, k: nat, output: OutputEffect,
                                       now: MonotonicMs, utc: Option<int>)
    requires Shaped(p, s) && k < |execs| && Known(p, execs[k].block) && s.nextExecutionId <= U64_MAX
    ensures Extends(s, execs, k, PropagateOutput(p, s, execs, k, output, now, utc))
    ensures PropagateOutput(p, s, execs, k, output, now, utc).execs[k].execution.signalEffects
         == execs[k].execution.signalEffects + Recorded(p, s, execs[k].block, output, execs[k].execution.id)
    ensures PropagateOutput(p, s, execs, k, output, now, utc).execs[k].execution.eligibleConsumers
         == execs[k].execution.eligibleConsumers + RecordedEligible(p, s, execs[k].block, output)
    decreases Slack(p, execs), 2, 0
  {
    hide HandTo, ObserveAt, Forest, Numbered, StillRunnable, Eligible;
    var at := SignalOf(p, execs[k].block, output.endpoint);
    if at.None? {
      ExtendsNothing(s, execs, k, None);
    } else {
      var effect := EffectOf(p, s, execs[k].block, output, at.value, execs[k].execution.id);
      var published := Publish(s, at.value, output.value, now, execs[k].execution.id);
      var consumers := effect.consumers;
      var eligible := if effect.changed then Eligible(p, published, consumers, |consumers|) else [];
      var annotated := Annotate(execs, k, effect, eligible);
      AnnotateExtends(s, published, execs, k, effect, eligible);
      EligibleFromBlocks(p, s, published, consumers, |consumers|);
      if effect.changed {
        forall r | r in consumers && Known(p, r.block) && Runnable(published.blocks[BlockPosition(p.config.blocks, r.block).value])
          ensures r in eligible
        {
          assert consumers[..|consumers|] == consumers;
          EligibleComplete(p, published, consumers, |consumers|, r);
        }
        DeliverOrder(p, published, annotated, k, output.value, consumers, 0, now, utc);
        ExtendsTwice(s, execs, k, Outcome(published, annotated, None), Deliver(p, published, annotated, k, output.value, consumers, 0, now, utc));
      } else {
        RefreshOrder(p, published, annotated, k, output.value, consumers, 0, now);
        ExtendsTwice(s, execs, k, Outcome(published, annotated, None), Refresh(p, published, annotated, output.value, consumers, 0, now));
      }
    }
  }

  lemma {:induction false} RefreshOrder(p: Plan, s: RuntimeState, execs: seq<BlockExecution>, k: nat, value: TypedValue,
                                        consumers: seq<EndpointRef>, j: nat, now: MonotonicMs)
    requires Shaped(p, s) && k < |execs| && j <= |consumers| && s.nextExecutionId <= U64_MAX
    ensures Extends(s, execs, k, Refresh(p, s, execs, value, consumers, j, now))
    decreases |consumers| - j
  {
    hide HandTo, ObserveAt;
    ExtendsNothing(s, execs, k, None);
    if j < |consumers| {
      var c := BlockPosition(p.config.blocks, consumers[j].block);
      if c.None? {
        RefreshOrder(p, s, execs, k, value, consumers, j + 1, now);
      } else {
        ObserveKeepsRunnable(p, s, c.value, consumers[j].endpoint, value, now);
        var d := ObserveAt(p, s, c.value, consumers[j].endpoint, value, now);
        assert Extends(s, execs, k, Outcome(d.s, execs, None));
        if d.Observed? {
          RefreshOrder(p, d.s, execs, k, value, consumers, j + 1, now);
          ExtendsTwice(s, execs, k, Outcome(d.s, execs, None), Refresh(p, d.s, execs, value, consumers, j + 1, now));
        }
      }
    }
  }

  /** What was foreseen stays foreseen as the cascade proceeds. */
  lemma ForeseenStays(p: Plan, s: RuntimeState, t: RuntimeState, x: BlockExecution, consumers: seq<EndpointRef>)
    requires |s.blocks| == |t.blocks| == |p.config.blocks| && StillRunnable(s, t) && Foreseen(p, s, x, consumers)
    ensures Foreseen(p, t, x, consumers)
  {
  }

  lemma {:induction false} DeliverOrder(p: Plan, s: RuntimeState, execs: seq<BlockExecution>, k: nat, value: TypedValue,
                                        consumers: seq<EndpointRef>, j: nat, now: MonotonicMs, utc: Option<int>)
    requires Shaped(p, s) && k < |execs| && j <= |consumers| && s.nextExecutionId <= U64_MAX
    requires Foreseen(p, s, execs[k], consumers)
    ensures Extends(s, execs, k, Deliver(p, s, execs, k, value, consumers, j, now, utc))
    ensures Deliver(p, s, execs, k, value, consumers, j, now, utc).execs[k] == execs[k]
    decreases Slack(p, execs), 1, |consumers| - j
  {
    hide HandTo, ObserveAt, Forest, Numbered, Kept, Foreseen, StillRunnable, DeliverOne;
    if j == |consumers| {
      ExtendsNothing(s, execs, k, None);
    } else {
      DeliverOneOrder(p, s, execs, k, value, consumers, j, now, utc);
      var o := DeliverOne(p, s, execs, k, value, consumers[j], now, utc);
      if o.error.None? {
        ForeseenStays(p, s, o.s, execs[k], consumers);
        DeliverOrder(p, o.s, o.execs, k, value, consumers, j + 1, now, utc);
        ExtendsTwice(s, execs, k, o, Deliver(p, o.s, o.execs, k, value, consumers, j + 1, now, utc));
      }
    }
  }

  lemma {:induction false} DeliverOneOrder(p: Plan, s: RuntimeState, execs: seq<BlockExecution>, k: nat, value: TypedValue,
                                           consumers: seq<EndpointRef>, j: nat, now: MonotonicMs, utc: Option<int>)
    requires Shaped(p, s) && k < |execs| && j < |consumers| && s.nextExecutionId <= U64_MAX
    requires Foreseen(p, s, execs[k], consumers)
    ensures Extends(s, execs, k, DeliverOne(p, s, execs, k, value, consumers[j], now, utc))
    ensures DeliverOne(p, s, execs, k, value, consumers[j], now, utc).execs[k] == execs[k]
    decreases Slack(p, execs), 0, 0
  {
    hide HandTo, ObserveAt;
    ExtendsNothing(s, execs, k, None);
    var c := BlockPosition(p.config.blocks, consumers[j].block);
    if c.Some? && !(Runnable(s.blocks[c.value]) && |execs| >= p.host.limits.maxCascadeExecutions) {
      HandToKeepsRunnable(p, s, c.value, consumers[j].endpoint, value, now, utc);
      var d := HandTo(p, s, c.value, consumers[j].endpoint, value, now, utc);
      if d.Executed? {
        assert consumers[j] in consumers;
        var child := AssignId(d.s, d.execution, execs[k].execution.id);
        var x := BlockExecution(consumers[j].block, child.1);
        PropagateOrder(p, child.0, execs + [x], |execs|, now, utc);
        ExtendsByChild(s, execs, k, child.0, x, Propagate(p, child.0, execs + [x], |execs|, now, utc));
      }
    }
  }
}
