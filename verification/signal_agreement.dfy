/** After a cascade every consumer holds the value of the signal it consumes,
    and what a cascade will publish can be read off the state before it. */
module SignalAgreement {
  import opened Values
  import opened SignalGraph
  import opened Configuration
  import opened Topology
  import opened LuaConversion
  import opened Engines
  import opened LogicBlocks
  import opened Cascades
  import opened CascadeOrder
  import opened PlanFacts

  /** A ranking of the blocks, and whether agreement is followed. */
  datatype View = View(rank: BlockId -> nat, tracking: bool)

  /** The stored input behind an endpoint reference. */
  ghost function InputAt(p: Plan, s: RuntimeState, r: EndpointRef): InputState
    requires Shaped(p, s)
  {
    var c := BlockPosition(p.config.blocks, r.block);
    if c.None? then InputState(None, None)
    else
      var e := EndpointPosition(p.config.blocks[c.value].endpoints, r.endpoint);
      if e.None? then InputState(None, None) else s.blocks[c.value].engine.inputs[e.value]
  }

  ghost function ConsumersAt(p: Plan, at: nat): seq<EndpointRef>
    requires at < |p.config.signals|
  {
    Consumers(p, NameOf(p, at))
  }

  /** The first `n` consumers hold the signal's value and observation time. */
  ghost predicate AgreesUpTo(p: Plan, s: RuntimeState, at: nat, n: nat)
    requires Shaped(p, s) && at < |s.signals|
  {
    forall i :: 0 <= i < |ConsumersAt(p, at)| && i < n ==>
      InputAt(p, s, ConsumersAt(p, at)[i]) == InputState(s.signals[at].value, s.signals[at].observedAt)
  }

  ghost predicate Agrees(p: Plan, s: RuntimeState, at: nat)
    requires Shaped(p, s) && at < |s.signals|
  {
    s.signals[at].value.Some? ==> AgreesUpTo(p, s, at, |ConsumersAt(p, at)|)
  }

  ghost predicate AllAgree(p: Plan, s: RuntimeState)
    requires Shaped(p, s)
  {
    forall at :: 0 <= at < |s.signals| ==> Agrees(p, s, at)
  }

  /** The signal is produced by a block ranked below `bound`. */
  ghost predicate Under(p: Plan, v: View, at: nat, bound: nat)
    requires at < |p.config.signals|
  {
    var producers := ProducersIn(PlanBindings(p));
    NameOf(p, at) in producers && v.rank(producers[NameOf(p, at)].block) < bound
  }

  ghost predicate AgreeUnder(p: Plan, v: View, s: RuntimeState, bound: nat)
    requires Shaped(p, s)
  {
    forall at :: 0 <= at < |s.signals| && v.tracking && Under(p, v, at, bound) ==> Agrees(p, s, at)
  }

  /** The signal and everything its consumers hold are as before. */
  ghost predicate Same(p: Plan, s: RuntimeState, t: RuntimeState, at: nat)
    requires Shaped(p, s) && Shaped(p, t) && at < |s.signals|
  {
    && t.signals[at] == s.signals[at]
    && forall i :: 0 <= i < |ConsumersAt(p, at)| ==> InputAt(p, t, ConsumersAt(p, at)[i]) == InputAt(p, s, ConsumersAt(p, at)[i])
  }

  /** Only signals produced below `bound`, and those in `except`, change. */
  ghost predicate Framed(p: Plan, v: View, s: RuntimeState, t: RuntimeState, bound: nat, except: set<nat>)
    requires Shaped(p, s) && Shaped(p, t)
  {
    forall at :: 0 <= at < |s.signals| && !Under(p, v, at, bound) && at !in except ==> Same(p, s, t, at)
  }

  lemma FramedTwice(p: Plan, v: View, s: RuntimeState, t: RuntimeState, u: RuntimeState, bound: nat, a: set<nat>, b: set<nat>)
    requires Shaped(p, s) && Shaped(p, t) && Shaped(p, u)
    requires Framed(p, v, s, t, bound, a) && Framed(p, v, t, u, bound, b)
    ensures Framed(p, v, s, u, bound, a + b)
  {
    forall at | 0 <= at < |s.signals| && !Under(p, v, at, bound) && at !in a + b ensures Same(p, s, u, at) {
      assert Same(p, s, t, at) && Same(p, t, u, at);
    }
  }

  // ----- one delivery ---------------------------------------------------------------------

  /** What handing `value` to consumer `r` leaves behind. */
  ghost predicate Stored(p: Plan, s: RuntimeState, d: Delivery, r: EndpointRef, value: TypedValue, now: MonotonicMs)
    requires Shaped(p, s) && Shaped(p, d.s)
  {
    !d.Refused? ==>
      && d.s.signals == s.signals
      && InputAt(p, d.s, r) == InputState(Some(value), Some(now))
      && forall q :: q != r ==> InputAt(p, d.s, q) == InputAt(p, s, q)
  }

  lemma ObserveStores(p: Plan, s: RuntimeState, r: EndpointRef, c: nat, value: TypedValue, now: MonotonicMs)
    requires Shaped(p, s) && BlockPosition(p.config.blocks, r.block) == Some(c)
    ensures Stored(p, s, ObserveAt(p, s, c, r.endpoint, value, now), r, value, now)
  {
    hide ProcessUpdate;
    var d := ObserveAt(p, s, c, r.endpoint, value, now);
    var endpoints := p.config.blocks[c].endpoints;
    UpdateStores(p.host, endpoints, s.blocks[c].engine, r.endpoint, Observe(value), now, None);
    if !d.Refused? {
      OneInputStored(p, s, d.s, r, c, ValidateInput(endpoints, r.endpoint, value).value, InputState(Some(value), Some(now)));
    }
  }

  /** Handing a value to a consumer stores it there and nowhere else. */
  lemma HandToStores(p: Plan, s: RuntimeState, r: EndpointRef, c: nat, value: TypedValue, now: MonotonicMs, utc: Option<int>)
    requires Shaped(p, s) && BlockPosition(p.config.blocks, r.block) == Some(c)
    ensures Stored(p, s, HandTo(p, s, c, r.endpoint, value, now, utc), r, value, now)
    ensures var d := HandTo(p, s, c, r.endpoint, value, now, utc);
            d.Executed? ==> ExecutionOk(p.config.blocks[c].endpoints, d.execution)
  {
    hide ProcessUpdate, ObserveAt, OutputsTyped;
    var endpoints := p.config.blocks[c].endpoints;
    if !Runnable(s.blocks[c]) {
      ObserveStores(p, s, r, c, value, now);
    } else {
      var (b, admitted) := Admit(s.blocks[c], now, p.host.limits.maxLiveExecutionsPerBlockPerSecond);
      if !admitted {
        assert forall q :: InputAt(p, WithBlock(s, c, b), q) == InputAt(p, s, q);
        ObserveStores(p, WithBlock(s, c, b), r, c, value, now);
      } else {
        var d := TriggerAt(p, s, c, r.endpoint, value, now, utc);
        UpdateStores(p.host, endpoints, b.engine, r.endpoint, TriggerWith(value), now, utc);
        if !d.Refused? {
          OneInputStored(p, s, d.s, r, c, ValidateInput(endpoints, r.endpoint, value).value, InputState(Some(value), Some(now)));
        }
      }
    }
  }

  lemma OneInputStored(p: Plan, s: RuntimeState, t: RuntimeState, r: EndpointRef, c: nat, e: nat, input: InputState)
    requires Shaped(p, s) && Shaped(p, t) && BlockPosition(p.config.blocks, r.block) == Some(c)
    requires EndpointPosition(p.config.blocks[c].endpoints, r.endpoint) == Some(e)
    requires t.blocks[c].engine.inputs == s.blocks[c].engine.inputs[e := input]
    requires forall i :: 0 <= i < |s.blocks| && i != c ==> t.blocks[i] == s.blocks[i]
    ensures InputAt(p, t, r) == input
    ensures forall q :: q != r ==> InputAt(p, t, q) == InputAt(p, s, q)
  {
    forall q | q != r ensures InputAt(p, t, q) == InputAt(p, s, q) {
      if BlockPosition(p.config.blocks, q.block) == Some(c) {
        assert q.block == r.block;
        assert q.endpoint != r.endpoint;
      }
    }
  }

  /** The consumer that is served consumes only the signal being delivered. */
  lemma OthersKeep(p: Plan, s: RuntimeState, t: RuntimeState, at: nat, j: nat, other: nat)
    requires ValidPlan(p) && Shaped(p, s) && Shaped(p, t) && at < |s.signals| && j < |ConsumersAt(p, at)| && other < |s.signals|
    requires t.signals == s.signals && other != at
    requires forall q :: q != ConsumersAt(p, at)[j] ==> InputAt(p, t, q) == InputAt(p, s, q)
    ensures Same(p, s, t, other)
  {
    forall i | 0 <= i < |ConsumersAt(p, other)|
      ensures InputAt(p, t, ConsumersAt(p, other)[i]) == InputAt(p, s, ConsumersAt(p, other)[i])
    {
      if ConsumersAt(p, other)[i] == ConsumersAt(p, at)[j] {
        ConsumerOfOne(p, at, other, ConsumersAt(p, at)[j]);
      }
    }
  }

  /** One more consumer agrees; no other signal is touched. */
  ghost predicate Advances(p: Plan, s: RuntimeState, t: RuntimeState, at: nat, j: nat)
    requires Shaped(p, s) && Shaped(p, t) && at < |s.signals|
  {
    && t.signals == s.signals
    && AgreesUpTo(p, t, at, j + 1)
    && forall other :: 0 <= other < |s.signals| && other != at ==> Same(p, s, t, other)
  }

  lemma StoreAdvances(p: Plan, s: RuntimeState, d: Delivery, at: nat, j: nat, value: TypedValue, now: MonotonicMs)
    requires ValidPlan(p) && Shaped(p, s) && Shaped(p, d.s) && at < |s.signals| && j < |ConsumersAt(p, at)|
    requires s.signals[at].value == Some(value) && s.signals[at].observedAt == Some(now) && AgreesUpTo(p, s, at, j)
    requires !d.Refused? && Stored(p, s, d, ConsumersAt(p, at)[j], value, now)
    ensures Advances(p, s, d.s, at, j)
  {
    forall other | 0 <= other < |s.signals| && other != at ensures Same(p, s, d.s, other) {
      OthersKeep(p, s, d.s, at, j, other);
    }
  }

  // ----- the induction ----------------------------------------------------------------------

  ghost predicate Setting(p: Plan, v: View, s: RuntimeState, execs: seq<BlockExecution>, k: nat) {
    && ValidPlan(p) && Ranks(EdgesOf(p), v.rank) && Shaped(p, s)
    && k < |execs| && Known(p, execs[k].block)
  }

  /** `at` is published by the block of execution `k`. */
  ghost predicate PublishedBy(p: Plan, block: BlockId, at: nat)
    requires at < |p.config.signals|
  {
    var producers := ProducersIn(PlanBindings(p));
    NameOf(p, at) in producers && producers[NameOf(p, at)].block == block
  }

  lemma ConsumerRanksBelow(p: Plan, v: View, block: BlockId, at: nat, j: nat)
    requires ValidPlan(p) && Ranks(EdgesOf(p), v.rank) && at < |p.config.signals| && j < |ConsumersAt(p, at)|
    requires PublishedBy(p, block, at)
    ensures v.rank(ConsumersAt(p, at)[j].block) < v.rank(block)
  {
    ConsumerIsChild(PlanBindings(p), ProducersIn(PlanBindings(p)), NameOf(p, at), ConsumersAt(p, at)[j]);
  }

  /** The state in which consumer `j` of signal `at` is about to be served. */
  ghost predicate Delivering(p: Plan, v: View, s: RuntimeState, block: BlockId, at: nat, j: nat, value: TypedValue, now: MonotonicMs)
    requires Shaped(p, s)
  {
    && at < |s.signals| && PublishedBy(p, block, at) && j <= |ConsumersAt(p, at)|
    && s.signals[at].value == Some(value) && s.signals[at].observedAt == Some(now)
    && AgreesUpTo(p, s, at, j)
    && AgreeUnder(p, v, s, v.rank(block))
  }

  /** What serving consumers of `at` guarantees. */
  ghost predicate Delivered(p: Plan, v: View, s: RuntimeState, t: RuntimeState, block: BlockId, at: nat, j: nat,
                            value: TypedValue, now: MonotonicMs)
    requires Shaped(p, s) && Shaped(p, t)
  {
    Delivering(p, v, t, block, at, j, value, now) && Framed(p, v, s, t, v.rank(block), {at}) && t.signals[at] == s.signals[at]
  }

  lemma DeliveredTwice(p: Plan, v: View, s: RuntimeState, t: RuntimeState, u: RuntimeState, block: BlockId, at: nat,
                       i: nat, j: nat, value: TypedValue, now: MonotonicMs)
    requires Shaped(p, s) && Shaped(p, t) && Shaped(p, u)
    requires Delivered(p, v, s, t, block, at, i, value, now) && Delivered(p, v, t, u, block, at, j, value, now)
    ensures Delivered(p, v, s, u, block, at, j, value, now) && Delivering(p, v, u, block, at, j, value, now)
  {
    FramedTwice(p, v, s, t, u, v.rank(block), {at}, {at});
    assert {at} + {at} == {at};
  }

  lemma AdvanceDelivers(p: Plan, v: View, s: RuntimeState, t: RuntimeState, block: BlockId, at: nat, j: nat,
                        value: TypedValue, now: MonotonicMs)
    requires Shaped(p, s) && Shaped(p, t) && Delivering(p, v, s, block, at, j, value, now) && j < |ConsumersAt(p, at)|
    requires Advances(p, s, t, at, j)
    ensures Delivered(p, v, s, t, block, at, j + 1, value, now)
  {
    forall other | 0 <= other < |s.signals| && v.tracking && Under(p, v, other, v.rank(block)) ensures Agrees(p, t, other) {
      assert Same(p, s, t, other) && Agrees(p, s, other);
    }
  }

  /** A nested cascade below a consumer leaves the signal being delivered, and
      every signal at or above the producing block, as they were. */
  lemma NestedDelivers(p: Plan, v: View, s: RuntimeState, t: RuntimeState, block: BlockId, below: nat, at: nat, j: nat,
                       value: TypedValue, now: MonotonicMs)
    requires Shaped(p, s) && Shaped(p, t) && Delivering(p, v, s, block, at, j, value, now) && below <= v.rank(block)
    requires Framed(p, v, s, t, below, {}) && AgreeUnder(p, v, t, below)
    ensures Delivered(p, v, s, t, block, at, j, value, now)
  {
    assert Same(p, s, t, at);
    forall other | 0 <= other < |s.signals| && v.tracking && Under(p, v, other, v.rank(block)) ensures Agrees(p, t, other) {
      if !Under(p, v, other, below) {
        assert Same(p, s, t, other) && Agrees(p, s, other);
      }
    }
  }

  /** Only the identity counter differs between the two states. */
  ghost predicate Renumbered(s: RuntimeState, t: RuntimeState) {
    t.blocks == s.blocks && t.signals == s.signals
  }

  lemma DeliveredRenumbered(p: Plan, v: View, s: RuntimeState, t: RuntimeState, u: RuntimeState, block: BlockId, at: nat, j: nat,
                            value: TypedValue, now: MonotonicMs, below: nat)
    requires Shaped(p, s) && Shaped(p, t) && Shaped(p, u) && Renumbered(t, u)
    requires Delivered(p, v, s, t, block, at, j, value, now) && below <= v.rank(block)
    ensures Delivered(p, v, s, u, block, at, j, value, now) && Delivering(p, v, u, block, at, j, value, now)
    ensures AgreeUnder(p, v, u, below)
  {
    assert forall q :: InputAt(p, u, q) == InputAt(p, t, q);
    forall other | 0 <= other < |s.signals| && v.tracking && Under(p, v, other, v.rank(block)) ensures Agrees(p, u, other) {
      assert Agrees(p, t, other);
    }
    forall other | 0 <= other < |s.signals| && !Under(p, v, other, v.rank(block)) && other != at ensures Same(p, s, u, other) {
      assert Same(p, s, t, other);
    }
  }

  lemma DeliveringIsDelivered(p: Plan, v: View, s: RuntimeState, block: BlockId, at: nat, j: nat, value: TypedValue, now: MonotonicMs)
    requires Shaped(p, s) && Delivering(p, v, s, block, at, j, value, now)
    ensures Delivered(p, v, s, s, block, at, j, value, now)
  {
  }

  /** Signals published by the remaining outputs. */
  ghost function PublishedAt(p: Plan, block: BlockId, outputs: seq<OutputEffect>, i: nat): set<nat>
    requires Known(p, block) && i <= |outputs|
  {
    set j | i <= j < |outputs| && SignalOf(p, block, outputs[j].endpoint).Some? :: SignalOf(p, block, outputs[j].endpoint).value
  }

  /** What following the outputs of one execution guarantees. */
  ghost predicate Settled(p: Plan, v: View, s: RuntimeState, t: RuntimeState, block: BlockId, published: set<nat>)
    requires Shaped(p, s) && Shaped(p, t)
  {
    AgreeUnder(p, v, t, v.rank(block) + 1) && Framed(p, v, s, t, v.rank(block), published)
  }

  lemma SettledWidens(p: Plan, v: View, s: RuntimeState, t: RuntimeState, block: BlockId, published: set<nat>)
    requires Shaped(p, s) && Shaped(p, t) && Settled(p, v, s, t, block, published)
    requires forall at :: at in published ==> at < |p.config.signals| && PublishedBy(p, block, at)
    ensures Framed(p, v, s, t, v.rank(block) + 1, {})
  {
  }

  lemma {:induction false} PropagateSettles(p: Plan, v: View, s: RuntimeState, execs: seq<BlockExecution>, k: nat,
                                            now: MonotonicMs, utc: Option<int>)
    requires Setting(p, v, s, execs, k) && ExecutionOk(ConfigOf(p, execs[k].block).endpoints, execs[k].execution)
    requires AgreeUnder(p, v, s, v.rank(execs[k].block) + 1)
    ensures var o := Propagate(p, s, execs, k, now, utc);
            o.error.None? ==> AgreeUnder(p, v, o.s, v.rank(execs[k].block) + 1) && Framed(p, v, s, o.s, v.rank(execs[k].block) + 1, {})
    decreases Slack(p, execs), 4, 0
  {
    var x := execs[k];
    if x.execution.outcome.Ok? {
      var outputs := x.execution.outcome.value.outputs;
      OutputsSettle(p, v, s, execs, k, outputs, 0, now, utc);
      var o := Propagate(p, s, execs, k, now, utc);
      if o.error.None? {
        PublishedAtBy(p, x.block, outputs, 0);
        SettledWidens(p, v, s, o.s, x.block, PublishedAt(p, x.block, outputs, 0));
      }
    }
  }

  lemma PublishedAtBy(p: Plan, block: BlockId, outputs: seq<OutputEffect>, i: nat)
    requires ValidPlan(p) && Known(p, block) && i <= |outputs| && OutputsTyped(ConfigOf(p, block).endpoints, outputs)
    ensures forall at :: at in PublishedAt(p, block, outputs, i) ==> at < |p.config.signals| && PublishedBy(p, block, at)
  {
    forall at | at in PublishedAt(p, block, outputs, i) ensures at < |p.config.signals| && PublishedBy(p, block, at) {
      var j :| i <= j < |outputs| && SignalOf(p, block, outputs[j].endpoint) == Some(at);
      OutputSignal(p, block, outputs[j]);
    }
  }

  lemma {:induction false} OutputsSettle(p: Plan, v: View, s: RuntimeState, execs: seq<BlockExecution>, k: nat,
                                         outputs: seq<OutputEffect>, i: nat, now: MonotonicMs, utc: Option<int>)
    requires Setting(p, v, s, execs, k) && i <= |outputs| && OutputsTyped(ConfigOf(p, execs[k].block).endpoints, outputs)
    requires AgreeUnder(p, v, s, v.rank(execs[k].block) + 1)
    ensures var o := PropagateOutputs(p, s, execs, k, outputs, i, now, utc);
            o.error.None? ==> Settled(p, v, s, o.s, execs[k].block, PublishedAt(p, execs[k].block, outputs, i))
    decreases Slack(p, execs), 3, |outputs| - i
  {
    hide HandTo, ObserveAt;
    if i < |outputs| {
      OutputSettles(p, v, s, execs, k, outputs[i], now, utc);
      var block := execs[k].block;
      var o := PropagateOutput(p, s, execs, k, outputs[i], now, utc);
      if o.error.None? {
        OutputsSettle(p, v, o.s, o.execs, k, outputs, i + 1, now, utc);
        var r := PropagateOutputs(p, o.s, o.execs, k, outputs, i + 1, now, utc);
        if r.error.None? {
          FramedTwice(p, v, s, o.s, r.s, v.rank(block), PublishedAt(p, block, [outputs[i]], 0), PublishedAt(p, block, outputs, i + 1));
          assert PublishedAt(p, block, [outputs[i]], 0) + PublishedAt(p, block, outputs, i + 1) <= PublishedAt(p, block, outputs, i);
        }
      }
    }
  }

  lemma SettledUnchanged(p: Plan, v: View, s: RuntimeState, block: BlockId, published: set<nat>)
    requires Shaped(p, s) && AgreeUnder(p, v, s, v.rank(block) + 1)
    ensures Settled(p, v, s, s, block, published)
  {
    hide Agrees;
  }

  lemma {:induction false} OutputSettles(p: Plan, v: View, s: RuntimeState, execs: seq<BlockExecution>, k: nat,
                                         output: OutputEffect, now: MonotonicMs, utc: Option<int>)
    requires Setting(p, v, s, execs, k) && OutputTyped(ConfigOf(p, execs[k].block).endpoints, output)
    requires AgreeUnder(p, v, s, v.rank(execs[k].block) + 1)
    ensures var o := PropagateOutput(p, s, execs, k, output, now, utc);
            o.error.None? ==>
              && Settled(p, v, s, o.s, execs[k].block, PublishedAt(p, execs[k].block, [output], 0))
              && var at := SignalOf(p, execs[k].block, output.endpoint);
                 at.Some? ==> o.s.signals[at.value] == Publish(s, at.value, output.value, now, execs[k].execution.id).signals[at.value]
    decreases Slack(p, execs), 2, 0
  {
    hide HandTo, ObserveAt, Framed, AgreesUpTo, AgreeUnder, Ranks, WellFormed;
    var block := execs[k].block;
    var found := SignalOf(p, block, output.endpoint);
    if found.None? {
      SettledUnchanged(p, v, s, block, PublishedAt(p, block, [output], 0));
    } else {
      var at := found.value;
      var effect := EffectOf(p, s, block, output, at, execs[k].execution.id);
      var published := Publish(s, at, output.value, now, execs[k].execution.id);
      var consumers := effect.consumers;
      var eligible := if effect.changed then Eligible(p, published, consumers, |consumers|) else [];
      var annotated := Annotate(execs, k, effect, eligible);
      OutputSignal(p, block, output);
      PublishFrames(p, v, s, at, block, output.value, now, execs[k].execution.id);
      var o := PropagateOutput(p, s, execs, k, output, now, utc);
      if effect.changed {
        DeliverSettles(p, v, published, annotated, k, at, output.value, 0, now, utc);
      } else {
        RefreshSettles(p, v, published, annotated, block, at, output.value, 0, now);
      }
      if o.error.None? {
        DeliveredSettles(p, v, s, published, o.s, block, at, output.value, now);
        assert [output][0] == output;
        assert PublishedAt(p, block, [output], 0) == {at};
      }
    }
  }

  lemma PublishFrames(p: Plan, v: View, s: RuntimeState, at: nat, block: BlockId, value: TypedValue, now: MonotonicMs, id: Option<nat>)
    requires Shaped(p, s) && at < |s.signals| && PublishedBy(p, block, at)
    requires AgreeUnder(p, v, s, v.rank(block) + 1)
    ensures Framed(p, v, s, Publish(s, at, value, now, id), v.rank(block), {at})
    ensures Delivering(p, v, Publish(s, at, value, now, id), block, at, 0, value, now)
    ensures forall other :: 0 <= other < |s.signals| && other != at ==> Same(p, s, Publish(s, at, value, now, id), other)
  {
    var t := Publish(s, at, value, now, id);
    assert forall q :: InputAt(p, t, q) == InputAt(p, s, q);
    forall other | 0 <= other < |s.signals| && v.tracking && Under(p, v, other, v.rank(block)) ensures Agrees(p, t, other) {
      assert Agrees(p, s, other) && other != at;
    }
  }

  lemma DeliveredSettles(p: Plan, v: View, s: RuntimeState, published: RuntimeState, t: RuntimeState, block: BlockId, at: nat,
                         value: TypedValue, now: MonotonicMs)
    requires Shaped(p, s) && Shaped(p, published) && Shaped(p, t) && at < |s.signals|
    requires AgreeUnder(p, v, s, v.rank(block) + 1)
    requires Framed(p, v, s, published, v.rank(block), {at})
    requires Delivered(p, v, published, t, block, at, |ConsumersAt(p, at)|, value, now)
    ensures Settled(p, v, s, t, block, {at}) && t.signals[at] == published.signals[at]
  {
    FramedTwice(p, v, s, published, t, v.rank(block), {at}, {at});
    assert {at} + {at} == {at};
    forall other | 0 <= other < |s.signals| && v.tracking && Under(p, v, other, v.rank(block) + 1) ensures Agrees(p, t, other) {
      if !Under(p, v, other, v.rank(block)) && other != at {
        assert Same(p, s, t, other) && Agrees(p, s, other);
      }
    }
  }

  lemma {:induction false} RefreshSettles(p: Plan, v: View, s: RuntimeState, execs: seq<BlockExecution>, block: BlockId,
                                          at: nat, value: TypedValue, j: nat, now: MonotonicMs)
    requires ValidPlan(p) && Shaped(p, s) && Delivering(p, v, s, block, at, j, value, now)
    ensures var o := Refresh(p, s, execs, value, ConsumersAt(p, at), j, now);
            o.error.None? ==> Delivered(p, v, s, o.s, block, at, |ConsumersAt(p, at)|, value, now)
    decreases |ConsumersAt(p, at)| - j
  {
    var consumers := ConsumersAt(p, at);
    if j < |consumers| {
      ConsumerIsInput(p, at, consumers[j]);
      var c := BlockPosition(p.config.blocks, consumers[j].block).value;
      ObserveStores(p, s, consumers[j], c, value, now);
      var d := ObserveAt(p, s, c, consumers[j].endpoint, value, now);
      if d.Observed? {
        StoreAdvances(p, s, d, at, j, value, now);
        AdvanceDelivers(p, v, s, d.s, block, at, j, value, now);
        RefreshSettles(p, v, d.s, execs, block, at, value, j + 1, now);
        var o := Refresh(p, d.s, execs, value, consumers, j + 1, now);
        if o.error.None? { DeliveredTwice(p, v, s, d.s, o.s, block, at, j + 1, |consumers|, value, now); }
      }
    }
  }

  lemma {:induction false} DeliverSettles(p: Plan, v: View, s: RuntimeState, execs: seq<BlockExecution>, k: nat,
                                          at: nat, value: TypedValue, j: nat, now: MonotonicMs, utc: Option<int>)
    requires Setting(p, v, s, execs, k) && Delivering(p, v, s, execs[k].block, at, j, value, now)
    ensures var o := Deliver(p, s, execs, k, value, ConsumersAt(p, at), j, now, utc);
            o.error.None? ==> Delivered(p, v, s, o.s, execs[k].block, at, |ConsumersAt(p, at)|, value, now)
    decreases Slack(p, execs), 1, |ConsumersAt(p, at)| - j
  {
    hide DeliverOne, Delivered, Framed, AgreesUpTo, AgreeUnder, ValidPlan, Ranks, PublishedBy;
    var consumers := ConsumersAt(p, at);
    if j == |consumers| {
      DeliveringIsDelivered(p, v, s, execs[k].block, at, j, value, now);
    } else {
      DeliverOneSettles(p, v, s, execs, k, at, value, j, now, utc);
      var o := DeliverOne(p, s, execs, k, value, consumers[j], now, utc);
      if o.error.None? {
        DeliverSettles(p, v, o.s, o.execs, k, at, value, j + 1, now, utc);
        var r := Deliver(p, o.s, o.execs, k, value, consumers, j + 1, now, utc);
        if r.error.None? { DeliveredTwice(p, v, s, o.s, r.s, execs[k].block, at, j + 1, |consumers|, value, now); }
      }
    }
  }

  /** Serving consumer `j`: the value is stored, and a consumer that runs is
      ready to be followed. */
  lemma ServeConsumer(p: Plan, v: View, s: RuntimeState, execs: seq<BlockExecution>, k: nat,
                      at: nat, value: TypedValue, j: nat, now: MonotonicMs, utc: Option<int>)
    requires Setting(p, v, s, execs, k) && Delivering(p, v, s, execs[k].block, at, j, value, now) && j < |ConsumersAt(p, at)|
    ensures Known(p, ConsumersAt(p, at)[j].block)
    ensures var consumer := ConsumersAt(p, at)[j];
            var d := HandTo(p, s, BlockPosition(p.config.blocks, consumer.block).value, consumer.endpoint, value, now, utc);
            !d.Refused? ==>
              var child := d.s.(nextExecutionId := NextId(d.s.nextExecutionId));
              && v.rank(consumer.block) < v.rank(execs[k].block)
              && Delivered(p, v, s, d.s, execs[k].block, at, j + 1, value, now)
              && Delivering(p, v, d.s, execs[k].block, at, j + 1, value, now)
              && Delivered(p, v, s, child, execs[k].block, at, j + 1, value, now)
              && Delivering(p, v, child, execs[k].block, at, j + 1, value, now)
              && AgreeUnder(p, v, child, v.rank(consumer.block) + 1)
              && (d.Executed? ==> ExecutionOk(ConfigOf(p, consumer.block).endpoints, d.execution))
  {
    hide HandTo, Stored, Advances, Framed, AgreesUpTo, AgreeUnder;
    var consumer, block := ConsumersAt(p, at)[j], execs[k].block;
    ConsumerIsInput(p, at, consumer);
    var c := BlockPosition(p.config.blocks, consumer.block).value;
    HandToStores(p, s, consumer, c, value, now, utc);
    var d := HandTo(p, s, c, consumer.endpoint, value, now, utc);
    if !d.Refused? {
      StoreAdvances(p, s, d, at, j, value, now);
      AdvanceDelivers(p, v, s, d.s, block, at, j, value, now);
      ConsumerRanksBelow(p, v, block, at, j);
      DeliveredRenumbered(p, v, s, d.s, d.s.(nextExecutionId := NextId(d.s.nextExecutionId)), block, at, j + 1, value, now, v.rank(consumer.block) + 1);
    }
  }

  lemma {:induction false} DeliverOneSettles(p: Plan, v: View, s: RuntimeState, execs: seq<BlockExecution>, k: nat,
                                             at: nat, value: TypedValue, j: nat, now: MonotonicMs, utc: Option<int>)
    requires Setting(p, v, s, execs, k) && Delivering(p, v, s, execs[k].block, at, j, value, now) && j < |ConsumersAt(p, at)|
    ensures var o := DeliverOne(p, s, execs, k, value, ConsumersAt(p, at)[j], now, utc);
            o.error.None? ==> Delivered(p, v, s, o.s, execs[k].block, at, j + 1, value, now)
                              && Delivering(p, v, o.s, execs[k].block, at, j + 1, value, now) && Setting(p, v, o.s, o.execs, k)
    decreases Slack(p, execs), 0, 0
  {
    hide HandTo, PropagateOutputs, Framed, AgreesUpTo, AgreeUnder, ValidPlan, Ranks, Delivered, OutputsTyped, PublishedBy, Consumers;
    ServeConsumer(p, v, s, execs, k, at, value, j, now, utc);
    var consumer, block := ConsumersAt(p, at)[j], execs[k].block;
    var d := HandTo(p, s, BlockPosition(p.config.blocks, consumer.block).value, consumer.endpoint, value, now, utc);
    RunnableOnlyExecutes(p, s, BlockPosition(p.config.blocks, consumer.block).value, consumer.endpoint, value, now, utc);
    if d.Executed? && |execs| < p.host.limits.maxCascadeExecutions {
      var child := AssignId(d.s, d.execution, execs[k].execution.id);
      var more := execs + [BlockExecution(consumer.block, child.1)];
      PropagateSettles(p, v, child.0, more, |execs|, now, utc);
      var o := Propagate(p, child.0, more, |execs|, now, utc);
      if o.error.None? {
        NestedDelivers(p, v, child.0, o.s, block, v.rank(consumer.block) + 1, at, j + 1, value, now);
        DeliveredTwice(p, v, s, child.0, o.s, block, at, j + 1, j + 1, value, now);
      }
    }
  }

  /** Starting from full agreement, a cascade that succeeds ends in full
      agreement: every consumer of every known signal holds its value and its
      observation time, whether it ran, was disabled, suspended or rejected. */
  lemma CascadeAgrees(p: Plan, rank: BlockId -> nat, s: RuntimeState, execs: seq<BlockExecution>, k: nat, now: MonotonicMs, utc: Option<int>)
    requires ValidPlan(p) && Ranks(EdgesOf(p), rank) && Shaped(p, s) && k < |execs| && Known(p, execs[k].block)
    requires ExecutionOk(ConfigOf(p, execs[k].block).endpoints, execs[k].execution)
    requires AllAgree(p, s)
    ensures var o := Propagate(p, s, execs, k, now, utc); o.error.None? ==> AllAgree(p, o.s)
  {
    hide Propagate, Agrees;
    var v := View(rank, true);
    PropagateSettles(p, v, s, execs, k, now, utc);
    var o := Propagate(p, s, execs, k, now, utc);
    if o.error.None? {
      forall at | 0 <= at < |s.signals| ensures Agrees(p, o.s, at) {
        if !Under(p, v, at, rank(execs[k].block) + 1) { SameAgrees(p, s, o.s, at); }
      }
    }
  }

  lemma SameAgrees(p: Plan, s: RuntimeState, t: RuntimeState, at: nat)
    requires Shaped(p, s) && Shaped(p, t) && at < |s.signals| && Same(p, s, t, at) && Agrees(p, s, at)
    ensures Agrees(p, t, at)
  {
  }

  // ----- prediction -------------------------------------------------------------------------

  /** The effects a simulation reports for outputs `i..`, read off one state. */
  ghost function Predicted(p: Plan, s: RuntimeState, block: BlockId, outputs: seq<OutputEffect>, i: nat, id: Option<nat>): seq<SignalEffect>
    requires |s.signals| == |p.config.signals| && Known(p, block) && i <= |outputs|
    decreases |outputs| - i
  {
    if i == |outputs| then []
    else Recorded(p, s, block, outputs[i], id) + Predicted(p, s, block, outputs, i + 1, id)
  }

  lemma {:induction false} PredictedFromValues(p: Plan, s: RuntimeState, t: RuntimeState, block: BlockId, outputs: seq<OutputEffect>, i: nat, id: Option<nat>)
    requires |s.signals| == |t.signals| == |p.config.signals| && Known(p, block) && i <= |outputs|
    requires forall at :: at in PublishedAt(p, block, outputs, i) ==> t.signals[at].value == s.signals[at].value
    ensures Predicted(p, t, block, outputs, i, id) == Predicted(p, s, block, outputs, i, id)
    decreases |outputs| - i
  {
    if i < |outputs| {
      var at := SignalOf(p, block, outputs[i].endpoint);
      if at.Some? { assert at.value in PublishedAt(p, block, outputs, i); }
      assert PublishedAt(p, block, outputs, i + 1) <= PublishedAt(p, block, outputs, i);
      PredictedFromValues(p, s, t, block, outputs, i + 1, id);
    }
  }

  /** Following one output leaves the signals of the later outputs alone. */
  lemma LaterOutputsUntouched(p: Plan, v: View, s: RuntimeState, t: RuntimeState, block: BlockId, outputs: seq<OutputEffect>, i: nat)
    requires ValidPlan(p) && Shaped(p, s) && Shaped(p, t) && Known(p, block) && i < |outputs|
    requires OutputsTyped(ConfigOf(p, block).endpoints, outputs)
    requires Framed(p, v, s, t, v.rank(block), PublishedAt(p, block, [outputs[i]], 0))
    ensures forall at :: at in PublishedAt(p, block, outputs, i + 1) ==> t.signals[at] == s.signals[at]
  {
    forall at | at in PublishedAt(p, block, outputs, i + 1) ensures t.signals[at] == s.signals[at] {
      var j :| i + 1 <= j < |outputs| && SignalOf(p, block, outputs[j].endpoint) == Some(at);
      OutputSignal(p, block, outputs[j]);
      DistinctOutputs(ConfigOf(p, block).endpoints, outputs, i, j);
      OutputsPublishDistinctly(p, block, outputs[j], outputs[i]);
      assert Same(p, s, t, at);
    }
  }

  /** After one output, the effects predicted for the later ones still stand. */
  lemma OutputPredicted(p: Plan, rank: BlockId -> nat, s: RuntimeState, execs: seq<BlockExecution>, k: nat,
                        outputs: seq<OutputEffect>, i: nat, now: MonotonicMs, utc: Option<int>)
    requires Setting(p, View(rank, false), s, execs, k) && i < |outputs| && s.nextExecutionId <= U64_MAX
    requires OutputsTyped(ConfigOf(p, execs[k].block).endpoints, outputs)
    ensures var o, block, id := PropagateOutput(p, s, execs, k, outputs[i], now, utc), execs[k].block, execs[k].execution.id;
            && o.execs[k].execution.signalEffects == execs[k].execution.signalEffects + Recorded(p, s, block, outputs[i], id)
            && o.execs[k].execution.id == id && o.s.nextExecutionId <= U64_MAX
            && (o.error.None? ==> Predicted(p, o.s, block, outputs, i + 1, id) == Predicted(p, s, block, outputs, i + 1, id))
  {
    hide PropagateOutput, ValidPlan, OutputsTyped, Predicted, Framed;
    var block := execs[k].block;
    EachOutputTyped(ConfigOf(p, block).endpoints, outputs, i);
    OutputSettles(p, View(rank, false), s, execs, k, outputs[i], now, utc);
    OutputOrder(p, s, execs, k, outputs[i], now, utc);
    var o := PropagateOutput(p, s, execs, k, outputs[i], now, utc);
    if o.error.None? {
      LaterOutputsUntouched(p, View(rank, false), s, o.s, block, outputs, i);
      PredictedFromValues(p, s, o.s, block, outputs, i + 1, execs[k].execution.id);
    }
  }

  /** The effects an execution records while its cascade runs are those a
      simulation reads off the state before it: no nested cascade rewrites
      another signal the execution produces. */
  lemma {:induction false} OutputsPredicted(p: Plan, rank: BlockId -> nat, s: RuntimeState, execs: seq<BlockExecution>, k: nat,
                                            outputs: seq<OutputEffect>, i: nat, now: MonotonicMs, utc: Option<int>)
    requires Setting(p, View(rank, false), s, execs, k) && i <= |outputs| && s.nextExecutionId <= U64_MAX
    requires OutputsTyped(ConfigOf(p, execs[k].block).endpoints, outputs)
    ensures var o := PropagateOutputs(p, s, execs, k, outputs, i, now, utc);
            o.error.None? ==> o.execs[k].execution.signalEffects
                              == execs[k].execution.signalEffects + Predicted(p, s, execs[k].block, outputs, i, execs[k].execution.id)
    decreases |outputs| - i
  {
    hide PropagateOutput, ValidPlan, OutputsTyped, Recorded, Ranks, ConfigOf;
    if i < |outputs| {
      OutputPredicted(p, rank, s, execs, k, outputs, i, now, utc);
      var o := PropagateOutput(p, s, execs, k, outputs[i], now, utc);
      if o.error.None? { OutputsPredicted(p, rank, o.s, o.execs, k, outputs, i + 1, now, utc); }
    }
  }

  lemma EachOutputTyped(endpoints: seq<Endpoint>, outputs: seq<OutputEffect>, i: nat)
    requires OutputsTyped(endpoints, outputs) && i < |outputs|
    ensures OutputTyped(endpoints, outputs[i])
  {
  }
}
