/** What the outputs of an execution do to the signals, and what the execution
    says of it. */
module SignalEffects {
  import opened Values
  import opened SignalGraph
  import opened Configuration
  import opened Topology
  import opened LuaConversion
  import opened Engines
  import opened LogicBlocks
  import opened Cascades
  import opened CascadeOrder
  import opened PlanFacts
  import opened CascadeSafety
  import opened SignalAgreement
  import opened RuntimeEvents
  import opened RuntimeSafety
  import opened CascadeInduction

  // ----- wiring -----------------------------------------------------------------------------------

  /** The configuration binds an input endpoint to the signal. */
  ghost predicate Consumes(p: Plan, r: EndpointRef, signal: SignalName) {
    exists i :: 0 <= i < |p.config.blocks| && p.config.blocks[i].id == r.block
                && SignalBinding(r.endpoint, signal) in p.config.blocks[i].bindings && !IsOutput(p.config.blocks[i].endpoints, r.endpoint)
  }

  lemma {:induction false} BoundConsumes(bound: seq<Bound>, signal: SignalName, r: EndpointRef)
    ensures r in ConsumersIn(bound, signal) <==> Bound(r.block, r.endpoint, false, signal) in bound
  {
    if bound != [] {
      var last, front := bound[|bound| - 1], bound[..|bound| - 1];
      assert bound == front + [last];
      BoundConsumes(front, signal, r);
    }
  }

  /** The consumers of a signal are exactly the input endpoints bound to it. */
  lemma ConsumersExactly(p: Plan, signal: SignalName, r: EndpointRef)
    ensures r in Consumers(p, signal) <==> Consumes(p, r, signal)
  {
    BoundConsumes(PlanBindings(p), signal, r);
    BindingsComplete(p.config.blocks, |p.config.blocks|, Bound(r.block, r.endpoint, false, signal));
  }

  /** An endpoint publishes exactly the signal it is bound to. */
  lemma SignalOfExactly(p: Plan, block: BlockId, endpoint: EndpointName, at: nat)
    requires ValidPlan(p) && Known(p, block) && at < |p.config.signals|
    ensures SignalOf(p, block, endpoint) == Some(at) <==> SignalBinding(endpoint, NameOf(p, at)) in ConfigOf(p, block).bindings
  {
    BlockChecked(p, BlockPosition(p.config.blocks, block).value);
    SignalAt(p, at);
  }

  // ----- what an execution says --------------------------------------------------------------------

  /** Effect `e` tells what `output` of a block does to its signal. */
  ghost predicate Announces(p: Plan, s: RuntimeState, block: BlockId, output: OutputEffect, id: Option<nat>, e: SignalEffect)
    requires Shaped(p, s) && Known(p, block)
  {
    && SignalBinding(output.endpoint, e.signal) in ConfigOf(p, block).bindings
    && e.value == output.value && e.producer == EndpointRef(block, output.endpoint) && e.producingExecution == id
    && (forall at :: 0 <= at < |s.signals| && NameOf(p, at) == e.signal ==> (e.changed <==> s.signals[at].value != Some(output.value)))
    && forall r :: r in e.consumers <==> Consumes(p, r, e.signal)
  }

  lemma RecordedAnnounces(p: Plan, s: RuntimeState, block: BlockId, output: OutputEffect, id: Option<nat>)
    requires ValidPlan(p) && Shaped(p, s) && Known(p, block)
    ensures SignalOf(p, block, output.endpoint).Some? ==>
              |Recorded(p, s, block, output, id)| == 1 && Announces(p, s, block, output, id, Recorded(p, s, block, output, id)[0])
    ensures SignalOf(p, block, output.endpoint).None? ==> Recorded(p, s, block, output, id) == []
  {
    hide Consumes, Consumers;
    var found := SignalOf(p, block, output.endpoint);
    if found.Some? {
      SignalOfExactly(p, block, output.endpoint, found.value);
      var e := Recorded(p, s, block, output, id)[0];
      forall r ensures r in e.consumers <==> Consumes(p, r, e.signal) { ConsumersExactly(p, e.signal, r); }
      forall at | 0 <= at < |s.signals| && NameOf(p, at) == e.signal ensures at == found.value { SignalAt(p, at); SignalAt(p, found.value); }
    }
  }

  /** Each effect announces one of the outputs, and each bound output is
      announced. */
  ghost predicate Announced(p: Plan, s: RuntimeState, block: BlockId, outputs: seq<OutputEffect>, i: nat, id: Option<nat>, effects: seq<SignalEffect>)
    requires Shaped(p, s) && Known(p, block)
  {
    && (forall e :: e in effects ==> exists j :: i <= j < |outputs| && Announces(p, s, block, outputs[j], id, e))
    && forall j :: i <= j < |outputs| && SignalOf(p, block, outputs[j].endpoint).Some? ==> exists e :: e in effects && Announces(p, s, block, outputs[j], id, e)
  }

  lemma {:induction false} AnnouncedTogether(p: Plan, s: RuntimeState, block: BlockId, outputs: seq<OutputEffect>, i: nat, id: Option<nat>,
                                            first: seq<SignalEffect>, rest: seq<SignalEffect>)
    requires Shaped(p, s) && Known(p, block) && i < |outputs| && Announced(p, s, block, outputs, i + 1, id, rest)
    requires SignalOf(p, block, outputs[i].endpoint).Some? ==> |first| == 1 && Announces(p, s, block, outputs[i], id, first[0])
    requires SignalOf(p, block, outputs[i].endpoint).None? ==> first == []
    ensures Announced(p, s, block, outputs, i, id, first + rest)
  {
    hide Announces, SignalOf;
    var all := first + rest;
    forall e | e in all ensures exists j :: i <= j < |outputs| && Announces(p, s, block, outputs[j], id, e) {
      if e in first { assert e == first[0] && Announces(p, s, block, outputs[i], id, e); }
    }
    forall j | i <= j < |outputs| && SignalOf(p, block, outputs[j].endpoint).Some?
      ensures exists e :: e in all && Announces(p, s, block, outputs[j], id, e)
    {
      if j == i {
        assert first[0] in all;
      } else {
        var e :| e in rest && Announces(p, s, block, outputs[j], id, e);
        assert e in all;
      }
    }
  }

  lemma {:induction false} PredictedAnnounces(p: Plan, s: RuntimeState, block: BlockId, outputs: seq<OutputEffect>, i: nat, id: Option<nat>)
    requires ValidPlan(p) && Shaped(p, s) && Known(p, block) && i <= |outputs|
    ensures Announced(p, s, block, outputs, i, id, Predicted(p, s, block, outputs, i, id))
    decreases |outputs| - i
  {
    ShapedSignals(p, s);
    hide ValidPlan, Shaped, Announced, Announces, Recorded, SignalOf, Known;
    if i == |outputs| {
      NothingAnnounced(p, s, block, outputs, id);
    } else {
      PredictedAnnounces(p, s, block, outputs, i + 1, id);
      RecordedAnnounces(p, s, block, outputs[i], id);
      AnnouncedTogether(p, s, block, outputs, i, id, Recorded(p, s, block, outputs[i], id), Predicted(p, s, block, outputs, i + 1, id));
    }
  }

  lemma ShapedSignals(p: Plan, s: RuntimeState)
    requires Shaped(p, s)
    ensures |s.signals| == |p.config.signals|
  {
  }

  lemma NothingAnnounced(p: Plan, s: RuntimeState, block: BlockId, outputs: seq<OutputEffect>, id: Option<nat>)
    requires Shaped(p, s) && Known(p, block)
    ensures Announced(p, s, block, outputs, |outputs|, id, [])
  {
  }

  // ----- what happens to the signals ----------------------------------------------------------------------

  /** Signal `at` was published: observed now, and changed now exactly if the
      value differs from the one before. */
  ghost predicate Published(s: RuntimeState, t: RuntimeState, at: nat, value: TypedValue, now: MonotonicMs, id: Option<nat>) {
    && at < |s.signals| == |t.signals|
    && t.signals[at].value == Some(value) && t.signals[at].observedAt == Some(now) && t.signals[at].producingExecution == id
    && t.signals[at].changedAt == if s.signals[at].value == Some(value) then s.signals[at].changedAt else Some(now)
  }

  /** One output publishes its signal and leaves those of the later ones. */
  lemma OneOutputPublishes(p: Plan, rank: BlockId -> nat, s: RuntimeState, execs: seq<BlockExecution>, k: nat,
                           outputs: seq<OutputEffect>, i: nat, now: MonotonicMs, utc: Option<int>)
    requires Setting(p, View(rank, false), s, execs, k) && i < |outputs| && s.nextExecutionId <= U64_MAX
    requires OutputsTyped(ConfigOf(p, execs[k].block).endpoints, outputs)
    ensures var o, block, id := PropagateOutput(p, s, execs, k, outputs[i], now, utc), execs[k].block, execs[k].execution.id;
            && o.execs[k].execution.id == id && o.execs[k].block == block
            && (o.error.None? ==>
                  && Setting(p, View(rank, false), o.s, o.execs, k) && o.s.nextExecutionId <= U64_MAX
                  && (forall at :: at in PublishedAt(p, block, outputs, i + 1) ==> o.s.signals[at] == s.signals[at])
                  && var at := SignalOf(p, block, outputs[i].endpoint);
                     at.Some? ==> o.s.signals[at.value] == Publish(s, at.value, outputs[i].value, now, id).signals[at.value])
  {
    hide PropagateOutput, ValidPlan, OutputsTyped, Ranks, ConfigOf, Recorded, Predicted;
    var block, v := execs[k].block, View(rank, false);
    EachOutputTyped(ConfigOf(p, block).endpoints, outputs, i);
    OutputSettles(p, v, s, execs, k, outputs[i], now, utc);
    OutputPredicted(p, rank, s, execs, k, outputs, i, now, utc);
    var o := PropagateOutput(p, s, execs, k, outputs[i], now, utc);
    if o.error.None? { LaterOutputsUntouched(p, v, s, o.s, block, outputs, i); }
  }

  /** The later outputs leave the signal of the first. */
  lemma RestLeavesFirst(p: Plan, rank: BlockId -> nat, s: RuntimeState, execs: seq<BlockExecution>, k: nat,
                        outputs: seq<OutputEffect>, i: nat, now: MonotonicMs, utc: Option<int>)
    requires Setting(p, View(rank, false), s, execs, k) && i < |outputs|
    requires OutputsTyped(ConfigOf(p, execs[k].block).endpoints, outputs)
    ensures var r, at := PropagateOutputs(p, s, execs, k, outputs, i + 1, now, utc), SignalOf(p, execs[k].block, outputs[i].endpoint);
            r.error.None? && at.Some? ==> r.s.signals[at.value] == s.signals[at.value]
  {
    hide PropagateOutputs, ValidPlan, OutputsTyped, Ranks, ConfigOf;
    OutputsSettle(p, View(rank, false), s, execs, k, outputs, i + 1, now, utc);
    var r := PropagateOutputs(p, s, execs, k, outputs, i + 1, now, utc);
    if r.error.None? { FirstStays(p, View(rank, false), s, r.s, execs[k].block, outputs, i); }
  }

  lemma {:induction false} OutputsPublish(p: Plan, rank: BlockId -> nat, s: RuntimeState, execs: seq<BlockExecution>, k: nat,
                                          outputs: seq<OutputEffect>, i: nat, now: MonotonicMs, utc: Option<int>)
    requires Setting(p, View(rank, false), s, execs, k) && i <= |outputs| && s.nextExecutionId <= U64_MAX
    requires OutputsTyped(ConfigOf(p, execs[k].block).endpoints, outputs)
    ensures var o := PropagateOutputs(p, s, execs, k, outputs, i, now, utc);
            o.error.None? ==>
              forall j :: i <= j < |outputs| && SignalOf(p, execs[k].block, outputs[j].endpoint).Some? ==>
                Published(s, o.s, SignalOf(p, execs[k].block, outputs[j].endpoint).value, outputs[j].value, now, execs[k].execution.id)
    decreases |outputs| - i
  {
    hide PropagateOutput, ValidPlan, OutputsTyped, Ranks, ConfigOf, Published, PublishedAt, SignalOf;
    if i < |outputs| {
      OneOutputPublishes(p, rank, s, execs, k, outputs, i, now, utc);
      var o := PropagateOutput(p, s, execs, k, outputs[i], now, utc);
      if o.error.None? {
        OutputsPublish(p, rank, o.s, o.execs, k, outputs, i + 1, now, utc);
        RestLeavesFirst(p, rank, o.s, o.execs, k, outputs, i, now, utc);
        var r := PropagateOutputs(p, o.s, o.execs, k, outputs, i + 1, now, utc);
        if r.error.None? { AllPublished(p, s, o.s, r.s, execs[k].block, outputs, i, now, execs[k].execution.id); }
      }
    }
  }

  /** The first output is published, and each later one from the same signal. */
  lemma AllPublished(p: Plan, s: RuntimeState, t: RuntimeState, u: RuntimeState, block: BlockId, outputs: seq<OutputEffect>, i: nat, now: MonotonicMs, id: Option<nat>)
    requires Shaped(p, s) && Shaped(p, t) && Shaped(p, u) && Known(p, block) && i < |outputs|
    requires var at := SignalOf(p, block, outputs[i].endpoint);
             at.Some? ==> t.signals[at.value] == Publish(s, at.value, outputs[i].value, now, id).signals[at.value] && u.signals[at.value] == t.signals[at.value]
    requires forall at :: at in PublishedAt(p, block, outputs, i + 1) ==> t.signals[at] == s.signals[at]
    requires forall j :: i + 1 <= j < |outputs| && SignalOf(p, block, outputs[j].endpoint).Some? ==>
               Published(t, u, SignalOf(p, block, outputs[j].endpoint).value, outputs[j].value, now, id)
    ensures forall j :: i <= j < |outputs| && SignalOf(p, block, outputs[j].endpoint).Some? ==>
              Published(s, u, SignalOf(p, block, outputs[j].endpoint).value, outputs[j].value, now, id)
  {
    hide Published;
    forall j | i <= j < |outputs| && SignalOf(p, block, outputs[j].endpoint).Some?
      ensures Published(s, u, SignalOf(p, block, outputs[j].endpoint).value, outputs[j].value, now, id)
    {
      var at := SignalOf(p, block, outputs[j].endpoint).value;
      if j == i {
        FirstPublished(p, s, t, u, at, outputs[i].value, now, id);
      } else {
        assert at in PublishedAt(p, block, outputs, i + 1);
        PublishedFromSame(s, t, u, at, outputs[j].value, now, id);
      }
    }
  }

  lemma FirstPublished(p: Plan, s: RuntimeState, t: RuntimeState, u: RuntimeState, at: nat, value: TypedValue, now: MonotonicMs, id: Option<nat>)
    requires at < |s.signals| == |t.signals| == |u.signals| && t.signals[at] == Publish(s, at, value, now, id).signals[at] && u.signals[at] == t.signals[at]
    ensures Published(s, u, at, value, now, id)
  {
  }

  lemma PublishedFromSame(s: RuntimeState, t: RuntimeState, u: RuntimeState, at: nat, value: TypedValue, now: MonotonicMs, id: Option<nat>)
    requires at < |s.signals| == |t.signals| && t.signals[at] == s.signals[at] && Published(t, u, at, value, now, id)
    ensures Published(s, u, at, value, now, id)
  {
  }

  /** The later outputs, and all they lead to, leave the signal of an output. */
  lemma FirstStays(p: Plan, v: View, s: RuntimeState, t: RuntimeState, block: BlockId, outputs: seq<OutputEffect>, i: nat)
    requires ValidPlan(p) && Shaped(p, s) && Shaped(p, t) && Known(p, block) && i < |outputs|
    requires OutputsTyped(ConfigOf(p, block).endpoints, outputs)
    requires Framed(p, v, s, t, v.rank(block), PublishedAt(p, block, outputs, i + 1))
    ensures var at := SignalOf(p, block, outputs[i].endpoint); at.Some? ==> t.signals[at.value] == s.signals[at.value]
  {
    var found := SignalOf(p, block, outputs[i].endpoint);
    if found.Some? {
      OutputSignal(p, block, outputs[i]);
      forall j | i + 1 <= j < |outputs| ensures SignalOf(p, block, outputs[j].endpoint) != found {
        DistinctOutputs(ConfigOf(p, block).endpoints, outputs, i, j);
        OutputsPublishDistinctly(p, block, outputs[i], outputs[j]);
      }
      assert Same(p, s, t, found.value);
    }
  }

  /** The root of a cascade that succeeds: it announces each of its outputs, and
      the signal of each is published, whatever the cascade does meanwhile. */
  lemma RootPublishes(p: Plan, rank: BlockId -> nat, checkpoint: RuntimeState, s: RuntimeState, x: BlockExecution, now: MonotonicMs, utc: Option<int>)
    requires SoundPlan(p, rank) && FullInv(p, checkpoint) && Evolves(p, checkpoint, s, now) && ExecOk(p, x)
    requires x.execution.signalEffects == [] && x.execution.outcome.Ok?
    ensures var r, outputs := Follow(p, checkpoint, s, x, now, utc), x.execution.outcome.value.outputs;
            r.result.Ok? ==>
              && r.result.value != [] && Announced(p, s, x.block, outputs, 0, x.execution.id, r.result.value[0].execution.signalEffects)
              && forall j :: 0 <= j < |outputs| && SignalOf(p, x.block, outputs[j].endpoint).Some? ==>
                   Published(s, r.s, SignalOf(p, x.block, outputs[j].endpoint).value, outputs[j].value, now, x.execution.id)
  {
    hide ValidPlan, Ranks, PropagateOutputs, BlocksOk, SignalsOk, CascadesWithin, UsageError, Predicted, OutputsTyped, Announced, Published;
    RootCompletes(p, rank, checkpoint, s, x, now, utc);
    assert [x][0] == x;
    var outputs := x.execution.outcome.value.outputs;
    OutputsPredicted(p, rank, s, [x], 0, outputs, 0, now, utc);
    OutputsPublish(p, rank, s, [x], 0, outputs, 0, now, utc);
    PredictedAnnounces(p, s, x.block, outputs, 0, x.execution.id);
    var o := Propagate(p, s, [x], 0, now, utc);
    assert o == PropagateOutputs(p, s, [x], 0, outputs, 0, now, utc);
    assert [] + Predicted(p, s, x.block, outputs, 0, x.execution.id) == Predicted(p, s, x.block, outputs, 0, x.execution.id);
    assert o.execs[0].execution.signalEffects == Predicted(p, s, x.block, outputs, 0, x.execution.id);
  }

  // ----- all signals --------------------------------------------------------------------------------------

  /** A signal is untouched, or observed now; if it was not marked as changed it
      has its old value. */
  ghost predicate SignalMoved(before: SignalState, after: SignalState, now: MonotonicMs) {
    || after == before
    || (&& after.value.Some? && after.observedAt == Some(now)
        && (after.changedAt == Some(now) || (after.changedAt == before.changedAt && after.value == before.value)))
  }

  ghost predicate SignalsMoved(s: RuntimeState, t: RuntimeState, now: MonotonicMs) {
    |t.signals| == |s.signals| && forall at :: 0 <= at < |s.signals| ==> SignalMoved(s.signals[at], t.signals[at], now)
  }

  ghost function MovedFrom(s: RuntimeState, now: MonotonicMs): RuntimeState -> bool { (t: RuntimeState) => SignalsMoved(s, t, now) }

  lemma DeliveriesKeepSignals(p: Plan, s: RuntimeState, c: nat, endpoint: EndpointName, value: TypedValue, now: MonotonicMs, utc: Option<int>)
    requires Shaped(p, s) && c < |s.blocks|
    ensures ObserveAt(p, s, c, endpoint, value, now).s.signals == s.signals && HandTo(p, s, c, endpoint, value, now, utc).s.signals == s.signals
  {
    hide ProcessUpdate, Admit, Record;
  }

  lemma PublishingMoves(p: Plan, now: MonotonicMs, utc: Option<int>, s: RuntimeState)
    ensures Keeps(p, now, utc, MovedFrom(s, now))
  {
    hide HandTo, ObserveAt;
    forall t, c: nat, endpoint, value | Shaped(p, t) && c < |t.blocks|
      ensures ObserveAt(p, t, c, endpoint, value, now).s.signals == t.signals && HandTo(p, t, c, endpoint, value, now, utc).s.signals == t.signals
    {
      DeliveriesKeepSignals(p, t, c, endpoint, value, now, utc);
    }
  }

  ghost function AnyExecution(): BlockExecution -> bool { (x: BlockExecution) => true }

  /** A cascade leaves each signal alone, or observes it now; it marks a signal
      as changed whenever its value differs afterwards. */
  lemma CascadeMovesSignals(p: Plan, s: RuntimeState, execs: seq<BlockExecution>, k: nat, now: MonotonicMs, utc: Option<int>)
    requires Shaped(p, s) && k < |execs| && Known(p, execs[k].block)
    ensures SignalsMoved(s, Propagate(p, s, execs, k, now, utc).s, now)
  {
    hide Propagate, Keeps, HandTo;
    PublishingMoves(p, now, utc, s);
    PropagateHolds(p, s, execs, k, now, utc, MovedFrom(s, now), AnyExecution());
  }
}
