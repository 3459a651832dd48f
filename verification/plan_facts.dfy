/** What validation establishes about the fixed part of a runtime. */
module PlanFacts {
  import opened Values
  import opened SignalGraph
  import opened Configuration
  import opened Topology
  import opened LuaConversion
  import opened Cascades

  ghost predicate ValidPlan(p: Plan) {
    WellFormed(p.config, p.host.limits, p.sandbox)
  }

  function PlanBindings(p: Plan): seq<Bound> { Bindings(p.config.blocks) }

  function EdgesOf(p: Plan): Edges { BlockEdges(p.config.blocks) }

  ghost function NameOf(p: Plan, at: nat): SignalName
    requires at < |p.config.signals|
  {
    p.config.signals[at].name
  }

  ghost function ConfigOf(p: Plan, block: BlockId): BlockConfig
    requires Known(p, block)
  {
    p.config.blocks[BlockPosition(p.config.blocks, block).value]
  }

  lemma BlockAt(p: Plan, i: nat)
    requires DistinctBlocks(p.config.blocks) && i < |p.config.blocks|
    ensures BlockPosition(p.config.blocks, p.config.blocks[i].id) == Some(i)
  {
  }

  lemma BlockChecked(p: Plan, i: nat)
    requires ValidPlan(p) && i < |p.config.blocks|
    ensures BlockAccepted(p.config.blocks[i], p.host.limits, p.sandbox) && BindingsTyped(p.config.blocks[i], p.config.signals)
  {
    assert p.config.blocks[i] in p.config.blocks;
  }

  /** A binding of an output endpoint makes that endpoint the producer. */
  lemma OutputProduces(p: Plan, block: BlockId, endpoint: EndpointName, signal: SignalName)
    requires ValidPlan(p) && Bound(block, endpoint, true, signal) in PlanBindings(p)
    ensures var producers := ProducersIn(PlanBindings(p));
            signal in producers && producers[signal] == EndpointRef(block, endpoint)
  {
    var bound := PlanBindings(p);
    ProducersAreBound(bound, signal);
    var j :| 0 <= j < |bound| && bound[j] == Bound(block, endpoint, true, signal);
    assert bound[j].output && bound[j].signal == signal;
    var i :| 0 <= i < |bound| && bound[i].output && bound[i].signal == signal
             && ProducersIn(bound)[signal] == EndpointRef(bound[i].block, bound[i].endpoint);
  }

  /** The signal behind a typed output: its producer is that output, and its
      type is the type of the value. */
  lemma OutputSignal(p: Plan, block: BlockId, output: OutputEffect)
    requires ValidPlan(p) && Known(p, block) && OutputTyped(ConfigOf(p, block).endpoints, output)
    requires SignalOf(p, block, output.endpoint).Some?
    ensures var at := SignalOf(p, block, output.endpoint).value;
            && Bound(block, output.endpoint, true, NameOf(p, at)) in PlanBindings(p)
            && NameOf(p, at) in ProducersIn(PlanBindings(p))
            && ProducersIn(PlanBindings(p))[NameOf(p, at)] == EndpointRef(block, output.endpoint)
            && p.config.signals[at].dpt == output.value.GetDpt()
  {
    var i := BlockPosition(p.config.blocks, block).value;
    var b := p.config.blocks[i];
    var at := SignalOf(p, block, output.endpoint).value;
    var name := NameOf(p, at);
    BlockChecked(p, i);
    assert SignalBinding(output.endpoint, name) in b.bindings;
    assert BindingTyped(b, SignalBinding(output.endpoint, name), p.config.signals);
    var x := Bound(block, output.endpoint, true, name);
    BindingsComplete(p.config.blocks, |p.config.blocks|, x);
    assert x.block == p.config.blocks[i].id;
    OutputProduces(p, block, output.endpoint, name);
  }

  /** A consumer of a signal is an input endpoint of the signal's type. */
  lemma ConsumerIsInput(p: Plan, at: nat, r: EndpointRef)
    requires ValidPlan(p) && at < |p.config.signals| && r in Consumers(p, NameOf(p, at))
    ensures Known(p, r.block)
    ensures var endpoints := ConfigOf(p, r.block).endpoints;
            var e := EndpointPosition(endpoints, r.endpoint);
            e.Some? && endpoints[e.value].direction == Input && endpoints[e.value].dpt == p.config.signals[at].dpt
    ensures SignalBinding(r.endpoint, NameOf(p, at)) in ConfigOf(p, r.block).bindings
  {
    var name := NameOf(p, at);
    var x := Bound(r.block, r.endpoint, false, name);
    ConsumersAreBound(PlanBindings(p), name, r);
    BindingsComplete(p.config.blocks, |p.config.blocks|, x);
    var i :| 0 <= i < |p.config.blocks| && x.block == p.config.blocks[i].id
             && SignalBinding(x.endpoint, x.signal) in p.config.blocks[i].bindings
             && x.output == IsOutput(p.config.blocks[i].endpoints, x.endpoint);
    BlockAt(p, i);
    BlockChecked(p, i);
    assert BindingTyped(p.config.blocks[i], SignalBinding(r.endpoint, name), p.config.signals);
    SignalAt(p, at);
  }

  lemma SignalAt(p: Plan, at: nat)
    requires DistinctSignals(p.config.signals) && at < |p.config.signals|
    ensures SignalPosition(p.config.signals, p.config.signals[at].name) == Some(at)
  {
  }

  /** No input endpoint consumes two signals. */
  lemma ConsumerOfOne(p: Plan, a: nat, b: nat, r: EndpointRef)
    requires ValidPlan(p) && a < |p.config.signals| && b < |p.config.signals|
    requires r in Consumers(p, NameOf(p, a)) && r in Consumers(p, NameOf(p, b))
    ensures a == b
  {
    ConsumerIsInput(p, a, r);
    ConsumerIsInput(p, b, r);
    BlockChecked(p, BlockPosition(p.config.blocks, r.block).value);
    SignalAt(p, a);
    SignalAt(p, b);
  }

  /** Distinct outputs of a block publish distinct signals. */
  lemma OutputsPublishDistinctly(p: Plan, block: BlockId, a: OutputEffect, b: OutputEffect)
    requires ValidPlan(p) && Known(p, block) && a.endpoint != b.endpoint
    requires OutputTyped(ConfigOf(p, block).endpoints, a) && OutputTyped(ConfigOf(p, block).endpoints, b)
    requires SignalOf(p, block, a.endpoint).Some?
    ensures SignalOf(p, block, a.endpoint) != SignalOf(p, block, b.endpoint)
  {
    OutputSignal(p, block, a);
    if SignalOf(p, block, b.endpoint).Some? { OutputSignal(p, block, b); }
  }

  /** What the signal of one output can trigger. */
  ghost function OutputWeight(p: Plan, rank: BlockId -> nat, block: BlockId, output: OutputEffect): nat
    requires Ranks(EdgesOf(p), rank) && Known(p, block)
  {
    var at := SignalOf(p, block, output.endpoint);
    if at.None? then 0 else Weight(PlanBindings(p), {NameOf(p, at.value)}, EdgesOf(p), rank)
  }

  ghost function OutputsWeight(p: Plan, rank: BlockId -> nat, block: BlockId, outputs: seq<OutputEffect>, i: nat): nat
    requires Ranks(EdgesOf(p), rank) && Known(p, block) && i <= |outputs|
    decreases |outputs| - i
  {
    if i == |outputs| then 0
    else OutputWeight(p, rank, block, outputs[i]) + OutputsWeight(p, rank, block, outputs, i + 1)
  }

  ghost function PublishedFrom(p: Plan, block: BlockId, outputs: seq<OutputEffect>, i: nat): set<SignalName>
    requires Known(p, block) && i <= |outputs|
  {
    set j | i <= j < |outputs| && SignalOf(p, block, outputs[j].endpoint).Some?
      :: NameOf(p, SignalOf(p, block, outputs[j].endpoint).value)
  }

  lemma DistinctOutputs(endpoints: seq<Endpoint>, outputs: seq<OutputEffect>, i: nat, j: nat)
    requires OutputsTyped(endpoints, outputs) && i < j < |outputs|
    ensures outputs[i].endpoint != outputs[j].endpoint
  {
  }

  lemma {:induction false} OutputsWeighAtMost(p: Plan, rank: BlockId -> nat, block: BlockId, outputs: seq<OutputEffect>, i: nat)
    requires ValidPlan(p) && Ranks(EdgesOf(p), rank) && Known(p, block) && i <= |outputs|
    requires OutputsTyped(ConfigOf(p, block).endpoints, outputs)
    ensures OutputsWeight(p, rank, block, outputs, i)
         <= Weight(PlanBindings(p), PublishedFrom(p, block, outputs, i), EdgesOf(p), rank)
    decreases |outputs| - i
  {
    if i < |outputs| {
      OutputsWeighAtMost(p, rank, block, outputs, i + 1);
      var at := SignalOf(p, block, outputs[i].endpoint);
      var rest := PublishedFrom(p, block, outputs, i + 1);
      if at.None? {
        assert PublishedFrom(p, block, outputs, i) == rest;
      } else {
        var name := NameOf(p, at.value);
        FirstPublishesAlone(p, block, outputs, i);
        assert PublishedFrom(p, block, outputs, i) == {name} + rest;
        WeightSplits(PlanBindings(p), {name}, rest, EdgesOf(p), rank);
      }
    }
  }

  lemma FirstPublishesAlone(p: Plan, block: BlockId, outputs: seq<OutputEffect>, i: nat)
    requires ValidPlan(p) && Known(p, block) && i < |outputs| && SignalOf(p, block, outputs[i].endpoint).Some?
    requires OutputsTyped(ConfigOf(p, block).endpoints, outputs)
    ensures NameOf(p, SignalOf(p, block, outputs[i].endpoint).value) !in PublishedFrom(p, block, outputs, i + 1)
  {
    forall j | i + 1 <= j < |outputs| && SignalOf(p, block, outputs[j].endpoint).Some?
      ensures NameOf(p, SignalOf(p, block, outputs[j].endpoint).value) != NameOf(p, SignalOf(p, block, outputs[i].endpoint).value)
    {
      DistinctOutputs(ConfigOf(p, block).endpoints, outputs, i, j);
      OutputSignal(p, block, outputs[i]);
      OutputSignal(p, block, outputs[j]);
    }
  }

  /** Validation's bound: the outputs of one execution trigger at most the
      unfolded cascade below its block. */
  lemma OutputsWithinTree(p: Plan, rank: BlockId -> nat, block: BlockId, outputs: seq<OutputEffect>)
    requires ValidPlan(p) && Ranks(EdgesOf(p), rank) && Known(p, block)
    requires OutputsTyped(ConfigOf(p, block).endpoints, outputs)
    ensures OutputsWeight(p, rank, block, outputs, 0) + 1 <= TreeSize(EdgesOf(p), rank, block)
  {
    var bound, producers := PlanBindings(p), ProducersIn(PlanBindings(p));
    OutputsWeighAtMost(p, rank, block, outputs, 0);
    forall s | s in PublishedFrom(p, block, outputs, 0) ensures s in ProducedBy(producers, block) {
      var j :| 0 <= j < |outputs| && SignalOf(p, block, outputs[j].endpoint).Some?
               && s == NameOf(p, SignalOf(p, block, outputs[j].endpoint).value);
      OutputSignal(p, block, outputs[j]);
    }
    WeightGrows(bound, PublishedFrom(p, block, outputs, 0), ProducedBy(producers, block), EdgesOf(p), rank);
    EdgesWeigh(bound, producers, block, EdgesOf(p), rank);
    TreeSizeUnfolds(EdgesOf(p), rank, block);
  }
}
