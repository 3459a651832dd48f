/** The configured automation and its validation. */
module Configuration {
  import opened Values
  import opened ScheduleRules
  import opened SignalGraph

  datatype BlockConfig = BlockConfig(
    id: BlockId,
    enabled: bool,
    endpoints: seq<Endpoint>,
    logic: LogicProgram,
    schedules: seq<BlockSchedule>,
    bindings: seq<SignalBinding>)

  datatype RuntimeConfig = RuntimeConfig(blocks: seq<BlockConfig>, signals: seq<SignalConfig>, site: Site)

  /** The parts of the Lua boundary that configuration needs: a revision per
      source, and whether a source loads. */
  datatype Sandbox = Sandbox(revisionFor: seq<char> -> nat, loads: seq<char> -> bool)

  datatype BlockConfigError =
    | TooManyEndpoints(actual: nat, maximum: nat)
    | LogicSourceTooLarge(actual: nat, maximum: nat)
    | TooManySchedules(actual: nat, maximum: nat)
    | DuplicateSchedule(schedule: ScheduleName)
    | InvalidSchedule(schedule: ScheduleName)
    | DuplicateSignalBinding(endpoint: EndpointName)
    | UnknownSignalBindingEndpoint(endpoint: EndpointName)
    | DuplicateEndpoint(endpoint: EndpointName)
    | UnsupportedEndpointDpt(endpoint: EndpointName)
    | InvalidLogic

  datatype RuntimeConfigError =
    | Empty
    | TooMany(actual: nat, maximum: nat)
    | TooManySignals(actual: nat, maximum: nat)
    | DuplicateSignal(signal: SignalName)
    | UnsupportedSignalDpt(signal: SignalName)
    | TooManySignalBindings(actual: nat, maximum: nat)
    | DuplicateId(id: BlockId)
    | InvalidBlock(id: BlockId, error: BlockConfigError)
    | TooMuchLogicSource(actual: nat, maximum: nat)
    | UnknownSignal(id: BlockId, endpoint: EndpointName, signal: SignalName)
    | SignalDptMismatch(id: BlockId, endpoint: EndpointName, signal: SignalName)
    | DuplicateSignalProducer(signal: SignalName, previous: EndpointRef, duplicate: EndpointRef)
    | SignalCycle(path: seq<BlockId>)
    | CascadeLimit(actual: nat, maximum: nat)

  // ----- lookups --------------------------------------------------------------

  function BlockPosition(blocks: seq<BlockConfig>, id: BlockId): (r: Option<nat>)
    ensures r.Some? ==> r.value < |blocks| && blocks[r.value].id == id
    ensures r.Some? ==> forall i :: 0 <= i < r.value ==> blocks[i].id != id
    ensures r.None? ==> forall i :: 0 <= i < |blocks| ==> blocks[i].id != id
  {
    if blocks == [] then None
    else if blocks[0].id == id then Some(0)
    else
      var rest := BlockPosition(blocks[1..], id);
      assert forall i :: 1 <= i < |blocks| ==> blocks[i] == blocks[1..][i - 1];
      if rest.None? then None else Some(rest.value + 1)
  }

  function SignalPosition(signals: seq<SignalConfig>, name: SignalName): (r: Option<nat>)
    ensures r.Some? ==> r.value < |signals| && signals[r.value].name == name
    ensures r.None? ==> forall i :: 0 <= i < |signals| ==> signals[i].name != name
  {
    if signals == [] then None
    else if signals[0].name == name then Some(0)
    else
      var rest := SignalPosition(signals[1..], name);
      assert forall i :: 1 <= i < |signals| ==> signals[i] == signals[1..][i - 1];
      if rest.None? then None else Some(rest.value + 1)
  }

  // ----- the bindings, in declaration order -----------------------------------

  /** One signal binding with its block and the direction of its endpoint. */
  datatype Bound = Bound(block: BlockId, endpoint: EndpointName, output: bool, signal: SignalName)

  predicate IsOutput(endpoints: seq<Endpoint>, name: EndpointName) {
    var at := EndpointPosition(endpoints, name);
    at.Some? && endpoints[at.value].direction == Output
  }

  function BoundAt(b: BlockConfig, j: nat): Bound
    requires j < |b.bindings|
  {
    Bound(b.id, b.bindings[j].endpoint, IsOutput(b.endpoints, b.bindings[j].endpoint), b.bindings[j].signal)
  }

  function BoundOf(b: BlockConfig, n: nat): seq<Bound>
    requires n <= |b.bindings|
  {
    if n == 0 then [] else BoundOf(b, n - 1) + [BoundAt(b, n - 1)]
  }

  function AllBound(blocks: seq<BlockConfig>, n: nat): seq<Bound>
    requires n <= |blocks|
  {
    if n == 0 then [] else AllBound(blocks, n - 1) + BoundOf(blocks[n - 1], |blocks[n - 1].bindings|)
  }

  function Bindings(blocks: seq<BlockConfig>): seq<Bound> { AllBound(blocks, |blocks|) }

  /** The consumers of a signal, in declaration order. */
  function ConsumersIn(bound: seq<Bound>, signal: SignalName): (r: seq<EndpointRef>) {
    if bound == [] then []
    else
      var last := bound[|bound| - 1];
      ConsumersIn(bound[..|bound| - 1], signal)
      + if !last.output && last.signal == signal then [EndpointRef(last.block, last.endpoint)] else []
  }

  function ProducersIn(bound: seq<Bound>): map<SignalName, EndpointRef> {
    if bound == [] then map[]
    else
      var last := bound[|bound| - 1];
      var rest := ProducersIn(bound[..|bound| - 1]);
      if last.output then rest[last.signal := EndpointRef(last.block, last.endpoint)] else rest
  }

  /** One edge per consumer, from the block producing its signal. */
  function EdgesIn(bound: seq<Bound>, producers: map<SignalName, EndpointRef>): Edges {
    if bound == [] then map[]
    else
      var last := bound[|bound| - 1];
      var rest := EdgesIn(bound[..|bound| - 1], producers);
      if !last.output && last.signal in producers then
        var from := producers[last.signal].block;
        rest[from := Children(rest, from) + [last.block]]
      else rest
  }

  function BlockEdges(blocks: seq<BlockConfig>): Edges {
    EdgesIn(Bindings(blocks), ProducersIn(Bindings(blocks)))
  }

  /** The errors that carry a graph as evidence. */
  predicate IsGraphError(error: RuntimeConfigError) {
    error.SignalCycle? || error.CascadeLimit?
  }

  // ----- what is accepted -------------------------------------------------------

  ghost predicate DistinctEndpoints(endpoints: seq<Endpoint>) {
    forall i, j :: 0 <= i < j < |endpoints| ==> endpoints[i].name != endpoints[j].name
  }

  ghost predicate DistinctBindings(bindings: seq<SignalBinding>) {
    forall i, j :: 0 <= i < j < |bindings| ==> bindings[i].endpoint != bindings[j].endpoint
  }

  ghost predicate DistinctSchedules(schedules: seq<BlockSchedule>) {
    forall i, j :: 0 <= i < j < |schedules| ==> schedules[i].name != schedules[j].name
  }

  ghost predicate DistinctSignals(signals: seq<SignalConfig>) {
    forall i, j :: 0 <= i < j < |signals| ==> signals[i].name != signals[j].name
  }

  ghost predicate DistinctBlocks(blocks: seq<BlockConfig>) {
    forall i, j :: 0 <= i < j < |blocks| ==> blocks[i].id != blocks[j].id
  }

  ghost predicate BlockAccepted(b: BlockConfig, limits: Limits, sandbox: Sandbox) {
    && |b.endpoints| <= limits.maxEndpointsPerBlock
    && |b.logic.source| <= limits.maxLogicSourceBytesPerBlock
    && |b.schedules| <= limits.maxSchedulesPerBlock
    && DistinctSchedules(b.schedules)
    && (forall s :: s in b.schedules ==> RuleInBounds(s.rule))
    && DistinctBindings(b.bindings)
    && (forall s :: s in b.bindings ==> EndpointPosition(b.endpoints, s.endpoint).Some?)
    && DistinctEndpoints(b.endpoints)
    && (forall e :: e in b.endpoints ==> e.dpt.IsSupported())
    && b.logic.revision == sandbox.revisionFor(b.logic.source)
    && sandbox.loads(b.logic.source)
  }

  function BindingCount(blocks: seq<BlockConfig>, n: nat): nat
    requires n <= |blocks|
  {
    if n == 0 then 0 else BindingCount(blocks, n - 1) + |blocks[n - 1].bindings|
  }

  function SourceBytes(blocks: seq<BlockConfig>, n: nat): nat
    requires n <= |blocks|
  {
    if n == 0 then 0 else SourceBytes(blocks, n - 1) + |blocks[n - 1].logic.source|
  }

  /** A binding joins its endpoint to a declared signal of the same type. */
  ghost predicate BindingTyped(b: BlockConfig, binding: SignalBinding, signals: seq<SignalConfig>) {
    var signal := SignalPosition(signals, binding.signal);
    var endpoint := EndpointPosition(b.endpoints, binding.endpoint);
    signal.Some? && endpoint.Some? && b.endpoints[endpoint.value].dpt == signals[signal.value].dpt
  }

  ghost predicate BindingsTyped(b: BlockConfig, signals: seq<SignalConfig>) {
    forall binding :: binding in b.bindings ==> BindingTyped(b, binding, signals)
  }

  ghost predicate OneProducer(bound: seq<Bound>) {
    forall i, j :: 0 <= i < j < |bound| && bound[i].output && bound[j].output ==> bound[i].signal != bound[j].signal
  }

  /** Every unfolded cascade has at most `maximum` executions. */
  ghost predicate CascadesWithin(blocks: seq<BlockConfig>, edges: Edges, maximum: nat) {
    forall i, t :: 0 <= i < |blocks| && Unfolds(edges, t) && t.id == blocks[i].id ==> NodeCount(t) <= maximum
  }

  ghost predicate WellFormed(config: RuntimeConfig, limits: Limits, sandbox: Sandbox) {
    && DistinctSignals(config.signals)
    && DistinctBlocks(config.blocks)
    && (forall b :: b in config.blocks ==> BlockAccepted(b, limits, sandbox))
    && (forall b :: b in config.blocks ==> BindingsTyped(b, config.signals))
    && OneProducer(Bindings(config.blocks))
  }

  /** The whole meaning of validation. */
  ghost predicate Accepted(config: RuntimeConfig, limits: Limits, sandbox: Sandbox) {
    && config.blocks != []
    && |config.blocks| <= limits.maxLogicBlocks
    && |config.signals| <= limits.maxSignals
    && (forall s :: s in config.signals ==> s.dpt.IsSupported())
    && BindingCount(config.blocks, |config.blocks|) <= limits.maxSignalBindings
    && SourceBytes(config.blocks, |config.blocks|) <= limits.maxLogicSourceBytesTotal
    && WellFormed(config, limits, sandbox)
    && Acyclic(BlockEdges(config.blocks))
    && CascadesWithin(config.blocks, BlockEdges(config.blocks), limits.maxCascadeExecutions)
  }

  // ----- validation -------------------------------------------------------------

  method ValidateBlock(b: BlockConfig, limits: Limits, sandbox: Sandbox) returns (error: Option<BlockConfigError>)
    ensures error.None? <==> BlockAccepted(b, limits, sandbox)
  {
    if |b.endpoints| > limits.maxEndpointsPerBlock {
      return Some(TooManyEndpoints(|b.endpoints|, limits.maxEndpointsPerBlock));
    }
    if |b.logic.source| > limits.maxLogicSourceBytesPerBlock {
      return Some(LogicSourceTooLarge(|b.logic.source|, limits.maxLogicSourceBytesPerBlock));
    }
    if |b.schedules| > limits.maxSchedulesPerBlock {
      return Some(TooManySchedules(|b.schedules|, limits.maxSchedulesPerBlock));
    }
    error := ValidateSchedules(b.schedules);
    if error.Some? { return; }
    error := ValidateBindings(b);
    if error.Some? { return; }
    error := ValidateEndpoints(b.endpoints);
    if error.Some? { return; }
    if b.logic.revision != sandbox.revisionFor(b.logic.source) || !sandbox.loads(b.logic.source) {
      return Some(InvalidLogic);
    }
    error := None;
  }

  method ValidateSchedules(schedules: seq<BlockSchedule>) returns (error: Option<BlockConfigError>)
    ensures error.None? <==> DistinctSchedules(schedules) && forall s :: s in schedules ==> RuleInBounds(s.rule)
  {
    var i := 0;
    while i < |schedules|
      invariant 0 <= i <= |schedules|
      invariant DistinctSchedules(schedules[..i]) && forall s :: s in schedules[..i] ==> RuleInBounds(s.rule)
    {
      var j := 0;
      while j < i
        invariant 0 <= j <= i
        invariant forall k :: 0 <= k < j ==> schedules[k].name != schedules[i].name
      {
        if schedules[j].name == schedules[i].name { return Some(DuplicateSchedule(schedules[i].name)); }
        j := j + 1;
      }
      if !RuleInBounds(schedules[i].rule) { return Some(InvalidSchedule(schedules[i].name)); }
      assert schedules[..i + 1] == schedules[..i] + [schedules[i]];
      i := i + 1;
    }
    assert schedules[..i] == schedules;
    error := None;
  }

  method ValidateBindings(b: BlockConfig) returns (error: Option<BlockConfigError>)
    ensures error.None? <==>
              DistinctBindings(b.bindings) && forall s :: s in b.bindings ==> EndpointPosition(b.endpoints, s.endpoint).Some?
  {
    var i := 0;
    while i < |b.bindings|
      invariant 0 <= i <= |b.bindings|
      invariant DistinctBindings(b.bindings[..i])
      invariant forall s :: s in b.bindings[..i] ==> EndpointPosition(b.endpoints, s.endpoint).Some?
    {
      var j := 0;
      while j < i
        invariant 0 <= j <= i
        invariant forall k :: 0 <= k < j ==> b.bindings[k].endpoint != b.bindings[i].endpoint
      {
        if b.bindings[j].endpoint == b.bindings[i].endpoint {
          return Some(DuplicateSignalBinding(b.bindings[i].endpoint));
        }
        j := j + 1;
      }
      if EndpointPosition(b.endpoints, b.bindings[i].endpoint).None? {
        return Some(UnknownSignalBindingEndpoint(b.bindings[i].endpoint));
      }
      assert b.bindings[..i + 1] == b.bindings[..i] + [b.bindings[i]];
      i := i + 1;
    }
    assert b.bindings[..i] == b.bindings;
    error := None;
  }

  method ValidateEndpoints(endpoints: seq<Endpoint>) returns (error: Option<BlockConfigError>)
    ensures error.None? <==> DistinctEndpoints(endpoints) && forall e :: e in endpoints ==> e.dpt.IsSupported()
  {
    var i := 0;
    while i < |endpoints|
      invariant 0 <= i <= |endpoints|
      invariant DistinctEndpoints(endpoints[..i]) && forall e :: e in endpoints[..i] ==> e.dpt.IsSupported()
    {
      var j := 0;
      while j < i
        invariant 0 <= j <= i
        invariant forall k :: 0 <= k < j ==> endpoints[k].name != endpoints[i].name
      {
        if endpoints[j].name == endpoints[i].name { return Some(DuplicateEndpoint(endpoints[i].name)); }
        j := j + 1;
      }
      if !endpoints[i].dpt.IsSupported() { return Some(UnsupportedEndpointDpt(endpoints[i].name)); }
      assert endpoints[..i + 1] == endpoints[..i] + [endpoints[i]];
      i := i + 1;
    }
    assert endpoints[..i] == endpoints;
    error := None;
  }

  method ValidateSignals(signals: seq<SignalConfig>) returns (error: Option<RuntimeConfigError>)
    ensures error.None? <==> DistinctSignals(signals) && forall s :: s in signals ==> s.dpt.IsSupported()
    ensures error.Some? ==> !IsGraphError(error.value)
  {
    var names: set<SignalName> := {};
    var i := 0;
    while i < |signals|
      invariant 0 <= i <= |signals|
      invariant DistinctSignals(signals[..i]) && forall s :: s in signals[..i] ==> s.dpt.IsSupported()
      invariant names == set k | 0 <= k < i :: signals[k].name
    {
      if signals[i].name in names { return Some(DuplicateSignal(signals[i].name)); }
      names := names + {signals[i].name};
      if !signals[i].dpt.IsSupported() { return Some(UnsupportedSignalDpt(signals[i].name)); }
      assert signals[..i + 1] == signals[..i] + [signals[i]];
      i := i + 1;
    }
    assert signals[..i] == signals;
    error := None;
  }

  method ValidateBlocks(config: RuntimeConfig, limits: Limits, sandbox: Sandbox) returns (error: Option<RuntimeConfigError>)
    ensures error.None? <==>
              DistinctBlocks(config.blocks) && forall b :: b in config.blocks ==> BlockAccepted(b, limits, sandbox)
    ensures error.Some? ==> !IsGraphError(error.value)
  {
    var blocks := config.blocks;
    var i := 0;
    while i < |blocks|
      invariant 0 <= i <= |blocks|
      invariant DistinctBlocks(blocks[..i]) && forall b :: b in blocks[..i] ==> BlockAccepted(b, limits, sandbox)
    {
      var j := 0;
      while j < i
        invariant 0 <= j <= i
        invariant forall k :: 0 <= k < j ==> blocks[k].id != blocks[i].id
      {
        if blocks[j].id == blocks[i].id { return Some(DuplicateId(blocks[i].id)); }
        j := j + 1;
      }
      var invalid := ValidateBlock(blocks[i], limits, sandbox);
      if invalid.Some? { return Some(InvalidBlock(blocks[i].id, invalid.value)); }
      assert blocks[..i + 1] == blocks[..i] + [blocks[i]];
      i := i + 1;
    }
    assert blocks[..i] == blocks;
    error := None;
  }

  lemma {:induction false} ProducersAreBound(bound: seq<Bound>, signal: SignalName)
    ensures signal in ProducersIn(bound) <==> exists i :: 0 <= i < |bound| && bound[i].output && bound[i].signal == signal
    ensures signal in ProducersIn(bound) ==>
              exists i :: 0 <= i < |bound| && bound[i].output && bound[i].signal == signal
                          && ProducersIn(bound)[signal] == EndpointRef(bound[i].block, bound[i].endpoint)
    decreases |bound|
  {
    if bound != [] {
      var rest := bound[..|bound| - 1];
      ProducersAreBound(rest, signal);
      assert forall i :: 0 <= i < |rest| ==> rest[i] == bound[i];
      if signal in ProducersIn(rest) {
        var i :| 0 <= i < |rest| && rest[i].output && rest[i].signal == signal
                 && ProducersIn(rest)[signal] == EndpointRef(rest[i].block, rest[i].endpoint);
        assert bound[i].output && bound[i].signal == signal;
      }
      var last := bound[|bound| - 1];
      if last.output && last.signal == signal {
        assert ProducersIn(bound)[signal] == EndpointRef(last.block, last.endpoint);
      }
    }
  }

  lemma OneProducerSnoc(bound: seq<Bound>, last: Bound)
    ensures OneProducer(bound + [last]) <==>
              OneProducer(bound) && (last.output ==> last.signal !in ProducersIn(bound))
  {
    ProducersAreBound(bound, last.signal);
    var more := bound + [last];
    assert forall i :: 0 <= i < |bound| ==> more[i] == bound[i];
    if OneProducer(more) {
      assert more[|bound|] == last;
    }
  }

  lemma {:induction false} OneProducerPrefix(a: seq<Bound>, b: seq<Bound>)
    requires OneProducer(a + b)
    ensures OneProducer(a)
  {
    assert forall i :: 0 <= i < |a| ==> (a + b)[i] == a[i];
  }

  lemma ProducersSnoc(bound: seq<Bound>, last: Bound)
    ensures ProducersIn(bound + [last]) ==
            if last.output then ProducersIn(bound)[last.signal := EndpointRef(last.block, last.endpoint)] else ProducersIn(bound)
  {
    assert (bound + [last])[..|bound|] == bound;
  }

  lemma EdgesSnoc(bound: seq<Bound>, last: Bound, producers: map<SignalName, EndpointRef>)
    ensures EdgesIn(bound + [last], producers) ==
            var rest := EdgesIn(bound, producers);
            if !last.output && last.signal in producers
            then rest[producers[last.signal].block := Children(rest, producers[last.signal].block) + [last.block]]
            else rest
  {
    assert (bound + [last])[..|bound|] == bound;
  }

  lemma {:induction false} BoundOfPrefix(b: BlockConfig, j: nat, n: nat)
    requires j <= n <= |b.bindings|
    ensures BoundOf(b, j) <= BoundOf(b, n)
    decreases n - j
  {
    if j < n { BoundOfPrefix(b, j, n - 1); }
  }

  lemma {:induction false} AllBoundPrefix(blocks: seq<BlockConfig>, i: nat, n: nat)
    requires i <= n <= |blocks|
    ensures AllBound(blocks, i) <= AllBound(blocks, n)
    decreases n - i
  {
    if i < n { AllBoundPrefix(blocks, i, n - 1); }
  }

  /** The bindings met before binding `j` of block `i`. */
  function BoundUpTo(blocks: seq<BlockConfig>, i: nat, j: nat): seq<Bound>
    requires i < |blocks| && j <= |blocks[i].bindings|
  {
    AllBound(blocks, i) + BoundOf(blocks[i], j)
  }

  lemma BoundUpToIsPrefix(blocks: seq<BlockConfig>, i: nat, j: nat)
    requires i < |blocks| && j <= |blocks[i].bindings|
    ensures BoundUpTo(blocks, i, j) <= Bindings(blocks)
  {
    AllBoundPrefix(blocks, i + 1, |blocks|);
    BoundOfPrefix(blocks[i], j, |blocks[i].bindings|);
  }

  lemma BoundUpToSnoc(blocks: seq<BlockConfig>, i: nat, j: nat)
    requires i < |blocks| && j < |blocks[i].bindings|
    ensures BoundUpTo(blocks, i, j + 1) == BoundUpTo(blocks, i, j) + [BoundAt(blocks[i], j)]
  {
  }

  lemma BoundUpToEnds(blocks: seq<BlockConfig>, i: nat)
    requires i < |blocks|
    ensures BoundUpTo(blocks, i, 0) == AllBound(blocks, i)
    ensures BoundUpTo(blocks, i, |blocks[i].bindings|) == AllBound(blocks, i + 1)
  {
  }

  /** What binding `j` of block `i` does to the producers found so far. */
  lemma NextProducer(blocks: seq<BlockConfig>, i: nat, j: nat)
    requires i < |blocks| && j < |blocks[i].bindings| && OneProducer(BoundUpTo(blocks, i, j))
    ensures var last, producers := BoundAt(blocks[i], j), ProducersIn(BoundUpTo(blocks, i, j));
            && ProducersIn(BoundUpTo(blocks, i, j + 1)) ==
               (if last.output then producers[last.signal := EndpointRef(last.block, last.endpoint)] else producers)
            && (last.output && last.signal in producers ==> !OneProducer(Bindings(blocks)))
            && (last.output && last.signal in producers <==> !OneProducer(BoundUpTo(blocks, i, j + 1)))
  {
    var before, last := BoundUpTo(blocks, i, j), BoundAt(blocks[i], j);
    BoundUpToSnoc(blocks, i, j);
    OneProducerSnoc(before, last);
    ProducersSnoc(before, last);
    BoundUpToIsPrefix(blocks, i, j + 1);
    var tail := Bindings(blocks)[|before| + 1..];
    assert Bindings(blocks) == (before + [last]) + tail;
    if OneProducer(Bindings(blocks)) { OneProducerPrefix(before + [last], tail); }
  }

  /** First pass: types every binding and finds the producer of each signal. */
  method CollectProducers(config: RuntimeConfig)
    returns (error: Option<RuntimeConfigError>, producers: map<SignalName, EndpointRef>)
    requires forall b, s :: b in config.blocks && s in b.bindings ==> EndpointPosition(b.endpoints, s.endpoint).Some?
    ensures error.None? <==>
              (forall b :: b in config.blocks ==> BindingsTyped(b, config.signals)) && OneProducer(Bindings(config.blocks))
    ensures error.None? ==> producers == ProducersIn(Bindings(config.blocks))
    ensures error.Some? ==> !IsGraphError(error.value)
  {
    hide BoundOf, BindingTyped;
    var blocks := config.blocks;
    producers := map[];
    var i := 0;
    while i < |blocks|
      invariant 0 <= i <= |blocks|
      invariant forall k :: 0 <= k < i ==> BindingsTyped(blocks[k], config.signals)
      invariant OneProducer(AllBound(blocks, i)) && producers == ProducersIn(AllBound(blocks, i))
    {
      error, producers := CollectBlockProducers(config, i, producers);
      if error.Some? { return; }
      i := i + 1;
    }
    error := None;
  }

  method CollectBlockProducers(config: RuntimeConfig, i: nat, producers0: map<SignalName, EndpointRef>)
    returns (error: Option<RuntimeConfigError>, producers: map<SignalName, EndpointRef>)
    requires i < |config.blocks|
    requires forall s :: s in config.blocks[i].bindings ==> EndpointPosition(config.blocks[i].endpoints, s.endpoint).Some?
    requires OneProducer(AllBound(config.blocks, i)) && producers0 == ProducersIn(AllBound(config.blocks, i))
    ensures error.Some? ==> !BindingsTyped(config.blocks[i], config.signals) || !OneProducer(Bindings(config.blocks))
    ensures error.Some? ==> !IsGraphError(error.value)
    ensures error.None? ==>
              && BindingsTyped(config.blocks[i], config.signals)
              && OneProducer(AllBound(config.blocks, i + 1))
              && producers == ProducersIn(AllBound(config.blocks, i + 1))
  {
    hide OneProducer, ProducersIn, BoundOf, AllBound, BoundUpTo;
    BoundUpToEnds(config.blocks, i);
    var blocks := config.blocks;
    var b := blocks[i];
    producers := producers0;
    var j := 0;
    while j < |b.bindings|
      invariant 0 <= j <= |b.bindings|
      invariant forall k :: 0 <= k < j ==> BindingTyped(b, b.bindings[k], config.signals)
      invariant OneProducer(BoundUpTo(blocks, i, j)) && producers == ProducersIn(BoundUpTo(blocks, i, j))
    {
      var binding := b.bindings[j];
      var signal := SignalPosition(config.signals, binding.signal);
      if signal.None? {
        assert !BindingTyped(b, binding, config.signals);
        return Some(UnknownSignal(b.id, binding.endpoint, binding.signal)), producers;
      }
      var endpoint := b.endpoints[EndpointPosition(b.endpoints, binding.endpoint).value];
      if endpoint.dpt != config.signals[signal.value].dpt {
        assert !BindingTyped(b, binding, config.signals);
        return Some(SignalDptMismatch(b.id, endpoint.name, binding.signal)), producers;
      }
      NextProducer(blocks, i, j);
      if endpoint.direction == Output {
        var identity := EndpointRef(b.id, endpoint.name);
        if binding.signal in producers {
          return Some(DuplicateSignalProducer(binding.signal, producers[binding.signal], identity)), producers;
        }
        producers := producers[binding.signal := identity];
      }
      j := j + 1;
    }
    error := None;
  }

  /** Second pass: one edge per consumer of a produced signal. */
  method CollectEdges(blocks: seq<BlockConfig>, producers: map<SignalName, EndpointRef>) returns (edges: Edges)
    ensures edges == EdgesIn(Bindings(blocks), producers)
  {
    edges := map[];
    var i := 0;
    while i < |blocks|
      invariant 0 <= i <= |blocks|
      invariant edges == EdgesIn(AllBound(blocks, i), producers)
    {
      edges := CollectBlockEdges(blocks, i, producers, edges);
      i := i + 1;
    }
  }

  method CollectBlockEdges(blocks: seq<BlockConfig>, i: nat, producers: map<SignalName, EndpointRef>, edges0: Edges)
    returns (edges: Edges)
    requires i < |blocks| && edges0 == EdgesIn(AllBound(blocks, i), producers)
    ensures edges == EdgesIn(AllBound(blocks, i + 1), producers)
  {
    var b := blocks[i];
    edges := edges0;
    assert BoundUpTo(blocks, i, 0) == AllBound(blocks, i);
    var j := 0;
    while j < |b.bindings|
      invariant 0 <= j <= |b.bindings|
      invariant edges == EdgesIn(BoundUpTo(blocks, i, j), producers)
    {
      BoundUpToSnoc(blocks, i, j);
      EdgesSnoc(BoundUpTo(blocks, i, j), BoundAt(b, j), producers);
      var binding := b.bindings[j];
      if !IsOutput(b.endpoints, binding.endpoint) && binding.signal in producers {
        var from := producers[binding.signal].block;
        edges := edges[from := Children(edges, from) + [b.id]];
      }
      j := j + 1;
    }
  }

  predicate BoundToBlocks(bound: seq<Bound>, ids: set<BlockId>) {
    forall x :: x in bound ==> x.block in ids
  }

  lemma {:induction false} EdgesStayInside(bound: seq<Bound>, producers: map<SignalName, EndpointRef>, ids: set<BlockId>)
    requires BoundToBlocks(bound, ids) && forall s :: s in producers ==> producers[s].block in ids
    ensures ClosedUnder(EdgesIn(bound, producers), ids)
    decreases |bound|
  {
    if bound != [] {
      var rest := bound[..|bound| - 1];
      assert forall x :: x in rest ==> x in bound;
      assert bound[|bound| - 1] in bound;
      EdgesStayInside(rest, producers, ids);
    }
  }

  lemma {:induction false} BindingsStayInside(blocks: seq<BlockConfig>, i: nat, ids: set<BlockId>)
    requires i <= |blocks| && forall b :: b in blocks ==> b.id in ids
    ensures BoundToBlocks(AllBound(blocks, i), ids)
  {
    if i > 0 {
      BindingsStayInside(blocks, i - 1, ids);
      BoundOfBlock(blocks[i - 1], |blocks[i - 1].bindings|);
    }
  }

  lemma {:induction false} BoundOfBlock(b: BlockConfig, n: nat)
    requires n <= |b.bindings|
    ensures forall x :: x in BoundOf(b, n) ==> x.block == b.id
  {
    if n > 0 { BoundOfBlock(b, n - 1); }
  }

  lemma BlockEdgesStayInside(blocks: seq<BlockConfig>, ids: set<BlockId>)
    requires ids == set b | b in blocks :: b.id
    ensures ClosedUnder(BlockEdges(blocks), ids)
  {
    var bound := Bindings(blocks);
    BindingsStayInside(blocks, |blocks|, ids);
    forall s | s in ProducersIn(bound) ensures ProducersIn(bound)[s].block in ids {
      ProducersAreBound(bound, s);
      var i :| 0 <= i < |bound| && bound[i].output && bound[i].signal == s
               && ProducersIn(bound)[s] == EndpointRef(bound[i].block, bound[i].endpoint);
      assert bound[i] in bound;
    }
    EdgesStayInside(bound, ProducersIn(bound), ids);
  }

  /** The largest cascade any block roots. */
  method LargestCascade(blocks: seq<BlockConfig>, edges: Edges, ghost rank: BlockId -> nat) returns (largest: nat)
    requires Ranks(edges, rank)
    ensures forall maximum: nat :: largest <= maximum <==> CascadesWithin(blocks, edges, maximum)
  {
    largest := 0;
    var i := 0;
    while i < |blocks|
      invariant 0 <= i <= |blocks|
      invariant forall k :: 0 <= k < i ==> TreeSize(edges, rank, blocks[k].id) <= largest
      invariant largest == 0 || exists k :: 0 <= k < i && TreeSize(edges, rank, blocks[k].id) == largest
    {
      var size, _ := CascadeSize(blocks[i].id, edges, map[], rank);
      if size > largest { largest := size; }
      i := i + 1;
    }
    forall maximum: nat ensures largest <= maximum <==> CascadesWithin(blocks, edges, maximum) {
      CascadesWithinMeaning(blocks, edges, rank, maximum);
    }
  }

  lemma CascadesWithinMeaning(blocks: seq<BlockConfig>, edges: Edges, rank: BlockId -> nat, maximum: nat)
    requires Ranks(edges, rank)
    ensures CascadesWithin(blocks, edges, maximum)
       <==> forall k :: 0 <= k < |blocks| ==> TreeSize(edges, rank, blocks[k].id) <= maximum
  {
    forall k, t | 0 <= k < |blocks| && Unfolds(edges, t) && t.id == blocks[k].id
      ensures NodeCount(t) == TreeSize(edges, rank, blocks[k].id)
    {
      UnfoldUnique(edges, rank, t);
    }
    forall k | 0 <= k < |blocks| && CascadesWithin(blocks, edges, maximum)
      ensures TreeSize(edges, rank, blocks[k].id) <= maximum
    {
      var t := Unfold(edges, rank, blocks[k].id);
      assert Unfolds(edges, t);
    }
  }

  /** Accepts exactly the configurations that satisfy every declarative
      condition; the two graph errors carry their evidence. */
  method Validate(config: RuntimeConfig, limits: Limits, sandbox: Sandbox) returns (error: Option<RuntimeConfigError>)
    ensures error.None? <==> Accepted(config, limits, sandbox)
    ensures error.None? ==> exists rank :: Ranks(BlockEdges(config.blocks), rank)
    ensures error.Some? && error.value.SignalCycle? ==> ClosedWalk(BlockEdges(config.blocks), error.value.path)
    ensures error.Some? && error.value.CascadeLimit? ==>
              error.value.actual > limits.maxCascadeExecutions && !CascadesWithin(config.blocks, BlockEdges(config.blocks), error.value.actual - 1)
  {
    var blocks := config.blocks;
    if blocks == [] { return Some(Empty); }
    if |blocks| > limits.maxLogicBlocks { return Some(TooMany(|blocks|, limits.maxLogicBlocks)); }
    if |config.signals| > limits.maxSignals { return Some(TooManySignals(|config.signals|, limits.maxSignals)); }
    error := ValidateSignals(config.signals);
    if error.Some? { return; }
    var bindings := BindingCount(blocks, |blocks|);
    if bindings > limits.maxSignalBindings { return Some(TooManySignalBindings(bindings, limits.maxSignalBindings)); }
    error := ValidateBlocks(config, limits, sandbox);
    if error.Some? { return; }
    var bytes := SourceBytes(blocks, |blocks|);
    if bytes > limits.maxLogicSourceBytesTotal {
      return Some(TooMuchLogicSource(bytes, limits.maxLogicSourceBytesTotal));
    }
    var producers;
    error, producers := CollectProducers(config);
    if error.Some? { return; }
    error := ValidateGraph(blocks, producers, limits.maxCascadeExecutions);
  }

  method ValidateGraph(blocks: seq<BlockConfig>, producers: map<SignalName, EndpointRef>, maximum: nat)
    returns (error: Option<RuntimeConfigError>)
    requires producers == ProducersIn(Bindings(blocks))
    ensures error.None? <==> Acyclic(BlockEdges(blocks)) && CascadesWithin(blocks, BlockEdges(blocks), maximum)
    ensures error.None? ==> exists rank :: Ranks(BlockEdges(blocks), rank)
    ensures error.Some? ==> IsGraphError(error.value)
    ensures error.Some? && error.value.SignalCycle? ==> ClosedWalk(BlockEdges(blocks), error.value.path)
    ensures error.Some? && error.value.CascadeLimit? ==>
              error.value.actual > maximum && !CascadesWithin(blocks, BlockEdges(blocks), error.value.actual - 1)
  {
    var edges := CollectEdges(blocks, producers);
    var ids := seq(|blocks|, i requires 0 <= i < |blocks| => blocks[i].id);
    assert (set x | x in ids) == set b | b in blocks :: b.id by {
      forall b | b in blocks ensures b.id in ids {
        var i :| 0 <= i < |blocks| && blocks[i] == b;
        assert ids[i] == b.id;
      }
    }
    BlockEdgesStayInside(blocks, set x | x in ids);
    var cycle := DetectSignalCycle(ids, edges);
    if cycle.Some? { return Some(SignalCycle(cycle.value)); }
    ghost var rank :| Ranks(edges, rank);
    var largest := LargestCascade(blocks, edges, rank);
    if largest > maximum { return Some(CascadeLimit(largest, maximum)); }
    error := None;
  }
}
