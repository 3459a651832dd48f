/** Simulating one input on copied state, and how it relates to the live
    execution of the same input. */
module Simulation {
  import opened Values
  import opened SignalGraph
  import opened Configuration
  import opened TransientState
  import opened LuaConversion
  import opened Engines
  import opened LogicBlocks
  import opened ScheduleCursors
  import opened Cascades
  import opened CascadeOrder
  import opened PlanFacts
  import opened CascadeSafety
  import opened SignalAgreement
  import opened RuntimeEvents
  import opened RuntimeSafety

  datatype SimulationInput = SimulationInput(endpoint: EndpointName, value: Option<TypedValue>, valid: bool, age: Option<nat>)
  datatype SimulationTrigger = SimulationTrigger(endpoint: EndpointName, value: TypedValue, previous: Option<TypedValue>)
  datatype SimulationScenario = SimulationScenario(inputs: seq<SimulationInput>, trigger: SimulationTrigger)

  datatype SimulationError =
    | UnknownInput(endpoint: EndpointName)
    | NotAnInput(endpoint: EndpointName)
    | DuplicateInput(endpoint: EndpointName)
    | MissingInput(endpoint: EndpointName)
    | MissingValue(endpoint: EndpointName)
    | MissingAge(endpoint: EndpointName)
    | UnexpectedValue(endpoint: EndpointName)
    | UnexpectedAge(endpoint: EndpointName)
    | TypeMismatch(endpoint: EndpointName, expected: Dpt, actual: Dpt)
    | TriggerValueMismatch(endpoint: EndpointName)
    | TriggerAgeMismatch(endpoint: EndpointName)
    | InvalidState(error: StateError)
    | DuplicateTimer(timer: TimerName)
    | TimerRevisionMismatch(timer: TimerName)
    | UnknownTimer(timer: TimerName)

  // ----- supplied inputs --------------------------------------------------------------------------

  function CheckValue(endpoint: Endpoint, value: TypedValue): Option<SimulationError> {
    if endpoint.dpt != value.GetDpt() then Some(TypeMismatch(endpoint.name, endpoint.dpt, value.GetDpt())) else None
  }

  function CheckInput(endpoint: Endpoint, input: SimulationInput): Option<SimulationError> {
    if input.valid then
      if input.value.None? then Some(MissingValue(input.endpoint))
      else if input.age.None? then Some(MissingAge(input.endpoint))
      else CheckValue(endpoint, input.value.value)
    else if input.value.Some? then Some(UnexpectedValue(input.endpoint))
    else if input.age.Some? then Some(UnexpectedAge(input.endpoint))
    else None
  }

  /** The input supplied for endpoint `e` among `inputs`. */
  function SuppliedFor(endpoints: seq<Endpoint>, inputs: seq<SimulationInput>, e: nat): Option<SimulationInput> {
    if inputs == [] then None
    else
      var last := inputs[|inputs| - 1];
      if EndpointPosition(endpoints, last.endpoint) == Some(e) then Some(last)
      else SuppliedFor(endpoints, inputs[..|inputs| - 1], e)
  }

  ghost predicate InputAccepted(endpoints: seq<Endpoint>, input: SimulationInput) {
    var at := EndpointPosition(endpoints, input.endpoint);
    at.Some? && endpoints[at.value].direction == Input && CheckInput(endpoints[at.value], input).None?
  }

  ghost predicate DistinctInputs(inputs: seq<SimulationInput>) {
    forall i, j :: 0 <= i < j < |inputs| ==> inputs[i].endpoint != inputs[j].endpoint
  }

  /** Every input endpoint is supplied exactly once, each time well. */
  ghost predicate Supplies(endpoints: seq<Endpoint>, inputs: seq<SimulationInput>) {
    && (forall i :: 0 <= i < |inputs| ==> InputAccepted(endpoints, inputs[i]))
    && DistinctInputs(inputs)
    && (forall e :: 0 <= e < |endpoints| && endpoints[e].direction == Input ==> SuppliedFor(endpoints, inputs, e).Some?)
  }

  function SnapshotFrom(endpoint: Endpoint, input: SimulationInput): InputSnapshot {
    InputSnapshot(endpoint.name, endpoint.dpt, input.value, input.valid, input.age)
  }

  /** The snapshots of the first `n` endpoints, in declaration order. */
  ghost function SuppliedSnapshots(endpoints: seq<Endpoint>, inputs: seq<SimulationInput>, n: nat): seq<InputSnapshot>
    requires n <= |endpoints|
  {
    if n == 0 then []
    else
      var input := SuppliedFor(endpoints, inputs, n - 1);
      SuppliedSnapshots(endpoints, inputs, n - 1)
      + if endpoints[n - 1].direction == Input && input.Some? then [SnapshotFrom(endpoints[n - 1], input.value)] else []
  }

  lemma {:induction false} SuppliedByOne(endpoints: seq<Endpoint>, inputs: seq<SimulationInput>, e: nat)
    ensures SuppliedFor(endpoints, inputs, e).None? ==> forall i :: 0 <= i < |inputs| ==> EndpointPosition(endpoints, inputs[i].endpoint) != Some(e)
    ensures SuppliedFor(endpoints, inputs, e).Some? ==>
              SuppliedFor(endpoints, inputs, e).value in inputs && EndpointPosition(endpoints, SuppliedFor(endpoints, inputs, e).value.endpoint) == Some(e)
    decreases |inputs|
  {
    if inputs != [] {
      assert inputs == inputs[..|inputs| - 1] + [inputs[|inputs| - 1]];
      SuppliedByOne(endpoints, inputs[..|inputs| - 1], e);
    }
  }

  method FillSupplied(endpoints: seq<Endpoint>, inputs: seq<SimulationInput>, supplied: array<Option<SimulationInput>>)
    returns (error: Option<SimulationError>)
    requires supplied.Length == |endpoints| && forall e :: 0 <= e < |endpoints| ==> supplied[e] == None
    modifies supplied
    ensures error.None? <==> (forall i :: 0 <= i < |inputs| ==> InputAccepted(endpoints, inputs[i]))
                             && DistinctInputs(inputs)
    ensures error.None? ==> forall e :: 0 <= e < |endpoints| ==> supplied[e] == SuppliedFor(endpoints, inputs, e)
  {
    hide CheckInput;
    var i := 0;
    while i < |inputs|
      invariant 0 <= i <= |inputs|
      invariant forall k :: 0 <= k < i ==> InputAccepted(endpoints, inputs[k])
      invariant forall k, j :: 0 <= k < j < i ==> inputs[k].endpoint != inputs[j].endpoint
      invariant forall e :: 0 <= e < |endpoints| ==> supplied[e] == SuppliedFor(endpoints, inputs[..i], e)
    {
      var input := inputs[i];
      var at := EndpointPosition(endpoints, input.endpoint);
      if at.None? { return Some(UnknownInput(input.endpoint)); }
      if endpoints[at.value].direction != Input { return Some(NotAnInput(input.endpoint)); }
      SuppliedByOne(endpoints, inputs[..i], at.value);
      if supplied[at.value].Some? {
        ghost var k :| 0 <= k < i && inputs[k] == supplied[at.value].value;
        assert inputs[k].endpoint == input.endpoint;
        return Some(DuplicateInput(input.endpoint));
      }
      var checked := CheckInput(endpoints[at.value], input);
      if checked.Some? { return checked; }
      forall k | 0 <= k < i ensures inputs[k].endpoint != input.endpoint {
        assert inputs[..i][k] == inputs[k];
      }
      supplied[at.value] := Some(input);
      assert inputs[..i + 1][..i] == inputs[..i];
      i := i + 1;
    }
    assert inputs[..i] == inputs;
    error := None;
  }

  /** `validate_and_build_snapshots`: accepted exactly when the scenario
      supplies every input once, and then in declaration order. */
  method BuildSnapshots(endpoints: seq<Endpoint>, inputs: seq<SimulationInput>) returns (r: Result<seq<InputSnapshot>, SimulationError>)
    ensures r.Ok? <==> Supplies(endpoints, inputs)
    ensures r.Ok? ==> r.value == SuppliedSnapshots(endpoints, inputs, |endpoints|)
  {
    var supplied := new Option<SimulationInput>[|endpoints|](_ => None);
    var error := FillSupplied(endpoints, inputs, supplied);
    if error.Some? { return Err(error.value); }
    var snapshots := [];
    var n := 0;
    while n < |endpoints|
      invariant 0 <= n <= |endpoints| && snapshots == SuppliedSnapshots(endpoints, inputs, n)
      invariant forall e :: 0 <= e < n && endpoints[e].direction == Input ==> SuppliedFor(endpoints, inputs, e).Some?
    {
      if endpoints[n].direction == Input {
        if supplied[n].None? { return Err(MissingInput(endpoints[n].name)); }
        snapshots := snapshots + [SnapshotFrom(endpoints[n], supplied[n].value)];
      }
      n := n + 1;
    }
    r := Ok(snapshots);
  }

  // ----- supplied timers ----------------------------------------------------------------------------

  /** The supplied timers under their names. */
  function TimerMap(timers: seq<PendingTimer>): Timers {
    if timers == [] then map[] else TimerMap(timers[..|timers| - 1])[timers[|timers| - 1].name := timers[|timers| - 1]]
  }

  ghost predicate DistinctTimers(timers: seq<PendingTimer>) {
    forall i, j :: 0 <= i < j < |timers| ==> timers[i].name != timers[j].name
  }

  ghost predicate TimersAccepted(timers: seq<PendingTimer>, revision: LogicRevision, limits: Limits) {
    && DistinctTimers(timers) && |timers| <= limits.maxPendingTimersPerBlock
    && forall i :: 0 <= i < |timers| ==> timers[i].revision == revision
  }

  lemma {:induction false} TimerMapHolds(timers: seq<PendingTimer>, n: TimerName)
    ensures n in TimerMap(timers) <==> exists i :: 0 <= i < |timers| && timers[i].name == n
    ensures n in TimerMap(timers) ==> TimerMap(timers)[n] in timers && TimerMap(timers)[n].name == n
    decreases |timers|
  {
    if timers != [] {
      var front, last := timers[..|timers| - 1], timers[|timers| - 1];
      assert timers == front + [last];
      TimerMapHolds(front, n);
    }
  }

  /** Distinct names lose nothing. */
  lemma {:induction false} TimerMapSize(timers: seq<PendingTimer>)
    requires DistinctTimers(timers)
    ensures |TimerMap(timers)| == |timers|
    decreases |timers|
  {
    if timers != [] {
      var front, last := timers[..|timers| - 1], timers[|timers| - 1];
      TimerMapSize(front);
      TimerMapHolds(front, last.name);
      assert TimerMap(timers).Keys == TimerMap(front).Keys + {last.name};
    }
  }

  method InsertTimers(timers: seq<PendingTimer>) returns (r: Result<Timers, SimulationError>)
    ensures r.Ok? <==> DistinctTimers(timers)
    ensures r.Ok? ==> r.value == TimerMap(timers)
  {
    var collected: Timers := map[];
    var i := 0;
    while i < |timers|
      invariant 0 <= i <= |timers| && collected == TimerMap(timers[..i]) && DistinctTimers(timers[..i])
    {
      TimerMapHolds(timers[..i], timers[i].name);
      if timers[i].name in collected {
        ghost var k :| 0 <= k < i && timers[..i][k].name == timers[i].name;
        assert timers[k].name == timers[i].name;
        return Err(DuplicateTimer(timers[i].name));
      }
      assert timers[..i + 1] == timers[..i] + [timers[i]];
      collected := collected[timers[i].name := timers[i]];
      i := i + 1;
    }
    assert timers[..i] == timers;
    r := Ok(collected);
  }

  method CollectTimers(timers: seq<PendingTimer>, revision: LogicRevision, limits: Limits) returns (r: Result<Timers, SimulationError>)
    ensures r.Ok? <==> TimersAccepted(timers, revision, limits)
    ensures r.Ok? ==> r.value == TimerMap(timers)
  {
    r := InsertTimers(timers);
    if r.Err? { return; }
    TimerMapSize(timers);
    if |r.value| > limits.maxPendingTimersPerBlock {
      return Err(InvalidState(TooManyEntries(|r.value|, limits.maxPendingTimersPerBlock)));
    }
    var i := 0;
    while i < |timers|
      invariant 0 <= i <= |timers| && forall k :: 0 <= k < i ==> timers[k].revision == revision
    {
      if timers[i].revision != revision { return Err(TimerRevisionMismatch(timers[i].name)); }
      i := i + 1;
    }
  }

  // ----- one simulation -----------------------------------------------------------------------------

  /** The first snapshot of an endpoint. */
  function FindSnapshot(snapshots: seq<InputSnapshot>, endpoint: EndpointName): (r: Option<InputSnapshot>)
    ensures r.Some? ==> r.value in snapshots && r.value.endpoint == endpoint
    ensures r.None? ==> forall x :: x in snapshots ==> x.endpoint != endpoint
  {
    if snapshots == [] then None
    else if snapshots[0].endpoint == endpoint then Some(snapshots[0])
    else FindSnapshot(snapshots[1..], endpoint)
  }

  function CheckTrigger(endpoints: seq<Endpoint>, snapshots: seq<InputSnapshot>, trigger: SimulationTrigger): Option<SimulationError> {
    var at := EndpointPosition(endpoints, trigger.endpoint);
    if at.None? then Some(UnknownInput(trigger.endpoint))
    else if endpoints[at.value].direction != Input then Some(NotAnInput(trigger.endpoint))
    else if CheckValue(endpoints[at.value], trigger.value).Some? then CheckValue(endpoints[at.value], trigger.value)
    else if trigger.previous.Some? && CheckValue(endpoints[at.value], trigger.previous.value).Some? then
      CheckValue(endpoints[at.value], trigger.previous.value)
    else
      var supplied := FindSnapshot(snapshots, trigger.endpoint);
      if supplied.None? then Some(MissingInput(trigger.endpoint))
      else if !supplied.value.valid then Some(MissingValue(trigger.endpoint))
      else if supplied.value.value != Some(trigger.value) then Some(TriggerValueMismatch(trigger.endpoint))
      else if supplied.value.age != Some(0) then Some(TriggerAgeMismatch(trigger.endpoint))
      else None
  }

  ghost predicate ScenarioAccepted(host: Host, endpoints: seq<Endpoint>, logic: LogicProgram, scenario: SimulationScenario,
                                   state: State, timers: seq<PendingTimer>)
  {
    && StateWithin(state, host.limits)
    && TimersAccepted(timers, logic.revision, host.limits)
    && Supplies(endpoints, scenario.inputs)
    && CheckTrigger(endpoints, SuppliedSnapshots(endpoints, scenario.inputs, |endpoints|), scenario.trigger).None?
  }

  /** The execution a simulation reports. */
  ghost function Simulated(host: Host, endpoints: seq<Endpoint>, logic: LogicProgram, scenario: SimulationScenario,
                           state: State, timers: seq<PendingTimer>, now: MonotonicMs): Execution
  {
    var snapshots := SuppliedSnapshots(endpoints, scenario.inputs, |endpoints|);
    var trigger := ByInput(MakeInputTrigger(scenario.trigger.endpoint, scenario.trigger.value, scenario.trigger.previous));
    var outcome := ExecuteLogic(host, HandlerCall(endpoints, logic, snapshots, trigger, state, TimerMap(timers), now, Unavailable));
    var merges := outcome.Ok? && StateWithin(state + outcome.value.state, host.limits);
    Execution(None, None, logic.revision, trigger, snapshots, state,
              if merges then state + outcome.value.state else state,
              if outcome.Ok? then ApplyEffects(TimerMap(timers), outcome.value.timers, now, logic.revision) else TimerMap(timers),
              outcome, [], [], Unavailable)
  }

  method SimulateInputWithState(host: Host, endpoints: seq<Endpoint>, logic: LogicProgram, scenario: SimulationScenario,
                                state: State, timers: seq<PendingTimer>, now: MonotonicMs)
    returns (r: Result<Execution, SimulationError>)
    ensures r.Ok? <==> ScenarioAccepted(host, endpoints, logic, scenario, state, timers)
    ensures r.Ok? ==> r.value == Simulated(host, endpoints, logic, scenario, state, timers, now)
  {
    var invalid := ValidateState(state, host.limits);
    if invalid.Some? { return Err(InvalidState(invalid.value)); }
    var collected := CollectTimers(timers, logic.revision, host.limits);
    if collected.Err? { return Err(collected.error); }
    var snapshots := BuildSnapshots(endpoints, scenario.inputs);
    if snapshots.Err? { return Err(snapshots.error); }
    var mismatch := CheckTrigger(endpoints, snapshots.value, scenario.trigger);
    if mismatch.Some? { return Err(mismatch.value); }
    var trigger := ByInput(MakeInputTrigger(scenario.trigger.endpoint, scenario.trigger.value, scenario.trigger.previous));
    var outcome := RunHandler(host, HandlerCall(endpoints, logic, snapshots.value, trigger, state, collected.value, now, Unavailable));
    var stateAfter, timersAfter := state, collected.value;
    if outcome.Ok? {
      var merged := MergeState(state, outcome.value.state, host.limits);
      if merged.Ok? { stateAfter := merged.value; }
      timersAfter := ApplyTimerEffects(collected.value, outcome.value.timers, now, logic.revision);
    }
    r := Ok(Execution(None, None, logic.revision, trigger, snapshots.value, state, stateAfter, timersAfter, outcome, [], [], Unavailable));
  }

  // ----- simulation and live execution agree ----------------------------------------------------------

  /** A list of exactly the timers of a map. */
  ghost predicate Lists(timers: seq<PendingTimer>, m: Timers) {
    && DistinctTimers(timers)
    && (forall t :: t in timers ==> t.name in m && m[t.name] == t)
    && forall n :: n in m ==> m[n] in timers
  }

  lemma ListedTimers(timers: seq<PendingTimer>, m: Timers, revision: LogicRevision)
    requires Lists(timers, m) && TimersOf(m, revision)
    ensures TimerMap(timers) == m && |timers| == |m|
    ensures forall i :: 0 <= i < |timers| ==> timers[i].revision == revision
  {
    TimerMapSize(timers);
    forall n ensures (n in m <==> n in TimerMap(timers)) && (n in m ==> TimerMap(timers)[n] == m[n]) {
      TimerMapHolds(timers, n);
      if n in m {
        var i :| 0 <= i < |timers| && timers[i] == m[n];
        assert timers[i].name == n;
      }
    }
    assert TimerMap(timers) == m;
    forall i | 0 <= i < |timers| ensures timers[i].revision == revision {
      assert timers[i] in timers;
    }
  }

  function InputFrom(snapshot: InputSnapshot): SimulationInput {
    SimulationInput(snapshot.endpoint, snapshot.value, snapshot.valid, snapshot.age)
  }

  /** The live inputs of the first `n` endpoints, as a scenario lists them. */
  function LiveInputs(endpoints: seq<Endpoint>, inputs: seq<InputState>, now: MonotonicMs, n: nat): seq<SimulationInput>
    requires |inputs| == |endpoints| && n <= |endpoints|
  {
    if n == 0 then []
    else
      LiveInputs(endpoints, inputs, now, n - 1)
      + if endpoints[n - 1].direction == Input then [InputFrom(SnapshotOf(endpoints[n - 1], inputs[n - 1], now))] else []
  }

  ghost predicate LiveInputAt(endpoints: seq<Endpoint>, inputs: seq<InputState>, now: MonotonicMs, n: nat, x: SimulationInput)
    requires |inputs| == |endpoints| && n <= |endpoints|
  {
    exists e :: 0 <= e < n && endpoints[e].direction == Input && x == InputFrom(SnapshotOf(endpoints[e], inputs[e], now))
  }

  lemma {:induction false} LiveInputsListed(endpoints: seq<Endpoint>, inputs: seq<InputState>, now: MonotonicMs, n: nat)
    requires |inputs| == |endpoints| && n <= |endpoints| && DistinctEndpoints(endpoints)
    ensures forall x :: x in LiveInputs(endpoints, inputs, now, n) <==> LiveInputAt(endpoints, inputs, now, n, x)
    ensures DistinctInputs(LiveInputs(endpoints, inputs, now, n))
  {
    if n > 0 {
      LiveInputsListed(endpoints, inputs, now, n - 1);
      var before, live := LiveInputs(endpoints, inputs, now, n - 1), LiveInputs(endpoints, inputs, now, n);
      forall i | 0 <= i < |before| ensures before[i].endpoint != endpoints[n - 1].name {
        assert before[i] in before;
      }
      forall i, j | 0 <= i < j < |live| ensures live[i].endpoint != live[j].endpoint {
        assert live[i] == before[i];
        if j < |before| {
          assert live[j] == before[j];
        } else {
          assert live == before + [InputFrom(SnapshotOf(endpoints[n - 1], inputs[n - 1], now))];
          assert live[j].endpoint == endpoints[n - 1].name;
        }
      }
      forall x ensures LiveInputAt(endpoints, inputs, now, n, x)
                  <==> LiveInputAt(endpoints, inputs, now, n - 1, x)
                       || (endpoints[n - 1].direction == Input && x == InputFrom(SnapshotOf(endpoints[n - 1], inputs[n - 1], now)))
      {
        if LiveInputAt(endpoints, inputs, now, n - 1, x) {
          var e :| 0 <= e < n - 1 && endpoints[e].direction == Input && x == InputFrom(SnapshotOf(endpoints[e], inputs[e], now));
          assert e < n;
        }
      }
    }
  }

  lemma EndpointAt(endpoints: seq<Endpoint>, e: nat)
    requires DistinctEndpoints(endpoints) && e < |endpoints|
    ensures EndpointPosition(endpoints, endpoints[e].name) == Some(e)
  {
  }

  lemma SuppliedLive(endpoints: seq<Endpoint>, inputs: seq<InputState>, now: MonotonicMs, e: nat)
    requires |inputs| == |endpoints| && DistinctEndpoints(endpoints) && e < |endpoints| && endpoints[e].direction == Input
    ensures SuppliedFor(endpoints, LiveInputs(endpoints, inputs, now, |endpoints|), e) == Some(InputFrom(SnapshotOf(endpoints[e], inputs[e], now)))
  {
    var live := LiveInputs(endpoints, inputs, now, |endpoints|);
    LiveInputsListed(endpoints, inputs, now, |endpoints|);
    SuppliedByOne(endpoints, live, e);
    EndpointAt(endpoints, e);
    var mine := InputFrom(SnapshotOf(endpoints[e], inputs[e], now));
    assert LiveInputAt(endpoints, inputs, now, |endpoints|, mine) && mine in live;
    var i :| 0 <= i < |live| && live[i] == mine;
    var found := SuppliedFor(endpoints, live, e).value;
    var k :| 0 <= k < |live| && live[k] == found;
    assert live[k].endpoint == live[i].endpoint;
  }

  lemma {:induction false} LiveSnapshots(endpoints: seq<Endpoint>, inputs: seq<InputState>, now: MonotonicMs, n: nat)
    requires |inputs| == |endpoints| && DistinctEndpoints(endpoints) && n <= |endpoints|
    ensures SuppliedSnapshots(endpoints, LiveInputs(endpoints, inputs, now, |endpoints|), n) == Snapshots(endpoints, inputs, now, n)
  {
    if n > 0 {
      LiveSnapshots(endpoints, inputs, now, n - 1);
      if endpoints[n - 1].direction == Input { SuppliedLive(endpoints, inputs, now, n - 1); }
    }
  }

  /** Well-kept inputs always form a scenario. */
  lemma LiveInputsSupply(endpoints: seq<Endpoint>, inputs: seq<InputState>, now: MonotonicMs)
    requires DistinctEndpoints(endpoints) && InputsOk(endpoints, inputs, Some(now))
    ensures Supplies(endpoints, LiveInputs(endpoints, inputs, now, |endpoints|))
  {
    var live := LiveInputs(endpoints, inputs, now, |endpoints|);
    LiveInputsListed(endpoints, inputs, now, |endpoints|);
    forall i | 0 <= i < |live| ensures InputAccepted(endpoints, live[i]) {
      assert live[i] in live;
      var e :| 0 <= e < |endpoints| && endpoints[e].direction == Input && live[i] == InputFrom(SnapshotOf(endpoints[e], inputs[e], now));
      EndpointAt(endpoints, e);
    }
    forall e | 0 <= e < |endpoints| && endpoints[e].direction == Input ensures SuppliedFor(endpoints, live, e).Some? {
      SuppliedLive(endpoints, inputs, now, e);
    }
  }

  lemma {:induction false} SnapshotFound(endpoints: seq<Endpoint>, inputs: seq<InputState>, now: MonotonicMs, n: nat, e: nat)
    requires |inputs| == |endpoints| && DistinctEndpoints(endpoints) && n <= |endpoints| && e < n && endpoints[e].direction == Input
    ensures SnapshotOf(endpoints[e], inputs[e], now) in Snapshots(endpoints, inputs, now, n)
    ensures forall x :: x in Snapshots(endpoints, inputs, now, n) && x.endpoint == endpoints[e].name ==> x == SnapshotOf(endpoints[e], inputs[e], now)
  {
    if e < n - 1 {
      SnapshotFound(endpoints, inputs, now, n - 1, e);
    } else {
      NoLaterSnapshot(endpoints, inputs, now, n - 1, e);
    }
  }

  lemma {:induction false} NoLaterSnapshot(endpoints: seq<Endpoint>, inputs: seq<InputState>, now: MonotonicMs, n: nat, e: nat)
    requires |inputs| == |endpoints| && DistinctEndpoints(endpoints) && n <= e < |endpoints|
    ensures forall x :: x in Snapshots(endpoints, inputs, now, n) ==> x.endpoint != endpoints[e].name
  {
    if n > 0 { NoLaterSnapshot(endpoints, inputs, now, n - 1, e); }
  }

  /** The scenario of a live engine about to take a triggering value. */
  function LiveScenario(endpoints: seq<Endpoint>, e: EngineState, at: nat, value: TypedValue, now: MonotonicMs): SimulationScenario
    requires |e.inputs| == |endpoints| && at < |endpoints|
  {
    var stored := e.inputs[at := InputState(Some(value), Some(now))];
    SimulationScenario(LiveInputs(endpoints, stored, now, |endpoints|), SimulationTrigger(endpoints[at].name, value, e.inputs[at].value))
  }

  /** For every reachable engine and every valid trigger, simulating the live
      snapshot is accepted and reports the execution the live engine performs,
      with the state and timers it commits. */
  lemma SimulationIsLive(host: Host, endpoints: seq<Endpoint>, e: EngineState, name: EndpointName, value: TypedValue,
                         timers: seq<PendingTimer>, now: MonotonicMs)
    requires EngineInv(host.limits, endpoints, e) && DistinctEndpoints(endpoints) && NotAfter(e.lastAcceptedAt, Some(now))
    requires ValidateInput(endpoints, name, value).Ok? && Lists(timers, e.timers)
    ensures var at := ValidateInput(endpoints, name, value).value;
            var scenario := LiveScenario(endpoints, e, at, value, now);
            var live := ProcessUpdate(host, endpoints, e, name, TriggerWith(value), now, None);
            && ScenarioAccepted(host, endpoints, e.logic, scenario, e.state, timers)
            && live.result == Ok(Some(Simulated(host, endpoints, e.logic, scenario, e.state, timers, now)))
            && live.engine.state == Simulated(host, endpoints, e.logic, scenario, e.state, timers, now).stateAfter
            && live.engine.timers == Simulated(host, endpoints, e.logic, scenario, e.state, timers, now).pendingTimers
  {
    hide ExecuteLogic, SuppliedSnapshots, LiveInputs, Snapshots, StateWithin, Supplies;
    var at := ValidateInput(endpoints, name, value).value;
    var stored := e.inputs[at := InputState(Some(value), Some(now))];
    EndpointAt(endpoints, at);
    assert InputsOk(endpoints, stored, Some(now));
    LiveInputsSupply(endpoints, stored, now);
    LiveSnapshots(endpoints, stored, now, |endpoints|);
    SnapshotFound(endpoints, stored, now, |endpoints|, at);
    ListedTimers(timers, e.timers, e.logic.revision);
    OutcomeMerges(host, endpoints, e, stored, name, value, at, now);
  }

  /** A successful outcome always merges. */
  lemma OutcomeMerges(host: Host, endpoints: seq<Endpoint>, e: EngineState, stored: seq<InputState>, name: EndpointName, value: TypedValue, at: nat, now: MonotonicMs)
    requires EngineInv(host.limits, endpoints, e) && |stored| == |endpoints| && at < |e.inputs|
    ensures var trigger := ByInput(MakeInputTrigger(name, value, e.inputs[at].value));
            var outcome := ExecuteLogic(host, HandlerCall(endpoints, e.logic, Snapshots(endpoints, stored, now, |endpoints|), trigger, e.state, e.timers, now, Unavailable));
            outcome.Ok? ==> StateWithin(e.state + outcome.value.state, host.limits)
  {
    hide Converted, StateWithin;
    var trigger := ByInput(MakeInputTrigger(name, value, e.inputs[at].value));
    var call := HandlerCall(endpoints, e.logic, Snapshots(endpoints, stored, now, |endpoints|), trigger, e.state, e.timers, now, Unavailable);
    var reply := host.handler(call);
    if ExecuteLogic(host, call).Ok? {
      var raw := if reply.values == [] then LuaNil else reply.values[0];
      ConvertedIsCommittable(endpoints, host.naming, raw, e.state, e.timers, now, host.limits, e.logic.revision);
    }
  }

  // ----- simulation predicts what the cascade records ---------------------------------------------------

  /** Effects without the identity of the execution that produced them, which a
      simulation does not have. */
  function Unproduced(effects: seq<SignalEffect>): (r: seq<SignalEffect>)
    ensures |r| == |effects|
  {
    seq(|effects|, i requires 0 <= i < |effects| => effects[i].(producingExecution := None))
  }

  lemma {:induction false} PredictedUnproduced(p: Plan, s: RuntimeState, block: BlockId, outputs: seq<OutputEffect>, i: nat, id: Option<nat>)
    requires |s.signals| == |p.config.signals| && Known(p, block) && i <= |outputs|
    ensures Unproduced(Predicted(p, s, block, outputs, i, id)) == Predicted(p, s, block, outputs, i, None)
    decreases |outputs| - i
  {
    hide Recorded, Unproduced;
    if i == |outputs| {
      UnproducedNothing();
    } else {
      PredictedUnproduced(p, s, block, outputs, i + 1, id);
      UnproducedAppends(Recorded(p, s, block, outputs[i], id), Predicted(p, s, block, outputs, i + 1, id));
      RecordedUnproduced(p, s, block, outputs[i], id);
    }
  }

  lemma UnproducedNothing()
    ensures Unproduced([]) == []
  {
  }

  lemma UnproducedAppends(a: seq<SignalEffect>, b: seq<SignalEffect>)
    ensures Unproduced(a + b) == Unproduced(a) + Unproduced(b)
  {
  }

  lemma RecordedUnproduced(p: Plan, s: RuntimeState, block: BlockId, output: OutputEffect, id: Option<nat>)
    requires |s.signals| == |p.config.signals| && Known(p, block)
    ensures Unproduced(Recorded(p, s, block, output, id)) == Recorded(p, s, block, output, None)
  {
    hide SignalOf, Consumers;
  }

  /** The engine part of an execution: what a simulation can know. */
  function Bare(x: Execution): Execution {
    x.(id := None, causalProducer := None, signalEffects := [], eligibleConsumers := [])
  }

  /** The root a triggering update starts is the simulated execution. */
  lemma RootIsSimulated(p: Plan, s: RuntimeState, c: nat, endpoint: EndpointName, value: TypedValue, timers: seq<PendingTimer>, now: MonotonicMs)
    requires FullInv(p, s) && c < |s.blocks| && DistinctEndpoints(p.config.blocks[c].endpoints) && !Earlier(s, now)
    requires ValidateInput(p.config.blocks[c].endpoints, endpoint, value).Ok? && Lists(timers, s.blocks[c].engine.timers)
    ensures var endpoints, e := p.config.blocks[c].endpoints, s.blocks[c].engine;
            var scenario := LiveScenario(endpoints, e, ValidateInput(endpoints, endpoint, value).value, value, now);
            var root := UpdateBlock(p, s, c, endpoint, TriggerWith(value), now, None);
            && ScenarioAccepted(p.host, endpoints, e.logic, scenario, e.state, timers)
            && root.s.signals == s.signals && root.result.Ok?
            && (root.result.value.Some? ==>
                  && Bare(root.result.value.value.execution) == Simulated(p.host, endpoints, e.logic, scenario, e.state, timers, now)
                  && root.result.value.value.execution.signalEffects == [] && root.result.value.value.execution.eligibleConsumers == [])
  {
    hide ProcessUpdate, Simulated, ScenarioAccepted, EngineInv, WindowOk, SignalOk, StateTotal, TimersTotal, LiveScenario, Lists;
    var limits, endpoints, e := p.host.limits, p.config.blocks[c].endpoints, s.blocks[c].engine;
    ClockAdvances(p, s, now);
    BlockAtInv(p, At(s, now), c);
    SimulationIsLive(p.host, endpoints, e, endpoint, value, timers, now);
    var asked := Runnable(s.blocks[c]);
    var (b, admitted) := if asked then Admit(s.blocks[c], now, limits.maxLiveExecutionsPerBlockPerSecond) else (s.blocks[c], false);
    AdmitKeepsInv(limits, endpoints, s.blocks[c], now);
    SimulatedIsBare(p.host, endpoints, e.logic, LiveScenario(endpoints, e, ValidateInput(endpoints, endpoint, value).value, value, now), e.state, timers, now);
    if !admitted { UpdateKeepsInv(p.host, endpoints, b.engine, endpoint, Observe(value), now, None); }
  }

  lemma SimulatedIsBare(host: Host, endpoints: seq<Endpoint>, logic: LogicProgram, scenario: SimulationScenario, state: State, timers: seq<PendingTimer>, now: MonotonicMs)
    ensures var x := Simulated(host, endpoints, logic, scenario, state, timers, now); Bare(x) == x && x.signalEffects == [] && x.eligibleConsumers == []
  {
  }

  /** The root of a successful cascade keeps its engine part and records the
      effects read off the state it started from. */
  lemma RootRecordsPrediction(p: Plan, rank: BlockId -> nat, checkpoint: RuntimeState, s: RuntimeState, x: BlockExecution, now: MonotonicMs, utc: Option<int>)
    requires SoundPlan(p, rank) && FullInv(p, checkpoint) && Evolves(p, checkpoint, s, now) && ExecOk(p, x) && x.execution.signalEffects == []
    ensures var r := Follow(p, checkpoint, s, x, now, utc);
            r.result.Ok? ==>
              && r.result.value != [] && r.result.value[0].block == x.block
              && Bare(r.result.value[0].execution) == Bare(x.execution)
              && r.result.value[0].execution.signalEffects
                 == if x.execution.outcome.Err? then [] else Predicted(p, s, x.block, x.execution.outcome.value.outputs, 0, x.execution.id)
  {
    hide ValidPlan, Ranks, PropagateOutputs, BlocksOk, SignalsOk, CascadesWithin, UsageError, Forest, Numbered, StillRunnable, Predicted, OutputsTyped;
    RootCompletes(p, rank, checkpoint, s, x, now, utc);
    assert [x][0] == x;
    PropagateOrder(p, s, [x], 0, now, utc);
    if x.execution.outcome.Ok? { OutputsPredicted(p, rank, s, [x], 0, x.execution.outcome.value.outputs, 0, now, utc); }
  }

  /** Simulating the live snapshot of an input predicts the live cascade's
      root: the same execution and, for the same outputs, the same signal
      effects the cascade records while it runs. */
  lemma SimulationPredictsTheCascade(p: Plan, rank: BlockId -> nat, s: RuntimeState, c: nat, endpoint: EndpointName, value: TypedValue,
                                     timers: seq<PendingTimer>, now: MonotonicMs)
    requires SoundPlan(p, rank) && FullInv(p, s) && c < |s.blocks| && Lists(timers, s.blocks[c].engine.timers)
    requires ValidateInput(p.config.blocks[c].endpoints, endpoint, value).Ok? && !Earlier(s, now)
    ensures var endpoints, e, id := p.config.blocks[c].endpoints, s.blocks[c].engine, p.config.blocks[c].id;
            var scenario := LiveScenario(endpoints, e, ValidateInput(endpoints, endpoint, value).value, value, now);
            var sim := Simulated(p.host, endpoints, e.logic, scenario, e.state, timers, now);
            var r := InputEvent(p, s, id, endpoint, TriggerWith(value), now, None);
            && ScenarioAccepted(p.host, endpoints, e.logic, scenario, e.state, timers)
            && (r.result.Ok? && r.result.value != [] ==>
                  && Bare(r.result.value[0].execution) == sim
                  && Unproduced(r.result.value[0].execution.signalEffects)
                     == if sim.outcome.Err? then [] else Predicted(p, s, id, sim.outcome.value.outputs, 0, None))
  {
    hide UpdateBlock, Follow, Simulated, ScenarioAccepted, BlocksOk, SignalsOk, CascadesWithin, Ranks, LiveScenario, Lists, Predicted, ExecutionOk, StateTotal, TimersTotal, BlockAccepted, Evolves;
    var id := p.config.blocks[c].id;
    BlockChecked(p, c);
    assert DistinctEndpoints(p.config.blocks[c].endpoints) by { AcceptedEndpoints(p, c); }
    BlockAt(p, c);
    RootsAreKnown(p, s);
    UpdateRootSafe(p, s, id, endpoint, TriggerWith(value), now, None);
    RootIsSimulated(p, s, c, endpoint, value, timers, now);
    var root := UpdateRoot(p, s, id, endpoint, TriggerWith(value), now, None);
    if root.result.Ok? && root.result.value.Some? {
      var x := root.result.value.value;
      RootRecordsPrediction(p, rank, s, root.s, x, now, None);
      if x.execution.outcome.Ok? {
        var outputs := x.execution.outcome.value.outputs;
        RootNamesItsBlock(p, s, c, endpoint, value, now);
        SameSignalsSamePrediction(p, s, root.s, id, outputs, 0, x.execution.id);
        PredictedUnproduced(p, s, id, outputs, 0, x.execution.id);
      }
    }
  }

  lemma AcceptedEndpoints(p: Plan, c: nat)
    requires ValidPlan(p) && c < |p.config.blocks|
    ensures DistinctEndpoints(p.config.blocks[c].endpoints)
  {
    BlockChecked(p, c);
  }

  lemma RootNamesItsBlock(p: Plan, s: RuntimeState, c: nat, endpoint: EndpointName, value: TypedValue, now: MonotonicMs)
    requires Shaped(p, s) && c < |s.blocks|
    ensures var root := UpdateBlock(p, s, c, endpoint, TriggerWith(value), now, None);
            root.result.Ok? && root.result.value.Some? ==> root.result.value.value.block == p.config.blocks[c].id
  {
    hide ProcessUpdate;
  }

  lemma {:induction false} SameSignalsSamePrediction(p: Plan, s: RuntimeState, t: RuntimeState, block: BlockId, outputs: seq<OutputEffect>, i: nat, id: Option<nat>)
    requires |s.signals| == |p.config.signals| && t.signals == s.signals && Known(p, block) && i <= |outputs|
    ensures Predicted(p, t, block, outputs, i, id) == Predicted(p, s, block, outputs, i, id)
    decreases |outputs| - i
  {
    hide SignalOf, Consumers;
    if i < |outputs| { SameSignalsSamePrediction(p, s, t, block, outputs, i + 1, id); }
  }
}
