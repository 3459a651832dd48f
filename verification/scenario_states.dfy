/** A simulation accepts exactly the scenarios that some engine in good order
    could be in. */
module ScenarioStates {
  import opened Values
  import opened Configuration
  import opened TransientState
  import opened LuaConversion
  import opened Engines
  import opened Simulation
  import opened TimerSimulations

  // ----- inputs ------------------------------------------------------------------------------

  /** The inputs of the scenario are the snapshots of `stored`, in any order. */
  ghost predicate Depicts(endpoints: seq<Endpoint>, inputs: seq<SimulationInput>, stored: seq<InputState>, now: MonotonicMs) {
    && |stored| == |endpoints| && DistinctInputs(inputs)
    && forall x :: x in inputs <==> LiveInputAt(endpoints, stored, now, |endpoints|, x)
  }

  /** No input is older than the scenario's clock. */
  predicate AgesWithin(inputs: seq<SimulationInput>, now: MonotonicMs) {
    forall x :: x in inputs && x.age.Some? ==> x.age.value <= now
  }

  /** What an endpoint must have stored to be shown as supplied. */
  function StoredFrom(input: Option<SimulationInput>, now: MonotonicMs): InputState {
    if input.Some? && input.value.valid && input.value.age.Some? && input.value.age.value <= now
    then InputState(input.value.value, Some(now - input.value.age.value)) else InputState(None, None)
  }

  function AllStored(endpoints: seq<Endpoint>, inputs: seq<SimulationInput>, now: MonotonicMs): (r: seq<InputState>)
    ensures |r| == |endpoints|
  {
    seq(|endpoints|, e requires 0 <= e < |endpoints| =>
      StoredFrom(if endpoints[e].direction == Input then SuppliedFor(endpoints, inputs, e) else None, now))
  }

  lemma {:induction false} SuppliedIs(endpoints: seq<Endpoint>, inputs: seq<SimulationInput>, i: nat)
    requires DistinctInputs(inputs) && i < |inputs| && EndpointPosition(endpoints, inputs[i].endpoint).Some?
    ensures SuppliedFor(endpoints, inputs, EndpointPosition(endpoints, inputs[i].endpoint).value) == Some(inputs[i])
    decreases |inputs|
  {
    var last := |inputs| - 1;
    if i < last {
      SuppliedIs(endpoints, inputs[..last], i);
    }
  }

  /** A well-supplied input is the snapshot of what it makes an endpoint store. */
  lemma StoredShows(endpoint: Endpoint, input: SimulationInput, now: MonotonicMs)
    requires input.endpoint == endpoint.name && CheckInput(endpoint, input).None? && (input.age.Some? ==> input.age.value <= now)
    ensures input == InputFrom(SnapshotOf(endpoint, StoredFrom(Some(input), now), now))
    ensures endpoint.direction == Input ==> InputOk(endpoint, StoredFrom(Some(input), now), Some(now))
  {
  }

  lemma {:induction false} SuppliesDepict(endpoints: seq<Endpoint>, inputs: seq<SimulationInput>, now: MonotonicMs)
    requires Supplies(endpoints, inputs) && AgesWithin(inputs, now)
    ensures Depicts(endpoints, inputs, AllStored(endpoints, inputs, now), now) && InputsOk(endpoints, AllStored(endpoints, inputs, now), Some(now))
  {
    hide CheckInput, StoredFrom, SnapshotOf, InputFrom, SuppliedFor;
    var stored := AllStored(endpoints, inputs, now);
    forall e | 0 <= e < |endpoints| && endpoints[e].direction == Input
      ensures SuppliedFor(endpoints, inputs, e).Some? && SuppliedFor(endpoints, inputs, e).value in inputs
      ensures SuppliedFor(endpoints, inputs, e).value == InputFrom(SnapshotOf(endpoints[e], stored[e], now)) && InputOk(endpoints[e], stored[e], Some(now))
    {
      SuppliedByOne(endpoints, inputs, e);
      StoredShows(endpoints[e], SuppliedFor(endpoints, inputs, e).value, now);
    }
    NothingStored(now);
    forall x | x in inputs ensures LiveInputAt(endpoints, stored, now, |endpoints|, x) {
      var i :| 0 <= i < |inputs| && inputs[i] == x;
      SuppliedIs(endpoints, inputs, i);
      assert InputAccepted(endpoints, inputs[i]);
    }
  }

  lemma NothingStored(now: MonotonicMs)
    ensures StoredFrom(None, now) == InputState(None, None)
  {
  }

  /** A depicted input is the supplied one. */
  lemma {:induction false} DepictedSupplied(endpoints: seq<Endpoint>, inputs: seq<SimulationInput>, stored: seq<InputState>, now: MonotonicMs, e: nat)
    requires DistinctEndpoints(endpoints) && Depicts(endpoints, inputs, stored, now) && e < |endpoints| && endpoints[e].direction == Input
    ensures SuppliedFor(endpoints, inputs, e) == Some(InputFrom(SnapshotOf(endpoints[e], stored[e], now)))
  {
    hide SuppliedFor;
    var x := InputFrom(SnapshotOf(endpoints[e], stored[e], now));
    assert LiveInputAt(endpoints, stored, now, |endpoints|, x);
    var i :| 0 <= i < |inputs| && inputs[i] == x;
    EndpointAt(endpoints, e);
    SuppliedIs(endpoints, inputs, i);
  }

  lemma {:induction false} DepictedSnapshots(endpoints: seq<Endpoint>, inputs: seq<SimulationInput>, stored: seq<InputState>, now: MonotonicMs, n: nat)
    requires DistinctEndpoints(endpoints) && Depicts(endpoints, inputs, stored, now) && n <= |endpoints|
    ensures SuppliedSnapshots(endpoints, inputs, n) == Snapshots(endpoints, stored, now, n)
  {
    if n > 0 {
      DepictedSnapshots(endpoints, inputs, stored, now, n - 1);
      if endpoints[n - 1].direction == Input { DepictedSupplied(endpoints, inputs, stored, now, n - 1); }
    }
  }

  lemma {:induction false} DepictedSupplies(endpoints: seq<Endpoint>, inputs: seq<SimulationInput>, stored: seq<InputState>, now: MonotonicMs)
    requires DistinctEndpoints(endpoints) && Depicts(endpoints, inputs, stored, now) && InputsOk(endpoints, stored, Some(now))
    ensures Supplies(endpoints, inputs)
  {
    forall i | 0 <= i < |inputs| ensures InputAccepted(endpoints, inputs[i]) {
      assert LiveInputAt(endpoints, stored, now, |endpoints|, inputs[i]);
      var e :| 0 <= e < |endpoints| && endpoints[e].direction == Input && inputs[i] == InputFrom(SnapshotOf(endpoints[e], stored[e], now));
      EndpointAt(endpoints, e);
      assert InputOk(endpoints[e], stored[e], Some(now));
    }
    forall e | 0 <= e < |endpoints| && endpoints[e].direction == Input ensures SuppliedFor(endpoints, inputs, e).Some? {
      DepictedSupplied(endpoints, inputs, stored, now, e);
    }
  }

  // ----- timers ------------------------------------------------------------------------------------

  lemma {:induction false} TimersListed(timers: seq<PendingTimer>, revision: LogicRevision, limits: Limits)
    requires TimersAccepted(timers, revision, limits)
    ensures Lists(timers, TimerMap(timers)) && TimersOf(TimerMap(timers), revision) && |TimerMap(timers)| <= limits.maxPendingTimersPerBlock
  {
    hide TimerMap;
    TimerMapSize(timers);
    forall n ensures n in TimerMap(timers) <==> exists i :: 0 <= i < |timers| && timers[i].name == n
             ensures n in TimerMap(timers) ==> TimerMap(timers)[n] in timers && TimerMap(timers)[n].name == n {
      TimerMapHolds(timers, n);
    }
    forall t | t in timers ensures t.name in TimerMap(timers) && TimerMap(timers)[t.name] == t {
      var i :| 0 <= i < |timers| && timers[i] == t;
      assert timers[i].name == t.name;
    }
  }

  // ----- scenarios ---------------------------------------------------------------------------------------

  /** The engine that a scenario says it is a snapshot of. */
  ghost predicate Holds(host: Host, endpoints: seq<Endpoint>, logic: LogicProgram, state: State, timers: seq<PendingTimer>, now: MonotonicMs, e: EngineState) {
    && EngineInv(host.limits, endpoints, e) && NotAfter(e.lastAcceptedAt, Some(now))
    && e.logic == logic && e.state == state && Lists(timers, e.timers)
  }

  /** The scenario is what engine `e` shows as `value` reaches its input `at`. */
  ghost predicate IsInputSnapshot(host: Host, endpoints: seq<Endpoint>, logic: LogicProgram, scenario: SimulationScenario, state: State,
                                  timers: seq<PendingTimer>, now: MonotonicMs, e: EngineState, at: nat)
  {
    && Holds(host, endpoints, logic, state, timers, now, e) && at < |endpoints|
    && ValidateInput(endpoints, endpoints[at].name, scenario.trigger.value) == Ok(at)
    && scenario.trigger == SimulationTrigger(endpoints[at].name, scenario.trigger.value, e.inputs[at].value)
    && Depicts(endpoints, scenario.inputs, e.inputs[at := InputState(Some(scenario.trigger.value), Some(now))], now)
  }

  /** An engine's snapshot is accepted, and its simulation is what the engine
      does. */
  lemma {:induction false} SnapshotAccepted(host: Host, endpoints: seq<Endpoint>, logic: LogicProgram, scenario: SimulationScenario, state: State,
                                            timers: seq<PendingTimer>, now: MonotonicMs, e: EngineState, at: nat)
    requires DistinctEndpoints(endpoints) && IsInputSnapshot(host, endpoints, logic, scenario, state, timers, now, e, at)
    ensures ScenarioAccepted(host, endpoints, logic, scenario, state, timers)
    ensures ProcessUpdate(host, endpoints, e, endpoints[at].name, TriggerWith(scenario.trigger.value), now, None).result
         == Ok(Some(Simulated(host, endpoints, logic, scenario, state, timers, now)))
  {
    hide ExecuteLogic, SuppliedSnapshots, LiveInputs, Snapshots, StateWithin, Supplies, Depicts;
    var value := scenario.trigger.value;
    var stored := e.inputs[at := InputState(Some(value), Some(now))];
    assert InputsOk(endpoints, stored, Some(now));
    DepictedSupplies(endpoints, scenario.inputs, stored, now);
    DepictedSnapshots(endpoints, scenario.inputs, stored, now, |endpoints|);
    SnapshotFound(endpoints, stored, now, |endpoints|, at);
    ListedTimers(timers, e.timers, logic.revision);
    OutcomeMerges(host, endpoints, e, stored, endpoints[at].name, value, at, now);
    EndpointAt(endpoints, at);
  }

  /** The engine state behind an accepted scenario. */
  ghost function EngineOf(endpoints: seq<Endpoint>, logic: LogicProgram, scenario: SimulationScenario, state: State, timers: seq<PendingTimer>, now: MonotonicMs): EngineState {
    var stored, at, previous := AllStored(endpoints, scenario.inputs, now), EndpointPosition(endpoints, scenario.trigger.endpoint), scenario.trigger.previous;
    EngineState(logic, if at.None? then stored else stored[at.value := InputState(previous, if previous.None? then None else Some(now))],
                state, TimerMap(timers), Some(now))
  }

  lemma {:induction false} AcceptedIsSnapshot(host: Host, endpoints: seq<Endpoint>, logic: LogicProgram, scenario: SimulationScenario, state: State,
                                              timers: seq<PendingTimer>, now: MonotonicMs)
    requires DistinctEndpoints(endpoints) && ScenarioAccepted(host, endpoints, logic, scenario, state, timers) && AgesWithin(scenario.inputs, now)
    ensures EndpointPosition(endpoints, scenario.trigger.endpoint).Some?
    ensures IsInputSnapshot(host, endpoints, logic, scenario, state, timers, now, EngineOf(endpoints, logic, scenario, state, timers, now),
                            EndpointPosition(endpoints, scenario.trigger.endpoint).value)
  {
    hide SuppliedSnapshots, StateWithin, Supplies, Depicts, TimerMap, AllStored, FindSnapshot, Snapshots;
    var at := EndpointPosition(endpoints, scenario.trigger.endpoint).value;
    var stored := AllStored(endpoints, scenario.inputs, now);
    SuppliesDepict(endpoints, scenario.inputs, now);
    TimersListed(timers, logic.revision, host.limits);
    DepictedSnapshots(endpoints, scenario.inputs, stored, now, |endpoints|);
    StoredTrigger(endpoints, scenario, stored, now, at);
    var e := EngineOf(endpoints, logic, scenario, state, timers, now);
    assert e.inputs[at := InputState(Some(scenario.trigger.value), Some(now))] == stored;
  }

  /** The triggering value is stored just now. */
  lemma {:induction false} StoredTrigger(endpoints: seq<Endpoint>, scenario: SimulationScenario, stored: seq<InputState>, now: MonotonicMs, at: nat)
    requires DistinctEndpoints(endpoints) && |stored| == |endpoints| && InputsOk(endpoints, stored, Some(now))
    requires EndpointPosition(endpoints, scenario.trigger.endpoint) == Some(at) && CheckTrigger(endpoints, Snapshots(endpoints, stored, now, |endpoints|), scenario.trigger).None?
    ensures stored[at] == InputState(Some(scenario.trigger.value), Some(now))
  {
    hide Snapshots, FindSnapshot;
    SnapshotFound(endpoints, stored, now, |endpoints|, at);
    assert InputOk(endpoints[at], stored[at], Some(now));
  }

  /** For every scenario whose inputs are no older than its clock: it is accepted
      exactly if it is the snapshot of an engine in good order. */
  lemma {:induction false} AcceptedExactlySnapshots(host: Host, endpoints: seq<Endpoint>, logic: LogicProgram, scenario: SimulationScenario, state: State,
                                                    timers: seq<PendingTimer>, now: MonotonicMs)
    requires DistinctEndpoints(endpoints) && AgesWithin(scenario.inputs, now)
    ensures ScenarioAccepted(host, endpoints, logic, scenario, state, timers)
       <==> exists e, at: nat :: IsInputSnapshot(host, endpoints, logic, scenario, state, timers, now, e, at)
  {
    hide ScenarioAccepted, IsInputSnapshot;
    if ScenarioAccepted(host, endpoints, logic, scenario, state, timers) {
      AcceptedIsSnapshot(host, endpoints, logic, scenario, state, timers, now);
    }
    if e, at: nat :| IsInputSnapshot(host, endpoints, logic, scenario, state, timers, now, e, at) {
      SnapshotAccepted(host, endpoints, logic, scenario, state, timers, now, e, at);
    }
  }

  /** The timer scenario is what engine `e` shows as its timer fires. */
  ghost predicate IsTimerSnapshot(host: Host, endpoints: seq<Endpoint>, logic: LogicProgram, scenario: TimerScenario, e: EngineState) {
    && Holds(host, endpoints, logic, scenario.state, scenario.timers, scenario.firedAt, e)
    && scenario.timer in e.timers && Depicts(endpoints, scenario.inputs, e.inputs, scenario.firedAt)
  }

  lemma {:induction false} TimerAcceptedExactlySnapshots(host: Host, endpoints: seq<Endpoint>, logic: LogicProgram, scenario: TimerScenario)
    requires DistinctEndpoints(endpoints) && AgesWithin(scenario.inputs, scenario.firedAt)
    ensures TimerScenarioAccepted(host, endpoints, logic, scenario) <==> exists e :: IsTimerSnapshot(host, endpoints, logic, scenario, e)
  {
    hide StateWithin, Supplies, Depicts, TimerMap, AllStored;
    if TimerScenarioAccepted(host, endpoints, logic, scenario) {
      SuppliesDepict(endpoints, scenario.inputs, scenario.firedAt);
      TimersListed(scenario.timers, logic.revision, host.limits);
      var e := EngineState(logic, AllStored(endpoints, scenario.inputs, scenario.firedAt), scenario.state, TimerMap(scenario.timers), Some(scenario.firedAt));
      assert IsTimerSnapshot(host, endpoints, logic, scenario, e);
    }
    if e :| IsTimerSnapshot(host, endpoints, logic, scenario, e) {
      InputsLater(endpoints, e, scenario.firedAt);
      DepictedSupplies(endpoints, scenario.inputs, e.inputs, scenario.firedAt);
      ListedTimers(scenario.timers, e.timers, logic.revision);
    }
  }

  lemma InputsLater(endpoints: seq<Endpoint>, e: EngineState, now: MonotonicMs)
    requires InputsOk(endpoints, e.inputs, e.lastAcceptedAt) && NotAfter(e.lastAcceptedAt, Some(now))
    ensures InputsOk(endpoints, e.inputs, Some(now))
  {
    forall i | 0 <= i < |e.inputs| ensures InputOk(endpoints[i], e.inputs[i], Some(now)) {
      assert InputOk(endpoints[i], e.inputs[i], e.lastAcceptedAt);
    }
  }
}
