/** Simulating one timer on copied state, and how it relates to the live firing
    of the same timer. */
module TimerSimulations {
  import opened Values
  import opened Configuration
  import opened TransientState
  import opened LuaConversion
  import opened Engines
  import opened Simulation

  datatype TimerScenario = TimerScenario(timer: TimerName, firedAt: MonotonicMs, inputs: seq<SimulationInput>, state: State, timers: seq<PendingTimer>)

  ghost predicate TimerScenarioAccepted(host: Host, endpoints: seq<Endpoint>, logic: LogicProgram, scenario: TimerScenario) {
    && StateWithin(scenario.state, host.limits)
    && TimersAccepted(scenario.timers, logic.revision, host.limits)
    && scenario.timer in TimerMap(scenario.timers)
    && Supplies(endpoints, scenario.inputs)
  }

  function TimerFired(timer: PendingTimer, firedAt: MonotonicMs): Trigger {
    ByTimer(TimerTrigger(timer.name, timer.scheduledAt, timer.dueAt, firedAt, timer.revision))
  }

  /** The execution a timer simulation reports: the handler no longer sees the
      timer that fired. */
  ghost function TimerSimulated(host: Host, endpoints: seq<Endpoint>, logic: LogicProgram, scenario: TimerScenario): Execution
    requires scenario.timer in TimerMap(scenario.timers)
  {
    var timer, others := TimerMap(scenario.timers)[scenario.timer], TimerMap(scenario.timers) - {scenario.timer};
    var snapshots, trigger := SuppliedSnapshots(endpoints, scenario.inputs, |endpoints|), TimerFired(timer, scenario.firedAt);
    var outcome := ExecuteLogic(host, HandlerCall(endpoints, logic, snapshots, trigger, scenario.state, others, scenario.firedAt, Unavailable));
    var merges := outcome.Ok? && StateWithin(scenario.state + outcome.value.state, host.limits);
    Execution(None, None, logic.revision, trigger, snapshots, scenario.state,
              if merges then scenario.state + outcome.value.state else scenario.state,
              if outcome.Ok? then ApplyEffects(others, outcome.value.timers, scenario.firedAt, logic.revision) else others,
              outcome, [], [], Unavailable)
  }

  method SimulateTimer(host: Host, endpoints: seq<Endpoint>, logic: LogicProgram, scenario: TimerScenario) returns (r: Result<Execution, SimulationError>)
    ensures r.Ok? <==> TimerScenarioAccepted(host, endpoints, logic, scenario)
    ensures r.Ok? ==> r.value == TimerSimulated(host, endpoints, logic, scenario)
  {
    var invalid := ValidateState(scenario.state, host.limits);
    if invalid.Some? { return Err(InvalidState(invalid.value)); }
    var collected := CollectTimers(scenario.timers, logic.revision, host.limits);
    if collected.Err? { return Err(collected.error); }
    if scenario.timer !in collected.value { return Err(UnknownTimer(scenario.timer)); }
    TimerMapHolds(scenario.timers, scenario.timer);
    var timer, others := collected.value[scenario.timer], collected.value - {scenario.timer};
    var snapshots := BuildSnapshots(endpoints, scenario.inputs);
    if snapshots.Err? { return Err(snapshots.error); }
    var trigger := TimerFired(timer, scenario.firedAt);
    var outcome := RunHandler(host, HandlerCall(endpoints, logic, snapshots.value, trigger, scenario.state, others, scenario.firedAt, Unavailable));
    var stateAfter, timersAfter := scenario.state, others;
    if outcome.Ok? {
      var merged := MergeState(scenario.state, outcome.value.state, host.limits);
      if merged.Ok? { stateAfter := merged.value; }
      timersAfter := ApplyTimerEffects(others, outcome.value.timers, scenario.firedAt, logic.revision);
    }
    r := Ok(Execution(None, None, logic.revision, trigger, snapshots.value, scenario.state, stateAfter, timersAfter, outcome, [], [], Unavailable));
  }

  /** The scenario of a live engine whose timer `n` fires now. */
  function LiveTimerScenario(endpoints: seq<Endpoint>, e: EngineState, n: TimerName, timers: seq<PendingTimer>, now: MonotonicMs): TimerScenario
    requires |e.inputs| == |endpoints|
  {
    TimerScenario(n, now, LiveInputs(endpoints, e.inputs, now, |endpoints|), e.state, timers)
  }

  /** For every reachable engine with a due timer, simulating the one that fires
      next on the live snapshot is accepted and reports the execution the live
      engine performs, with the state and timers it commits. */
  lemma TimerSimulationIsLive(host: Host, endpoints: seq<Endpoint>, e: EngineState, timers: seq<PendingTimer>, now: MonotonicMs)
    requires EngineInv(host.limits, endpoints, e) && DistinctEndpoints(endpoints) && NotAfter(e.lastAcceptedAt, Some(now))
    requires NextDue(e.timers, now).Some? && Lists(timers, e.timers)
    ensures var scenario := LiveTimerScenario(endpoints, e, NextDue(e.timers, now).value, timers, now);
            var live := ProcessTimer(host, endpoints, e, now, None);
            && TimerScenarioAccepted(host, endpoints, e.logic, scenario)
            && live.result == Ok(Some(TimerSimulated(host, endpoints, e.logic, scenario)))
            && live.engine.state == TimerSimulated(host, endpoints, e.logic, scenario).stateAfter
            && live.engine.timers == TimerSimulated(host, endpoints, e.logic, scenario).pendingTimers
  {
    hide ExecuteLogic, SuppliedSnapshots, LiveInputs, Snapshots, StateWithin, Supplies;
    LiveInputsSupply(endpoints, e.inputs, now);
    LiveSnapshots(endpoints, e.inputs, now, |endpoints|);
    ListedTimers(timers, e.timers, e.logic.revision);
    FiredMerges(host, endpoints, e, NextDue(e.timers, now).value, now);
  }

  /** A successful outcome always merges. */
  lemma FiredMerges(host: Host, endpoints: seq<Endpoint>, e: EngineState, n: TimerName, now: MonotonicMs)
    requires EngineInv(host.limits, endpoints, e) && n in e.timers
    ensures var outcome := ExecuteLogic(host, HandlerCall(endpoints, e.logic, Snapshots(endpoints, e.inputs, now, |endpoints|),
                                                          TimerFired(e.timers[n], now), e.state, e.timers - {n}, now, Unavailable));
            outcome.Ok? ==> StateWithin(e.state + outcome.value.state, host.limits)
  {
    hide Converted, StateWithin;
    var call := HandlerCall(endpoints, e.logic, Snapshots(endpoints, e.inputs, now, |endpoints|),
                            TimerFired(e.timers[n], now), e.state, e.timers - {n}, now, Unavailable);
    var reply := host.handler(call);
    if ExecuteLogic(host, call).Ok? {
      var raw := if reply.values == [] then LuaNil else reply.values[0];
      assert (e.timers - {n}).Keys <= e.timers.Keys;
      SubsetSize((e.timers - {n}).Keys, e.timers.Keys);
      ConvertedIsCommittable(endpoints, host.naming, raw, e.state, e.timers - {n}, now, host.limits, e.logic.revision);
    }
  }
}
