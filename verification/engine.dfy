/** The event-to-handler-to-effect engine of one block. */
module Engines {
  import opened Values
  import opened TransientState
  import opened LuaConversion

  datatype LogicErrorKind =
    | Syntax | Load | RuntimeFailure | InstructionLimit | MemoryLimit | HandlerTimeLimit | InvalidResult

  /** The wall-clock context a handler sees; without an instant it is
      unavailable whatever the site. */
  datatype TimeContext = Unavailable | Captured(utc: int)

  datatype InputState = InputState(value: Option<TypedValue>, observedAt: Option<MonotonicMs>)
  datatype InputSnapshot = InputSnapshot(endpoint: EndpointName, dpt: Dpt, value: Option<TypedValue>, valid: bool, age: Option<nat>)

  datatype InputTrigger = InputTrigger(endpoint: EndpointName, value: TypedValue, previous: Option<TypedValue>,
                                       changed: bool, rising: bool, falling: bool)
  datatype TimerTrigger = TimerTrigger(name: TimerName, scheduledAt: MonotonicMs, dueAt: MonotonicMs,
                                       firedAt: MonotonicMs, revision: LogicRevision)
  datatype ScheduleTrigger = ScheduleTrigger(block: BlockId, name: ScheduleName, scheduledFor: int, detectedAt: int,
                                             coalesced: nat, structuralRevision: nat)
  datatype Trigger = ByInput(input: InputTrigger) | ByTimer(timer: TimerTrigger) | BySchedule(schedule: ScheduleTrigger)

  /** Everything one handler call depends on: it runs in a fresh interpreter. */
  datatype HandlerCall = HandlerCall(endpoints: seq<Endpoint>, logic: LogicProgram, inputs: seq<InputSnapshot>,
                                     trigger: Trigger, state: State, timers: Timers, now: MonotonicMs, time: TimeContext)
  datatype HandlerReply = Raised(kind: LogicErrorKind) | Returned(values: seq<Lua>)

  /** What surrounds an engine. The handler is any function of its call. */
  datatype Host = Host(limits: Limits, naming: Naming, handler: HandlerCall -> HandlerReply)

  datatype SignalEffect = SignalEffect(signal: SignalName, value: TypedValue, changed: bool, producer: EndpointRef,
                                       producingExecution: Option<nat>, consumers: seq<EndpointRef>)

  datatype Execution = Execution(
    id: Option<nat>,
    causalProducer: Option<nat>,
    revision: LogicRevision,
    trigger: Trigger,
    inputs: seq<InputSnapshot>,
    stateBefore: State,
    stateAfter: State,
    pendingTimers: Timers,
    outcome: Result<Transition, LogicErrorKind>,
    signalEffects: seq<SignalEffect>,
    eligibleConsumers: seq<EndpointRef>,
    time: TimeContext)

  datatype InputUpdate = Observe(value: TypedValue) | TriggerWith(value: TypedValue) | Invalidate

  datatype EventError =
    | UnknownEndpoint(endpoint: EndpointName)
    | EndpointNotInput(endpoint: EndpointName)
    | DptMismatch(endpoint: EndpointName, expected: Dpt, actual: Dpt)
    | EngineTimeWentBackwards(previous: MonotonicMs, current: MonotonicMs)
    | StaleTimer(timer: TimerName)

  /** The mutable part of an engine. */
  datatype EngineState = EngineState(
    logic: LogicProgram,
    inputs: seq<InputState>,
    state: State,
    timers: Timers,
    lastAcceptedAt: Option<MonotonicMs>)

  datatype EngineStep = EngineStep(engine: EngineState, result: Result<Option<Execution>, EventError>)

  // ----- pure parts ---------------------------------------------------------------

  function Capture(utc: Option<int>): TimeContext {
    if utc.None? then Unavailable else Captured(utc.value)
  }

  function ValidateEndpoint(endpoints: seq<Endpoint>, name: EndpointName): (r: Result<nat, EventError>)
    ensures r.Ok? ==> r.value < |endpoints|
  {
    var at := EndpointPosition(endpoints, name);
    if at.None? then Err(UnknownEndpoint(name))
    else if endpoints[at.value].direction != Input then Err(EndpointNotInput(name))
    else Ok(at.value)
  }

  function ValidateInput(endpoints: seq<Endpoint>, name: EndpointName, value: TypedValue): (r: Result<nat, EventError>)
    ensures r.Ok? ==> r.value < |endpoints|
  {
    var at := ValidateEndpoint(endpoints, name);
    if at.Err? then at
    else if endpoints[at.value].dpt != value.GetDpt() then Err(DptMismatch(name, endpoints[at.value].dpt, value.GetDpt()))
    else at
  }

  function ValidateUpdate(endpoints: seq<Endpoint>, name: EndpointName, update: InputUpdate): (r: Result<nat, EventError>)
    ensures r.Ok? ==> r.value < |endpoints|
  {
    match update
    case Observe(value) => ValidateInput(endpoints, name, value)
    case TriggerWith(value) => ValidateInput(endpoints, name, value)
    case Invalidate => ValidateEndpoint(endpoints, name)
  }

  function MakeInputTrigger(name: EndpointName, value: TypedValue, previous: Option<TypedValue>): InputTrigger {
    InputTrigger(name, value, previous,
                 previous.Some? && previous.value != value,
                 previous == Some(BoolValue(false)) && value == BoolValue(true),
                 previous == Some(BoolValue(true)) && value == BoolValue(false))
  }

  function SnapshotOf(endpoint: Endpoint, input: InputState, now: MonotonicMs): InputSnapshot {
    var age := if input.observedAt.None? then None
               else if now >= input.observedAt.value then Some(now - input.observedAt.value) else Some(0);
    InputSnapshot(endpoint.name, endpoint.dpt, input.value, input.value.Some? && input.observedAt.Some?, age)
  }

  /** Input snapshots in declaration order. */
  function Snapshots(endpoints: seq<Endpoint>, inputs: seq<InputState>, now: MonotonicMs, n: nat): seq<InputSnapshot>
    requires |inputs| == |endpoints| && n <= |endpoints|
  {
    if n == 0 then []
    else
      Snapshots(endpoints, inputs, now, n - 1)
      + if endpoints[n - 1].direction == Input then [SnapshotOf(endpoints[n - 1], inputs[n - 1], now)] else []
  }

  /** The flags of a trigger tell a change from a repetition, and for booleans
      which way it went. */
  lemma TriggerFlags(name: EndpointName, value: TypedValue, previous: Option<TypedValue>)
    ensures var t := MakeInputTrigger(name, value, previous);
            && (t.changed <==> previous.Some? && previous.value != value)
            && !(t.rising && t.falling) && (t.rising || t.falling ==> t.changed)
            && (value.BoolValue? && previous.Some? && previous.value.BoolValue? && t.changed ==> t.rising == value.on && t.falling == !value.on)
            && (!value.BoolValue? || previous.None? ==> !t.rising && !t.falling)
  {
  }

  /** A snapshot of a well-kept input is valid exactly when a value is known,
      and its age reaches back to the observation. */
  lemma {:induction false} SnapshotsAge(endpoints: seq<Endpoint>, inputs: seq<InputState>, last: Option<MonotonicMs>, now: MonotonicMs, n: nat)
    requires InputsOk(endpoints, inputs, last) && NotAfter(last, Some(now)) && n <= |endpoints|
    ensures forall x :: x in Snapshots(endpoints, inputs, now, n) ==>
              exists i :: 0 <= i < n && endpoints[i].direction == Input && x.endpoint == endpoints[i].name && x.dpt == endpoints[i].dpt
                          && x.value == inputs[i].value && (x.valid <==> x.value.Some?) && (x.valid <==> x.age.Some?)
                          && (x.valid ==> x.value.value.GetDpt() == x.dpt && x.age.value + inputs[i].observedAt.value == now)
  {
    if n > 0 {
      SnapshotsAge(endpoints, inputs, last, now, n - 1);
      assert InputOk(endpoints[n - 1], inputs[n - 1], last);
    }
  }

  // ----- one handler call -----------------------------------------------------------

  ghost function ExecuteLogic(host: Host, call: HandlerCall): Result<Transition, LogicErrorKind> {
    match host.handler(call)
    case Raised(kind) => Err(kind)
    case Returned(values) =>
      if |values| > 1 then Err(InvalidResult)
      else
        var t := Converted(call.endpoints, host.naming, if values == [] then LuaNil else values[0],
                           call.state, call.timers, call.now, host.limits);
        if t.None? then Err(InvalidResult) else Ok(t.value)
  }

  /** Runs the handler against the engine and commits an accepted transition. */
  ghost function Evaluate(host: Host, endpoints: seq<Endpoint>, e: EngineState, trigger: Trigger,
                          now: MonotonicMs, utc: Option<int>): (EngineState, Execution)
    requires |e.inputs| == |endpoints|
  {
    var inputs := Snapshots(endpoints, e.inputs, now, |endpoints|);
    var outcome := ExecuteLogic(host, HandlerCall(endpoints, e.logic, inputs, trigger, e.state, e.timers, now, Capture(utc)));
    var after :=
      if outcome.Ok? then
        e.(state := e.state + outcome.value.state,
           timers := ApplyEffects(e.timers, outcome.value.timers, now, e.logic.revision))
      else e;
    (after, Execution(None, None, e.logic.revision, trigger, inputs, e.state, after.state, after.timers, outcome, [], [], Capture(utc)))
  }

  ghost function ProcessUpdate(host: Host, endpoints: seq<Endpoint>, e: EngineState, name: EndpointName, update: InputUpdate,
                               now: MonotonicMs, utc: Option<int>): EngineStep
    requires |e.inputs| == |endpoints|
  {
    var at := ValidateUpdate(endpoints, name, update);
    if at.Err? then EngineStep(e, Err(at.error))
    else if !NotAfter(e.lastAcceptedAt, Some(now)) then
      EngineStep(e, Err(EngineTimeWentBackwards(e.lastAcceptedAt.value, now)))
    else
      var timed := e.(lastAcceptedAt := Some(now));
      match update
      case Observe(value) => EngineStep(timed.(inputs := e.inputs[at.value := InputState(Some(value), Some(now))]), Ok(None))
      case Invalidate => EngineStep(timed.(inputs := e.inputs[at.value := InputState(None, None)]), Ok(None))
      case TriggerWith(value) =>
        var stored := timed.(inputs := e.inputs[at.value := InputState(Some(value), Some(now))]);
        var trigger := ByInput(MakeInputTrigger(name, value, e.inputs[at.value].value));
        var (after, execution) := Evaluate(host, endpoints, stored, trigger, now, utc);
        EngineStep(after, Ok(Some(execution)))
  }

  // ----- timers ---------------------------------------------------------------------

  /** `a` fires before `b` within one block. */
  predicate Sooner(a: PendingTimer, b: PendingTimer) {
    a.dueAt < b.dueAt || (a.dueAt == b.dueAt && a.name <= b.name)
  }

  ghost predicate IsNextDue(timers: Timers, now: MonotonicMs, n: TimerName) {
    n in timers && timers[n].dueAt <= now
    && forall m :: m in timers && timers[m].dueAt <= now ==> Sooner(timers[n], timers[m])
  }

  ghost predicate NoneDue(timers: Timers, now: MonotonicMs) {
    forall m :: m in timers ==> timers[m].dueAt > now
  }

  ghost function NextDue(timers: Timers, now: MonotonicMs): (r: Option<TimerName>)
    ensures r.Some? ==> IsNextDue(timers, now, r.value)
    ensures r.None? ==> forall n :: !IsNextDue(timers, now, n)
  {
    if n :| IsNextDue(timers, now, n) then Some(n) else None
  }

  /** With timers stored under their own names, at most one is next. */
  lemma NextDueUnique(timers: Timers, revision: LogicRevision, now: MonotonicMs, n: TimerName)
    requires TimersOf(timers, revision) && IsNextDue(timers, now, n)
    ensures NextDue(timers, now) == Some(n)
  {
  }

  ghost function ProcessTimer(host: Host, endpoints: seq<Endpoint>, e: EngineState, now: MonotonicMs, utc: Option<int>): EngineStep
    requires |e.inputs| == |endpoints|
  {
    if !NotAfter(e.lastAcceptedAt, Some(now)) then
      EngineStep(e, Err(EngineTimeWentBackwards(e.lastAcceptedAt.value, now)))
    else
      var timed := e.(lastAcceptedAt := Some(now));
      var next := NextDue(e.timers, now);
      if next.None? then EngineStep(timed, Ok(None))
      else
        var timer := e.timers[next.value];
        var taken := timed.(timers := e.timers - {next.value});
        if timer.revision != e.logic.revision then EngineStep(taken, Err(StaleTimer(next.value)))
        else
          var trigger := ByTimer(TimerTrigger(next.value, timer.scheduledAt, timer.dueAt, now, timer.revision));
          var (after, execution) := Evaluate(host, endpoints, taken, trigger, now, utc);
          EngineStep(after, Ok(Some(execution)))
  }

  // ----- what always holds of an engine -----------------------------------------------

  ghost predicate InputOk(endpoint: Endpoint, input: InputState, last: Option<MonotonicMs>) {
    && (input.value.Some? <==> input.observedAt.Some?)
    && (input.value.Some? ==> endpoint.direction == Input && input.value.value.GetDpt() == endpoint.dpt)
    && NotAfter(input.observedAt, last)
  }

  ghost predicate InputsOk(endpoints: seq<Endpoint>, inputs: seq<InputState>, last: Option<MonotonicMs>) {
    |inputs| == |endpoints| && forall i :: 0 <= i < |inputs| ==> InputOk(endpoints[i], inputs[i], last)
  }

  ghost predicate EngineInv(limits: Limits, endpoints: seq<Endpoint>, e: EngineState) {
    && InputsOk(endpoints, e.inputs, e.lastAcceptedAt)
    && StateWithin(e.state, limits)
    && |e.timers| <= limits.maxPendingTimersPerBlock
    && TimersOf(e.timers, e.logic.revision)
  }

  /** An execution only publishes typed outputs of its block. */
  ghost predicate ExecutionOk(endpoints: seq<Endpoint>, execution: Execution) {
    execution.outcome.Ok? ==> OutputsTyped(endpoints, execution.outcome.value.outputs)
  }

  lemma EvaluateTyped(host: Host, endpoints: seq<Endpoint>, e: EngineState, trigger: Trigger, now: MonotonicMs, utc: Option<int>)
    requires |e.inputs| == |endpoints|
    ensures ExecutionOk(endpoints, Evaluate(host, endpoints, e, trigger, now, utc).1)
  {
    hide Converted;
    var inputs := Snapshots(endpoints, e.inputs, now, |endpoints|);
    var reply := host.handler(HandlerCall(endpoints, e.logic, inputs, trigger, e.state, e.timers, now, Capture(utc)));
    if reply.Returned? {
      var raw := if reply.values == [] then LuaNil else reply.values[0];
      ConvertedIsTyped(endpoints, host.naming, raw, e.state, e.timers, now, host.limits);
    }
  }

  /** An accepted value is stored at its endpoint, whether or not it runs the
      handler. */
  lemma UpdateStores(host: Host, endpoints: seq<Endpoint>, e: EngineState, name: EndpointName, update: InputUpdate,
                     now: MonotonicMs, utc: Option<int>)
    requires |e.inputs| == |endpoints| && !update.Invalidate?
    ensures var step := ProcessUpdate(host, endpoints, e, name, update, now, utc);
            step.result.Ok? ==>
              && ValidateInput(endpoints, name, update.value).Ok?
              && step.engine.inputs == e.inputs[ValidateInput(endpoints, name, update.value).value := InputState(Some(update.value), Some(now))]
              && (step.result.value.Some? <==> update.TriggerWith?)
              && (step.result.value.Some? ==> ExecutionOk(endpoints, step.result.value.value))
  {
    hide ExecuteLogic;
    var at := ValidateUpdate(endpoints, name, update);
    if at.Ok? && update.TriggerWith? {
      var stored := e.(lastAcceptedAt := Some(now), inputs := e.inputs[at.value := InputState(Some(update.value), Some(now))]);
      EvaluateTyped(host, endpoints, stored, ByInput(MakeInputTrigger(name, update.value, e.inputs[at.value].value)), now, utc);
    }
  }

  /** A committed transition keeps the invariant; its outputs are typed and
      every timer it arms is due strictly later. */
  lemma EvaluateKeepsInv(host: Host, endpoints: seq<Endpoint>, e: EngineState, trigger: Trigger, now: MonotonicMs, utc: Option<int>)
    requires EngineInv(host.limits, endpoints, e)
    ensures var (after, execution) := Evaluate(host, endpoints, e, trigger, now, utc);
            && EngineInv(host.limits, endpoints, after)
            && after.inputs == e.inputs && after.lastAcceptedAt == e.lastAcceptedAt && after.logic == e.logic
            && ExecutionOk(endpoints, execution)
            && (execution.outcome.Err? ==> after == e)
            && (forall n :: n in after.timers ==> (n in e.timers && after.timers[n] == e.timers[n]) || after.timers[n].dueAt > now)
  {
    var inputs := Snapshots(endpoints, e.inputs, now, |endpoints|);
    var call := HandlerCall(endpoints, e.logic, inputs, trigger, e.state, e.timers, now, Capture(utc));
    var outcome := ExecuteLogic(host, call);
    EvaluateTyped(host, endpoints, e, trigger, now, utc);
    if outcome.Ok? {
      var reply := host.handler(call);
      var raw := if reply.values == [] then LuaNil else reply.values[0];
      ConvertedIsCommittable(endpoints, host.naming, raw, e.state, e.timers, now, host.limits, e.logic.revision);
      EffectsArmLater(e.timers, outcome.value.timers, now, e.logic.revision);
    }
  }

  lemma UpdateKeepsInv(host: Host, endpoints: seq<Endpoint>, e: EngineState, name: EndpointName, update: InputUpdate,
                       now: MonotonicMs, utc: Option<int>)
    requires EngineInv(host.limits, endpoints, e)
    ensures var step := ProcessUpdate(host, endpoints, e, name, update, now, utc);
            && EngineInv(host.limits, endpoints, step.engine)
            && (step.result.Err? ==> step.engine == e)
            && (step.result.Ok? <==> ValidateUpdate(endpoints, name, update).Ok? && NotAfter(e.lastAcceptedAt, Some(now)))
            && (step.result.Ok? ==> step.engine.lastAcceptedAt == Some(now) && (step.result.value.Some? <==> update.TriggerWith?))
            && (step.result.Ok? && step.result.value.Some? ==> ExecutionOk(endpoints, step.result.value.value))
            && step.engine.logic == e.logic
            && (forall n :: n in step.engine.timers ==>
                  (n in e.timers && step.engine.timers[n] == e.timers[n]) || step.engine.timers[n].dueAt > now)
  {
    var at := ValidateUpdate(endpoints, name, update);
    if at.Ok? && NotAfter(e.lastAcceptedAt, Some(now)) {
      var input := if update.Invalidate? then InputState(None, None) else InputState(Some(update.value), Some(now));
      var stored := e.(lastAcceptedAt := Some(now), inputs := e.inputs[at.value := input]);
      assert EngineInv(host.limits, endpoints, stored);
      if update.TriggerWith? {
        EvaluateKeepsInv(host, endpoints, stored, ByInput(MakeInputTrigger(name, update.value, e.inputs[at.value].value)), now, utc);
      }
    }
  }

  /** With the invariant a timer is never stale. */
  lemma TimerKeepsInv(host: Host, endpoints: seq<Endpoint>, e: EngineState, now: MonotonicMs, utc: Option<int>)
    requires EngineInv(host.limits, endpoints, e)
    ensures var step := ProcessTimer(host, endpoints, e, now, utc);
            && EngineInv(host.limits, endpoints, step.engine)
            && (step.result.Err? ==> step.engine == e && step.result.error.EngineTimeWentBackwards?)
            && (step.result.Ok? <==> NotAfter(e.lastAcceptedAt, Some(now)))
            && (step.result.Ok? ==> step.engine.lastAcceptedAt == Some(now)
                                    && (step.result.value.Some? <==> NextDue(e.timers, now).Some?))
            && (step.result.Ok? && step.result.value.Some? ==> ExecutionOk(endpoints, step.result.value.value))
            && step.engine.logic == e.logic
            && (forall n :: n in step.engine.timers ==>
                  (n in e.timers && step.engine.timers[n] == e.timers[n] && (step.result.Ok? ==> Some(n) != NextDue(e.timers, now)))
                  || step.engine.timers[n].dueAt > now)
  {
    var next := NextDue(e.timers, now);
    if NotAfter(e.lastAcceptedAt, Some(now)) && next.Some? {
      var timer := e.timers[next.value];
      var taken := e.(lastAcceptedAt := Some(now), timers := e.timers - {next.value});
      assert taken.timers.Keys <= e.timers.Keys;
      assert |taken.timers.Keys| <= |e.timers.Keys| by { SubsetSize(taken.timers.Keys, e.timers.Keys); }
      assert EngineInv(host.limits, endpoints, taken);
      EvaluateKeepsInv(host, endpoints, taken, ByTimer(TimerTrigger(next.value, timer.scheduledAt, timer.dueAt, now, timer.revision)), now, utc);
    }
  }

  lemma {:induction false} SubsetSize<T>(a: set<T>, b: set<T>)
    requires a <= b
    ensures |a| <= |b|
    decreases |a|
  {
    if a != {} {
      var x :| x in a;
      SubsetSize(a - {x}, b - {x});
    }
  }

  method RunHandler(host: Host, call: HandlerCall) returns (outcome: Result<Transition, LogicErrorKind>)
    ensures outcome == ExecuteLogic(host, call)
  {
    match host.handler(call) {
      case Raised(kind) => outcome := Err(kind);
      case Returned(values) =>
        if |values| > 1 { return Err(InvalidResult); }
        var t := ConvertResult(call.endpoints, host.naming, if values == [] then LuaNil else values[0],
                               call.state, call.timers, call.now, host.limits);
        outcome := if t.None? then Err(InvalidResult) else Ok(t.value);
    }
  }

  // ----- the engine object --------------------------------------------------------------

  class Engine {
    const host: Host
    const endpoints: seq<Endpoint>
    var logic: LogicProgram
    var inputs: seq<InputState>
    var state: State
    var timers: Timers
    var lastAcceptedAt: Option<MonotonicMs>

    /** A copy of the engine's state, as cloning it gives. */
    function Value(): EngineState
      reads this
    {
      EngineState(logic, inputs, state, timers, lastAcceptedAt)
    }

    ghost predicate Valid()
      reads this
    {
      EngineInv(host.limits, endpoints, Value())
    }

    constructor (host: Host, endpoints: seq<Endpoint>, logic: LogicProgram)
      ensures Valid() && this.host == host && this.endpoints == endpoints
      ensures Value() == EngineState(logic, seq(|endpoints|, _ => InputState(None, None)), map[], map[], None)
    {
      this.host, this.endpoints, this.logic := host, endpoints, logic;
      inputs := seq(|endpoints|, _ => InputState(None, None));
      state, timers, lastAcceptedAt := map[], map[], None;
    }

    /** Puts back a state taken earlier with `Value`. */
    method Restore(saved: EngineState)
      requires EngineInv(host.limits, endpoints, saved)
      modifies this
      ensures Value() == saved && Valid()
    {
      logic, inputs, state, timers, lastAcceptedAt := saved.logic, saved.inputs, saved.state, saved.timers, saved.lastAcceptedAt;
    }

    method InputSnapshots(now: MonotonicMs) returns (snapshots: seq<InputSnapshot>)
      requires |inputs| == |endpoints|
      ensures snapshots == Snapshots(endpoints, inputs, now, |endpoints|)
    {
      snapshots := [];
      var i := 0;
      while i < |endpoints|
        invariant 0 <= i <= |endpoints| && snapshots == Snapshots(endpoints, inputs, now, i)
      {
        if endpoints[i].direction == Input { snapshots := snapshots + [SnapshotOf(endpoints[i], inputs[i], now)]; }
        i := i + 1;
      }
    }

    /** The tail shared by input, timer and schedule executions. */
    method Execute(trigger: Trigger, now: MonotonicMs, utc: Option<int>) returns (execution: Execution)
      requires Valid()
      modifies this
      ensures Valid() && (Value(), execution) == Evaluate(host, endpoints, old(Value()), trigger, now, utc)
    {
      EvaluateKeepsInv(host, endpoints, Value(), trigger, now, utc);
      var snapshots := InputSnapshots(now);
      var stateBefore := state;
      var outcome := RunHandler(host, HandlerCall(endpoints, logic, snapshots, trigger, stateBefore, timers, now, Capture(utc)));
      if outcome.Ok? {
        var merged := MergeState(stateBefore, outcome.value.state, host.limits);
        assert merged.Ok?;
        timers := ApplyTimerEffects(timers, outcome.value.timers, now, logic.revision);
        state := merged.value;
      }
      execution := Execution(None, None, logic.revision, trigger, snapshots, stateBefore, state, timers, outcome, [], [], Capture(utc));
    }

    method ProcessInputUpdate(name: EndpointName, update: InputUpdate, now: MonotonicMs, utc: Option<int>)
      returns (r: Result<Option<Execution>, EventError>)
      requires Valid()
      modifies this
      ensures Valid() && EngineStep(Value(), r) == ProcessUpdate(host, endpoints, old(Value()), name, update, now, utc)
    {
      UpdateKeepsInv(host, endpoints, Value(), name, update, now, utc);
      var at := ValidateUpdate(endpoints, name, update);
      if at.Err? { return Err(at.error); }
      if !NotAfter(lastAcceptedAt, Some(now)) { return Err(EngineTimeWentBackwards(lastAcceptedAt.value, now)); }
      lastAcceptedAt := Some(now);
      match update {
        case Observe(value) =>
          inputs := inputs[at.value := InputState(Some(value), Some(now))];
          r := Ok(None);
        case Invalidate =>
          inputs := inputs[at.value := InputState(None, None)];
          r := Ok(None);
        case TriggerWith(value) =>
          var previous := inputs[at.value].value;
          inputs := inputs[at.value := InputState(Some(value), Some(now))];
          var execution := Execute(ByInput(MakeInputTrigger(name, value, previous)), now, utc);
          r := Ok(Some(execution));
      }
    }

    method SelectNextDue(now: MonotonicMs) returns (next: Option<TimerName>)
      requires TimersOf(timers, logic.revision)
      ensures next == NextDue(timers, now)
      ensures next.None? ==> NoneDue(timers, now)
    {
      next := None;
      var rest := timers.Keys;
      while rest != {}
        invariant rest <= timers.Keys
        invariant next.None? ==> forall m :: m in timers && m !in rest ==> timers[m].dueAt > now
        invariant next.Some? ==> next.value in timers && timers[next.value].dueAt <= now
        invariant next.Some? ==> forall m :: m in timers && m !in rest && timers[m].dueAt <= now ==> Sooner(timers[next.value], timers[m])
        decreases rest
      {
        var m :| m in rest;
        if timers[m].dueAt <= now && (next.None? || !Sooner(timers[next.value], timers[m])) { next := Some(m); }
        rest := rest - {m};
      }
      if next.Some? { NextDueUnique(timers, logic.revision, now, next.value); }
    }

    method ProcessNextDueTimer(now: MonotonicMs, utc: Option<int>) returns (r: Result<Option<Execution>, EventError>)
      requires Valid()
      modifies this
      ensures Valid() && EngineStep(Value(), r) == ProcessTimer(host, endpoints, old(Value()), now, utc)
    {
      TimerKeepsInv(host, endpoints, Value(), now, utc);
      if !NotAfter(lastAcceptedAt, Some(now)) { return Err(EngineTimeWentBackwards(lastAcceptedAt.value, now)); }
      lastAcceptedAt := Some(now);
      var next := SelectNextDue(now);
      if next.None? { return Ok(None); }
      var name := next.value;
      var timer := timers[name];
      SubsetSize(timers.Keys - {name}, timers.Keys);
      timers := timers - {name};
      if timer.revision != logic.revision { return Err(StaleTimer(name)); }
      var execution := Execute(ByTimer(TimerTrigger(name, timer.scheduledAt, timer.dueAt, now, timer.revision)), now, utc);
      r := Ok(Some(execution));
    }

    /** Installs a program; a new revision cancels every pending timer. */
    method ActivateSource(program: LogicProgram) returns (changed: bool, cancelled: set<TimerName>)
      requires Valid()
      modifies this
      ensures Valid()
      ensures changed == (program.revision != old(logic.revision))
      ensures cancelled == if changed then old(timers.Keys) else {}
      ensures Value() == if changed then old(Value()).(logic := program, timers := map[]) else old(Value())
    {
      changed := program.revision != logic.revision;
      cancelled := {};
      if changed {
        cancelled := timers.Keys;
        timers := map[];
        logic := program;
      }
    }

    method CancelTimers()
      requires Valid()
      modifies this
      ensures Valid() && Value() == old(Value()).(timers := map[])
    {
      timers := map[];
    }
  }
}
