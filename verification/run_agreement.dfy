/** Signal agreement over whole runs: when the host leaves signal-bound inputs
    to their signals, every consumer always holds what its signal holds. */
module RunAgreement {
  import opened Values
  import opened SignalGraph
  import opened Configuration
  import opened LuaConversion
  import opened Engines
  import opened LogicBlocks
  import opened ScheduleCursors
  import opened Cascades
  import opened PlanFacts
  import opened CascadeSafety
  import opened SignalAgreement
  import opened RuntimeEvents
  import opened RuntimeSafety
  import opened SchedulePolling
  import opened RuntimeRuns

  /** No signal feeds the endpoint. */
  ghost predicate Unbound(p: Plan, id: BlockId, endpoint: EndpointName) {
    forall at :: 0 <= at < |p.config.signals| ==> EndpointRef(id, endpoint) !in ConsumersAt(p, at)
  }

  ghost predicate SameInputs(s: RuntimeState, t: RuntimeState) {
    && t.signals == s.signals && |t.blocks| == |s.blocks|
    && forall c :: 0 <= c < |s.blocks| ==> t.blocks[c].engine.inputs == s.blocks[c].engine.inputs
  }

  lemma InputsDecide(p: Plan, s: RuntimeState, t: RuntimeState)
    requires Shaped(p, s) && Shaped(p, t) && SameInputs(s, t) && AllAgree(p, s)
    ensures AllAgree(p, t)
  {
    forall at | 0 <= at < |s.signals| ensures Agrees(p, t, at) {
      assert Agrees(p, s, at);
      forall r ensures InputAt(p, t, r) == InputAt(p, s, r) {}
    }
  }

  lemma FireKeepsInputs(p: Plan, s: RuntimeState, c: nat, now: MonotonicMs, utc: Option<int>)
    requires Shaped(p, s) && c < |s.blocks|
    ensures SameInputs(s, FireBlock(p, s, c, now, utc).s)
  {
    hide ExecuteLogic;
  }

  lemma RunScheduleKeepsInputs(p: Plan, s: RuntimeState, c: nat, trigger: ScheduleTrigger, now: MonotonicMs)
    requires Shaped(p, s) && c < |s.blocks|
    ensures SameInputs(s, RunSchedule(p, s, c, trigger, now).s)
  {
    hide ExecuteLogic;
  }

  /** An update stores one input, or clears it, and touches no other. */
  lemma UpdateTouchesOne(host: Host, endpoints: seq<Endpoint>, e: EngineState, name: EndpointName, update: InputUpdate, now: MonotonicMs, utc: Option<int>)
    requires |e.inputs| == |endpoints|
    ensures var after := ProcessUpdate(host, endpoints, e, name, update, now, utc).engine;
            |after.inputs| == |e.inputs|
            && forall i :: 0 <= i < |e.inputs| && EndpointPosition(endpoints, name) != Some(i) ==> after.inputs[i] == e.inputs[i]
  {
    hide ExecuteLogic;
  }

  lemma UpdateBlockTouchesOne(p: Plan, s: RuntimeState, c: nat, endpoint: EndpointName, update: InputUpdate, now: MonotonicMs, utc: Option<int>)
    requires Shaped(p, s) && c < |s.blocks|
    ensures var t, at := UpdateBlock(p, s, c, endpoint, update, now, utc).s, EndpointPosition(p.config.blocks[c].endpoints, endpoint);
            && t.signals == s.signals
            && (forall i :: 0 <= i < |s.blocks| && i != c ==> t.blocks[i] == s.blocks[i])
            && (forall i :: 0 <= i < |s.blocks[c].engine.inputs| && at != Some(i) ==> t.blocks[c].engine.inputs[i] == s.blocks[c].engine.inputs[i])
  {
    hide ProcessUpdate;
    var asked := update.TriggerWith? && Runnable(s.blocks[c]);
    var (b, admitted) := if asked then Admit(s.blocks[c], now, p.host.limits.maxLiveExecutionsPerBlockPerSecond) else (s.blocks[c], false);
    var effective := if update.TriggerWith? && !admitted then Observe(update.value) else update;
    UpdateTouchesOne(p.host, p.config.blocks[c].endpoints, b.engine, endpoint, effective, now, utc);
  }

  lemma UpdateRootAgrees(p: Plan, s: RuntimeState, id: BlockId, endpoint: EndpointName, update: InputUpdate, now: MonotonicMs, utc: Option<int>)
    requires Shaped(p, s) && AllAgree(p, s) && Unbound(p, id, endpoint)
    ensures AllAgree(p, UpdateRoot(p, s, id, endpoint, update, now, utc).s)
  {
    hide UpdateBlock;
    var at := BlockPosition(p.config.blocks, id);
    if at.Some? && ValidateUpdate(p.config.blocks[at.value].endpoints, endpoint, update).Ok? && !Earlier(s, now) {
      UpdateBlockTouchesOne(p, s, at.value, endpoint, update, now, utc);
      var t := UpdateBlock(p, s, at.value, endpoint, update, now, utc).s;
      forall signal | 0 <= signal < |s.signals| ensures Agrees(p, t, signal) {
        assert Agrees(p, s, signal);
        forall i | 0 <= i < |ConsumersAt(p, signal)| ensures InputAt(p, t, ConsumersAt(p, signal)[i]) == InputAt(p, s, ConsumersAt(p, signal)[i]) {
          OtherEndpoint(p, s, t, at.value, id, endpoint, ConsumersAt(p, signal)[i]);
        }
      }
    }
  }

  lemma OtherEndpoint(p: Plan, s: RuntimeState, t: RuntimeState, c: nat, id: BlockId, endpoint: EndpointName, r: EndpointRef)
    requires Shaped(p, s) && Shaped(p, t) && BlockPosition(p.config.blocks, id) == Some(c) && r != EndpointRef(id, endpoint)
    requires forall i :: 0 <= i < |s.blocks| && i != c ==> t.blocks[i] == s.blocks[i]
    requires forall i :: 0 <= i < |s.blocks[c].engine.inputs| && EndpointPosition(p.config.blocks[c].endpoints, endpoint) != Some(i) ==>
               t.blocks[c].engine.inputs[i] == s.blocks[c].engine.inputs[i]
    ensures InputAt(p, t, r) == InputAt(p, s, r)
  {
    if BlockPosition(p.config.blocks, r.block) == Some(c) {
      assert r.block == id && r.endpoint != endpoint;
    }
  }

  /** Following a root preserves agreement, whatever the event answers. */
  lemma RunEventAgrees(p: Plan, rank: BlockId -> nat, s: RuntimeState, root: Root, restores: bool, now: MonotonicMs, utc: Option<int>)
    requires SoundPlan(p, rank) && FullInv(p, s) && Shaped(p, root.s) && RootSafe(p, s, root, now)
    requires root.result.Ok? && root.result.value.Some? ==> Known(p, root.result.value.value.block)
    requires AllAgree(p, s) && AllAgree(p, root.s)
    ensures AllAgree(p, RunEvent(p, s, root, restores, now, utc).s)
  {
    hide Propagate, AllAgree, Evolves, BlocksOk, SignalsOk, UsageError, CascadesWithin, Ranks, OutputsTyped;
    if root.result.Ok? && root.result.value.Some? {
      var x := root.result.value.value;
      FollowSafe(p, rank, s, root.s, x, now, utc);
      assert [x][0] == x;
      CascadeAgrees(p, rank, root.s, [x], 0, now, utc);
    }
  }

  /** The host never drives an endpoint a signal feeds. */
  ghost predicate LeavesSignalsAlone(p: Plan, call: HostCall) {
    call.DriveInput? ==> Unbound(p, call.id, call.endpoint)
  }

  lemma TimerRootAgrees(p: Plan, s: RuntimeState, now: MonotonicMs, utc: Option<int>)
    requires Shaped(p, s) && AllAgree(p, s)
    ensures AllAgree(p, TimerRoot(p, s, now, utc).s)
  {
    hide FireBlock, AllAgree;
    var t := TimerRoot(p, s, now, utc).s;
    if !Earlier(s, now) && FirstBlock(p, s, now).Some? { FireKeepsInputs(p, s, FirstBlock(p, s, now).value, now, utc); }
    InputsDecide(p, s, t);
  }

  lemma ScheduleRootAgrees(p: Plan, s: RuntimeState, trigger: ScheduleTrigger, now: MonotonicMs)
    requires Shaped(p, s) && AllAgree(p, s)
    ensures AllAgree(p, ScheduleRoot(p, s, trigger, now).s)
  {
    hide RunSchedule, AllAgree;
    var at := BlockPosition(p.config.blocks, trigger.block);
    if at.Some? { RunScheduleKeepsInputs(p, s.(lastAcceptedAt := Some(now)), at.value, trigger, now); }
    InputsDecide(p, s, ScheduleRoot(p, s, trigger, now).s);
  }

  lemma {:induction false} ActivationKeepsInputs(p: Plan, s: RuntimeState, updates: seq<BlockActivation>)
    requires Shaped(p, s)
    ensures SameInputs(s, ActivateAll(p, s, updates))
    decreases |updates|
  {
    if updates != [] {
      assert SameInputs(s, ActivateOne(p, s, updates[0]));
      ActivationKeepsInputs(p, ActivateOne(p, s, updates[0]), updates[1..]);
    }
  }

  lemma EventAgrees(p: Plan, rank: BlockId -> nat, s: RuntimeState, call: HostCall)
    requires SoundPlan(p, rank) && FullInv(p, s) && AllAgree(p, s) && LeavesSignalsAlone(p, call)
    requires call.DriveInput? || call.FireTimer? || call.RunTrigger?
    ensures AllAgree(p, Step(p, s, call))
  {
    hide UpdateRoot, TimerRoot, ScheduleRoot, RunEvent, AllAgree, RootSafe, Unbound, BlocksOk, SignalsOk, CascadesWithin, Ranks;
    RootsAreKnown(p, s);
    match call {
      case DriveInput(id, endpoint, update, now, utc) =>
        UpdateRootSafe(p, s, id, endpoint, update, now, utc);
        UpdateRootAgrees(p, s, id, endpoint, update, now, utc);
        RunEventAgrees(p, rank, s, UpdateRoot(p, s, id, endpoint, update, now, utc), true, now, utc);
      case FireTimer(now, utc) =>
        TimerRootSafe(p, s, now, utc);
        TimerRootAgrees(p, s, now, utc);
        RunEventAgrees(p, rank, s, TimerRoot(p, s, now, utc), false, now, utc);
      case RunTrigger(trigger, now, utc) =>
        ScheduleRootSafe(p, s, trigger, now);
        ScheduleRootAgrees(p, s, trigger, now);
        RunEventAgrees(p, rank, s, ScheduleRoot(p, s, trigger, now), false, now, utc);
    }
  }

  /** Calls that run no handler touch no input and no signal. */
  lemma OtherCallsKeepInputs(p: Plan, s: RuntimeState, call: HostCall)
    requires Shaped(p, s) && DistinctBlocks(p.config.blocks) && !call.DriveInput? && !call.FireTimer? && !call.RunTrigger?
    ensures SameInputs(s, Step(p, s, call))
  {
    hide Updated, PollBase, ScheduleSlots, ActivateAll;
    if call.ActivateBlocks? { ActivationKeepsInputs(p, s, call.updates); }
  }

  lemma StepAgrees(p: Plan, rank: BlockId -> nat, s: RuntimeState, call: HostCall)
    requires SoundPlan(p, rank) && FullInv(p, s) && AllAgree(p, s) && LeavesSignalsAlone(p, call)
    ensures AllAgree(p, Step(p, s, call))
  {
    hide AllAgree, Unbound, BlocksOk, SignalsOk, CascadesWithin, Ranks, Step, SameInputs, BlockAccepted;
    if call.DriveInput? || call.FireTimer? || call.RunTrigger? {
      EventAgrees(p, rank, s, call);
    } else {
      OtherCallsKeepInputs(p, s, call);
      InputsDecide(p, s, Step(p, s, call));
    }
  }

  lemma InitialAgrees(p: Plan)
    ensures AllAgree(p, InitialState(p))
  {
  }

  /** In every state of every run, each consumer of each signal that has a value
      holds exactly that value and its observation time: whether the consumer
      ran, was disabled, suspended or refused by its rate window. */
  lemma {:induction false} RunsAgree(p: Plan, rank: BlockId -> nat, calls: seq<HostCall>, states: seq<RuntimeState>, n: nat)
    requires SoundPlan(p, rank) && IsRun(p, calls, states) && n < |states|
    requires forall call :: call in calls ==> LeavesSignalsAlone(p, call)
    ensures Shaped(p, states[n]) && AllAgree(p, states[n])
  {
    hide AllAgree, CascadesWithin, Ranks, LeavesSignalsAlone, Step, BlocksOk, SignalsOk;
    RunsAreSafe(p, rank, calls, states, n);
    if n == 0 {
      InitialAgrees(p);
    } else {
      RunsAgree(p, rank, calls, states, n - 1);
      RunsAreSafe(p, rank, calls, states, n - 1);
      StepAgrees(p, rank, states[n - 1], calls[n - 1]);
    }
  }

  // ----- why signal-bound inputs must be left alone ------------------------------------------------

  /** What an accepted update leaves at its endpoint. */
  function LeftBy(update: InputUpdate, now: MonotonicMs): InputState {
    if update.Invalidate? then InputState(None, None) else InputState(Some(update.value), Some(now))
  }

  lemma UpdateLeaves(host: Host, endpoints: seq<Endpoint>, e: EngineState, name: EndpointName, update: InputUpdate, now: MonotonicMs, utc: Option<int>)
    requires EngineInv(host.limits, endpoints, e) && ValidateUpdate(endpoints, name, update).Ok? && NotAfter(e.lastAcceptedAt, Some(now))
    ensures var step := ProcessUpdate(host, endpoints, e, name, update, now, utc);
            step.result.Ok? && step.engine.inputs == e.inputs[ValidateUpdate(endpoints, name, update).value := LeftBy(update, now)]
  {
    hide ExecuteLogic, EngineInv;
    UpdateKeepsInv(host, endpoints, e, name, update, now, utc);
  }

  lemma BlockStores(p: Plan, s: RuntimeState, c: nat, endpoint: EndpointName, update: InputUpdate, now: MonotonicMs, utc: Option<int>)
    requires FullInv(p, s) && c < |s.blocks| && !Earlier(s, now)
    requires ValidateUpdate(p.config.blocks[c].endpoints, endpoint, update).Ok?
    ensures var root := UpdateBlock(p, s, c, endpoint, update, now, utc);
            && root.result.Ok? && root.s.signals == s.signals
            && (forall i :: 0 <= i < |s.blocks| && i != c ==> root.s.blocks[i] == s.blocks[i])
            && root.s.blocks[c].engine.inputs
               == s.blocks[c].engine.inputs[ValidateUpdate(p.config.blocks[c].endpoints, endpoint, update).value := LeftBy(update, now)]
  {
    hide ProcessUpdate, EngineInv, ValidateUpdate, BlocksOk, SignalsOk, StateTotal, TimersTotal, WindowOk, HealthOk, Admit, Record;
    var limits, endpoints := p.host.limits, p.config.blocks[c].endpoints;
    ClockAdvances(p, s, now);
    BlockAtInv(p, At(s, now), c);
    AdmitKeepsInv(limits, endpoints, s.blocks[c], now);
    UpdatePosition(endpoints, endpoint, update);
    var asked := update.TriggerWith? && Runnable(s.blocks[c]);
    var (b, admitted) := if asked then Admit(s.blocks[c], now, limits.maxLiveExecutionsPerBlockPerSecond) else (s.blocks[c], false);
    var effective := if update.TriggerWith? && !admitted then Observe(update.value) else update;
    UpdateLeaves(p.host, endpoints, b.engine, endpoint, effective, now, utc);
    var step := ProcessUpdate(p.host, endpoints, b.engine, endpoint, effective, now, utc);
    if step.result.value.Some? { RecordKeepsInputs(b.(engine := step.engine), step.result.value.value.outcome); }
  }

  lemma RecordKeepsInputs(b: BlockState, outcome: Result<Transition, LogicErrorKind>)
    ensures Record(b, outcome).engine.inputs == b.engine.inputs
  {
  }

  /** An accepted update of a block stores its value there and nowhere else,
      whether the block runs or only observes. */
  lemma DirectlyStored(p: Plan, s: RuntimeState, c: nat, r: EndpointRef, update: InputUpdate, now: MonotonicMs, utc: Option<int>)
    requires FullInv(p, s) && BlockPosition(p.config.blocks, r.block) == Some(c) && !Earlier(s, now)
    requires ValidateUpdate(p.config.blocks[c].endpoints, r.endpoint, update).Ok?
    ensures var root := UpdateBlock(p, s, c, r.endpoint, update, now, utc);
            && root.result.Ok? && root.s.signals == s.signals
            && InputAt(p, root.s, r) == LeftBy(update, now)
            && forall q :: q != r ==> InputAt(p, root.s, q) == InputAt(p, s, q)
  {
    hide UpdateBlock, ValidateUpdate, BlocksOk, SignalsOk, InputAt, StateTotal, TimersTotal;
    var endpoints := p.config.blocks[c].endpoints;
    BlockStores(p, s, c, r.endpoint, update, now, utc);
    UpdatePosition(endpoints, r.endpoint, update);
    OneInputStored(p, s, UpdateBlock(p, s, c, r.endpoint, update, now, utc).s, r, c, ValidateUpdate(endpoints, r.endpoint, update).value, LeftBy(update, now));
  }

  lemma UpdatePosition(endpoints: seq<Endpoint>, name: EndpointName, update: InputUpdate)
    ensures ValidateUpdate(endpoints, name, update).Ok? ==> EndpointPosition(endpoints, name) == Some(ValidateUpdate(endpoints, name, update).value)
    ensures update.TriggerWith? ==> ValidateUpdate(endpoints, name, Observe(update.value)) == ValidateUpdate(endpoints, name, update)
  {
  }

  /** Every signal but `at` agrees. */
  ghost predicate OthersAgree(p: Plan, s: RuntimeState, at: nat)
    requires Shaped(p, s)
  {
    forall other :: 0 <= other < |s.signals| && other != at ==> Agrees(p, s, other)
  }

  /** A cascade below the producer of `at` leaves that signal and its consumers
      as they were, and all others in agreement. */
  lemma CascadeAgreesElsewhere(p: Plan, rank: BlockId -> nat, s: RuntimeState, execs: seq<BlockExecution>, k: nat, at: nat, now: MonotonicMs, utc: Option<int>)
    requires ValidPlan(p) && Ranks(EdgesOf(p), rank) && Shaped(p, s) && k < |execs| && Known(p, execs[k].block) && at < |s.signals|
    requires ExecutionOk(ConfigOf(p, execs[k].block).endpoints, execs[k].execution) && OthersAgree(p, s, at)
    requires !Under(p, SignalAgreement.View(rank, true), at, rank(execs[k].block) + 1)
    ensures var o := Propagate(p, s, execs, k, now, utc);
            o.error.None? ==> OthersAgree(p, o.s, at) && (Agrees(p, o.s, at) <==> Agrees(p, s, at))
  {
    hide Propagate, Agrees;
    var v := SignalAgreement.View(rank, true);
    PropagateSettles(p, v, s, execs, k, now, utc);
    var o := Propagate(p, s, execs, k, now, utc);
    if o.error.None? {
      assert Same(p, s, o.s, at);
      SameDecides(p, s, o.s, at);
      forall other | 0 <= other < |s.signals| && other != at ensures Agrees(p, o.s, other) {
        if !Under(p, v, other, rank(execs[k].block) + 1) { SameAgrees(p, s, o.s, other); }
      }
    }
  }

  lemma SameDecides(p: Plan, s: RuntimeState, t: RuntimeState, at: nat)
    requires Shaped(p, s) && Shaped(p, t) && at < |s.signals| && Same(p, s, t, at)
    ensures Agrees(p, t, at) <==> Agrees(p, s, at)
  {
    if Agrees(p, s, at) { SameAgrees(p, s, t, at); }
    if Agrees(p, t, at) {
      assert Same(p, t, s, at);
      SameAgrees(p, t, s, at);
    }
  }

  /** The signal a block consumes is not produced below it. */
  lemma ConsumedFromAbove(p: Plan, rank: BlockId -> nat, at: nat, r: EndpointRef)
    requires ValidPlan(p) && Ranks(EdgesOf(p), rank) && at < |p.config.signals| && r in ConsumersAt(p, at)
    ensures !Under(p, SignalAgreement.View(rank, true), at, rank(r.block) + 1)
  {
    var producers := ProducersIn(PlanBindings(p));
    if NameOf(p, at) in producers {
      var j :| 0 <= j < |ConsumersAt(p, at)| && ConsumersAt(p, at)[j] == r;
      ConsumerRanksBelow(p, SignalAgreement.View(rank, true), producers[NameOf(p, at)].block, at, j);
    }
  }

  /** The update repeats what its signal says. */
  predicate Repeats(update: InputUpdate, signal: SignalState, now: MonotonicMs) {
    LeftBy(update, now) == InputState(signal.value, signal.observedAt)
  }

  /** When the host updates an input that signal `at` feeds, be it by observing,
      invalidating or triggering, agreement survives exactly when the event was
      undone, the signal has no value yet, or the update repeats its value and
      observation time. */
  lemma DirectUpdateDisagrees(p: Plan, rank: BlockId -> nat, s: RuntimeState, at: nat, r: EndpointRef, update: InputUpdate, now: MonotonicMs, utc: Option<int>)
    requires SoundPlan(p, rank) && FullInv(p, s) && AllAgree(p, s) && at < |s.signals| && r in ConsumersAt(p, at) && !Earlier(s, now)
    requires Known(p, r.block) && ValidateUpdate(ConfigOf(p, r.block).endpoints, r.endpoint, update).Ok?
    ensures var e := InputEvent(p, s, r.block, r.endpoint, update, now, utc);
            AllAgree(p, e.s) <==> e.result.Err? || s.signals[at].value.None? || Repeats(update, s.signals[at], now)
  {
    hide UpdateBlock, Follow, BlocksOk, SignalsOk, CascadesWithin, Ranks, BlockAccepted, BindingsTyped, ValidateUpdate, InputAt, Evolves, Agrees, ExecOk;
    RootsAreKnown(p, s);
    var c := BlockPosition(p.config.blocks, r.block).value;
    DirectRoot(p, s, c, at, r, update, now, utc);
    UpdateRootSafe(p, s, r.block, r.endpoint, update, now, utc);
    var root := UpdateBlock(p, s, c, r.endpoint, update, now, utc);
    if root.result.value.Some? {
      RootOfBlock(p, s, c, r.endpoint, update, now, utc);
      DirectCascade(p, rank, s, root.s, root.result.value.value, at, r, now, utc);
    }
  }

  /** After the root only signal `at` can disagree. */
  lemma DirectRoot(p: Plan, s: RuntimeState, c: nat, at: nat, r: EndpointRef, update: InputUpdate, now: MonotonicMs, utc: Option<int>)
    requires ValidPlan(p) && FullInv(p, s) && AllAgree(p, s) && at < |s.signals| && r in ConsumersAt(p, at) && !Earlier(s, now)
    requires BlockPosition(p.config.blocks, r.block) == Some(c) && ValidateUpdate(p.config.blocks[c].endpoints, r.endpoint, update).Ok?
    ensures var root := UpdateBlock(p, s, c, r.endpoint, update, now, utc);
            && root.result.Ok? && OthersAgree(p, root.s, at)
            && (Agrees(p, root.s, at) <==> s.signals[at].value.None? || Repeats(update, s.signals[at], now))
  {
    hide UpdateBlock, AgreesUpTo, BlocksOk, SignalsOk, ValidateUpdate, InputAt, BlockAccepted, BindingsTyped;
    DirectlyStored(p, s, c, r, update, now, utc);
    var t := UpdateBlock(p, s, c, r.endpoint, update, now, utc).s;
    var j :| 0 <= j < |ConsumersAt(p, at)| && ConsumersAt(p, at)[j] == r;
    OthersStillAgree(p, s, t, at, j);
    if s.signals[at].value.Some? { OneStored(p, s, t, at, j, LeftBy(update, now)); }
  }

  /** Following the root does not change that. */
  lemma DirectCascade(p: Plan, rank: BlockId -> nat, checkpoint: RuntimeState, s: RuntimeState, x: BlockExecution, at: nat, r: EndpointRef, now: MonotonicMs, utc: Option<int>)
    requires SoundPlan(p, rank) && FullInv(p, checkpoint) && Evolves(p, checkpoint, s, now) && ExecOk(p, x) && x.block == r.block
    requires at < |s.signals| && r in ConsumersAt(p, at) && OthersAgree(p, s, at)
    ensures var e := Follow(p, checkpoint, s, x, now, utc);
            if e.result.Err? then e.s == checkpoint else OthersAgree(p, e.s, at) && (Agrees(p, e.s, at) <==> Agrees(p, s, at))
  {
    hide Propagate, BlocksOk, SignalsOk, CascadesWithin, Ranks, UsageError, OutputsTyped, BlockAccepted, BindingsTyped, Agrees, EventSafe;
    FollowSafe(p, rank, checkpoint, s, x, now, utc);
    EventRestores(p, rank, checkpoint, Follow(p, checkpoint, s, x, now, utc), now);
    assert [x][0] == x;
    ConsumedFromAbove(p, rank, at, r);
    CascadeAgreesElsewhere(p, rank, s, [x], 0, at, now, utc);
  }

  lemma EventRestores(p: Plan, rank: BlockId -> nat, s: RuntimeState, e: EventResult, now: MonotonicMs)
    requires Shaped(p, s) && Ranks(EdgesOf(p), rank) && EventSafe(p, rank, s, e, now)
    ensures e.result.Err? ==> e.s == s
  {
  }

  lemma RootOfBlock(p: Plan, s: RuntimeState, c: nat, endpoint: EndpointName, update: InputUpdate, now: MonotonicMs, utc: Option<int>)
    requires Shaped(p, s) && c < |s.blocks|
    ensures var root := UpdateBlock(p, s, c, endpoint, update, now, utc);
            root.result.Ok? && root.result.value.Some? ==> root.result.value.value.block == p.config.blocks[c].id
  {
    hide ProcessUpdate;
  }

  lemma OthersStillAgree(p: Plan, s: RuntimeState, t: RuntimeState, at: nat, j: nat)
    requires ValidPlan(p) && Shaped(p, s) && Shaped(p, t) && AllAgree(p, s) && at < |s.signals| && j < |ConsumersAt(p, at)|
    requires t.signals == s.signals && forall q :: q != ConsumersAt(p, at)[j] ==> InputAt(p, t, q) == InputAt(p, s, q)
    ensures forall other :: 0 <= other < |s.signals| && other != at ==> Agrees(p, t, other)
  {
    forall other | 0 <= other < |s.signals| && other != at ensures Agrees(p, t, other) {
      OthersKeep(p, s, t, at, j, other);
      SameAgrees(p, s, t, other);
    }
  }

  lemma OneStored(p: Plan, s: RuntimeState, t: RuntimeState, at: nat, j: nat, input: InputState)
    requires Shaped(p, s) && Shaped(p, t) && at < |s.signals| && Agrees(p, s, at) && j < |ConsumersAt(p, at)| && s.signals[at].value.Some?
    requires t.signals == s.signals && InputAt(p, t, ConsumersAt(p, at)[j]) == input
    requires forall q :: q != ConsumersAt(p, at)[j] ==> InputAt(p, t, q) == InputAt(p, s, q)
    ensures Agrees(p, t, at) <==> input == InputState(s.signals[at].value, s.signals[at].observedAt)
  {
    hide InputAt;
    var consumers := ConsumersAt(p, at);
    if input == InputState(s.signals[at].value, s.signals[at].observedAt) {
      forall i | 0 <= i < |consumers| ensures InputAt(p, t, consumers[i]) == input {
        if consumers[i] != consumers[j] { assert InputAt(p, t, consumers[i]) == InputAt(p, s, consumers[i]); }
      }
    }
  }
}
