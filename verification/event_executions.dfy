/** When an event executes, and what each of its executions ran: the root by its
    input, timer or schedule, and every other by the value of a signal. */
module EventExecutions {
  import opened Values
  import opened SignalGraph
  import opened ScheduleRules
  import opened Configuration
  import opened TransientState
  import opened LuaConversion
  import opened Engines
  import opened LogicBlocks
  import opened ScheduleCursors
  import opened Cascades
  import opened CascadeOrder
  import opened PlanFacts
  import opened CascadeSafety
  import opened RuntimeEvents
  import opened RuntimeSafety
  import opened TimerDrain
  import opened CascadeInduction
  import opened HandlerCalls

  // ----- blocks that may run ---------------------------------------------------------------------

  /** The block is enabled, not suspended, and below its rate. */
  ghost predicate MayRun(p: Plan, b: BlockState, now: MonotonicMs) {
    b.enabled && b.health == Active && |LastSecond(b.window, now)| < p.host.limits.maxLiveExecutionsPerBlockPerSecond
  }

  /** The block holds what its execution left; suspending it cancels its timers. */
  ghost predicate Holding(b: BlockState, x: Execution) {
    b.engine.state == x.stateAfter && b.engine.timers == if b.health == Active then x.pendingTimers else map[]
  }

  lemma AdmittedExactly(p: Plan, s: RuntimeState, c: nat, now: MonotonicMs)
    requires Inv(p, s) && c < |s.blocks| && Runnable(s.blocks[c])
    ensures var (b, admitted) := Admit(s.blocks[c], now, p.host.limits.maxLiveExecutionsPerBlockPerSecond);
            && (admitted <==> MayRun(p, s.blocks[c], now))
            && (admitted ==> b.engine == s.blocks[c].engine && b.enabled == s.blocks[c].enabled && b.health == Active)
  {
    BlockAtInv(p, s, c);
    RecentIsLastSecond(s.blocks[c].window, now);
    AdmissionRule(s.blocks[c], now, p.host.limits.maxLiveExecutionsPerBlockPerSecond);
  }

  lemma RecordHolds(b: BlockState, x: Execution)
    requires b.health == Active && b.engine.state == x.stateAfter && b.engine.timers == x.pendingTimers
    ensures Holding(Record(b, x.outcome), x) && Record(b, x.outcome).engine.logic == b.engine.logic
  {
  }

  /** Identity and signal metadata do not matter to what ran. */
  predicate SameRun(x: Execution, y: Execution) {
    y == x.(id := y.id, causalProducer := y.causalProducer, signalEffects := y.signalEffects, eligibleConsumers := y.eligibleConsumers)
  }

  lemma SameRunByInput(host: Host, endpoints: seq<Endpoint>, e: EngineState, name: EndpointName, value: TypedValue, now: MonotonicMs, time: TimeContext,
                       x: Execution, y: Execution)
    requires SameRun(x, y) && RanByInput(host, endpoints, e, name, value, now, time, x)
    ensures RanByInput(host, endpoints, e, name, value, now, time, y)
  {
    hide ShowsAll, Answers, TimersFollow, Overlaid;
  }

  // ----- roots -------------------------------------------------------------------------------------

  /** The root executes exactly if `when`, and then block `c` ran `x` as `ran`
      says and holds what it left. */
  ghost predicate RootRan(root: Root, c: nat, id: BlockId, when: bool, ran: Execution -> bool) {
    && root.result.Ok? && (root.result.value.Some? <==> when)
    && (when ==>
          && c < |root.s.blocks| && root.result.value.value.block == id
          && ran(root.result.value.value.execution) && Holding(root.s.blocks[c], root.result.value.value.execution))
  }

  ghost function ByInputOf(p: Plan, s: RuntimeState, c: nat, endpoint: EndpointName, value: TypedValue, now: MonotonicMs, utc: Option<int>): Execution -> bool
    requires c < |s.blocks| == |p.config.blocks|
  {
    (x: Execution) => RanByInput(p.host, p.config.blocks[c].endpoints, s.blocks[c].engine, endpoint, value, now, Capture(utc), x)
  }

  lemma UpdateBlockRuns(p: Plan, s: RuntimeState, c: nat, endpoint: EndpointName, value: TypedValue, now: MonotonicMs, utc: Option<int>)
    requires Inv(p, s) && !Earlier(s, now) && c < |s.blocks| && ValidateInput(p.config.blocks[c].endpoints, endpoint, value).Ok?
    ensures RootRan(UpdateBlock(p, s, c, endpoint, TriggerWith(value), now, utc), c, p.config.blocks[c].id, MayRun(p, s.blocks[c], now),
                    ByInputOf(p, s, c, endpoint, value, now, utc))
  {
    hide ProcessUpdate, Admit, Record, Ran, Leaves, Tells, EngineInv, LastSecond, SignalsOk;
    var limits, endpoints, b := p.host.limits, p.config.blocks[c].endpoints, s.blocks[c];
    ClockAdvances(p, s, now);
    BlockAtInv(p, At(s, now), c);
    AdmitKeepsInv(limits, endpoints, b, now);
    if Runnable(b) { AdmittedExactly(p, s, c, now); }
    var (ready, admitted) := if Runnable(b) then Admit(b, now, limits.maxLiveExecutionsPerBlockPerSecond) else (b, false);
    var update := if admitted then TriggerWith(value) else Observe(value);
    UpdateKeepsInv(p.host, endpoints, ready.engine, endpoint, update, now, utc);
    UpdateRuns(p.host, endpoints, ready.engine, endpoint, update, now, utc);
    if admitted {
      var step := ProcessUpdate(p.host, endpoints, ready.engine, endpoint, update, now, utc);
      var x := step.result.value.value;
      RecordHolds(ready.(engine := step.engine), x);
      var named := x.(id := Some(s.nextExecutionId), causalProducer := None);
      SameRunByInput(p.host, endpoints, b.engine, endpoint, value, now, Capture(utc), x, named);
      var root := UpdateBlock(p, s, c, endpoint, TriggerWith(value), now, utc);
      assert root.result == Ok(Some(BlockExecution(p.config.blocks[c].id, named)));
    }
  }

  ghost function ByTimerOf(p: Plan, s: RuntimeState, c: nat, n: TimerName, now: MonotonicMs, utc: Option<int>): Execution -> bool
    requires c < |s.blocks| == |p.config.blocks|
  {
    (x: Execution) => RanByTimer(p.host, p.config.blocks[c].endpoints, s.blocks[c].engine, n, now, Capture(utc), x)
  }

  lemma SameRunByTimer(host: Host, endpoints: seq<Endpoint>, e: EngineState, n: TimerName, now: MonotonicMs, time: TimeContext, x: Execution, y: Execution)
    requires SameRun(x, y) && RanByTimer(host, endpoints, e, n, now, time, x)
    ensures RanByTimer(host, endpoints, e, n, now, time, y)
  {
    hide ShowsAll, Answers, TimersFollow, Overlaid;
  }

  lemma FireBlockRuns(p: Plan, s: RuntimeState, c: nat, n: TimerName, now: MonotonicMs, utc: Option<int>)
    requires Inv(p, s) && !Earlier(s, now) && IsFirst(p, s, now, c, n)
    ensures RootRan(FireBlock(p, s, c, now, utc), c, p.config.blocks[c].id, MayRun(p, s.blocks[c], now), ByTimerOf(p, s, c, n, now, utc))
  {
    hide ProcessTimer, Admit, Record, Ran, Leaves, EngineInv, LastSecond, SignalsOk;
    var limits, endpoints, b := p.host.limits, p.config.blocks[c].endpoints, s.blocks[c];
    ClockAdvances(p, s, now);
    BlockAtInv(p, At(s, now), c);
    AdmitKeepsInv(limits, endpoints, b, now);
    AdmittedExactly(p, s, c, now);
    EnginePicksTheSame(p, s, now, c, n);
    var (ready, admitted) := Admit(b, now, limits.maxLiveExecutionsPerBlockPerSecond);
    if admitted {
      TimerKeepsInv(p.host, endpoints, ready.engine, now, utc);
      TimerRuns(p.host, endpoints, ready.engine, now, utc);
      var step := ProcessTimer(p.host, endpoints, ready.engine, now, utc);
      var x := step.result.value.value;
      RecordHolds(ready.(engine := step.engine), x);
      var named := x.(id := Some(s.nextExecutionId), causalProducer := None);
      SameRunByTimer(p.host, endpoints, b.engine, n, now, Capture(utc), x, named);
      assert FireBlock(p, s, c, now, utc).result == Ok(Some(BlockExecution(p.config.blocks[c].id, named)));
    }
  }

  /** `x` answers a schedule trigger, with its instant as the time. */
  ghost predicate RanBySchedule(host: Host, endpoints: seq<Endpoint>, e: EngineState, trigger: ScheduleTrigger, now: MonotonicMs, x: Execution) {
    && x.trigger == BySchedule(trigger)
    && Ran(host, endpoints, e, now, Captured(trigger.scheduledFor), x) && Leaves(e, now, x)
  }

  ghost function ByScheduleOf(p: Plan, s: RuntimeState, c: nat, trigger: ScheduleTrigger, now: MonotonicMs): Execution -> bool
    requires c < |s.blocks| == |p.config.blocks|
  {
    (x: Execution) => RanBySchedule(p.host, p.config.blocks[c].endpoints, s.blocks[c].engine, trigger, now, x)
  }

  lemma SameRunBySchedule(host: Host, endpoints: seq<Endpoint>, e: EngineState, trigger: ScheduleTrigger, now: MonotonicMs, x: Execution, y: Execution)
    requires SameRun(x, y) && RanBySchedule(host, endpoints, e, trigger, now, x)
    ensures RanBySchedule(host, endpoints, e, trigger, now, y)
  {
    hide ShowsAll, Answers, TimersFollow, Overlaid;
  }

  lemma RunScheduleRuns(p: Plan, s: RuntimeState, c: nat, trigger: ScheduleTrigger, now: MonotonicMs)
    requires Inv(p, s) && c < |s.blocks| && Runnable(s.blocks[c])
    ensures RootRan(RunSchedule(p, s, c, trigger, now), c, p.config.blocks[c].id, MayRun(p, s.blocks[c], now), ByScheduleOf(p, s, c, trigger, now))
  {
    hide Evaluate, Admit, Record, Ran, Leaves, EngineInv, LastSecond, SignalsOk;
    var limits, endpoints, b := p.host.limits, p.config.blocks[c].endpoints, s.blocks[c];
    AdmittedExactly(p, s, c, now);
    var (ready, admitted) := Admit(b, now, limits.maxLiveExecutionsPerBlockPerSecond);
    if admitted {
      EvaluateRuns(p.host, endpoints, ready.engine, BySchedule(trigger), now, Some(trigger.scheduledFor));
      var (engine, x) := Evaluate(p.host, endpoints, ready.engine, BySchedule(trigger), now, Some(trigger.scheduledFor));
      RecordHolds(ready.(engine := engine), x);
      var named := x.(id := Some(s.nextExecutionId), causalProducer := None);
      SameRunBySchedule(p.host, endpoints, b.engine, trigger, now, x, named);
      assert RunSchedule(p, s, c, trigger, now).result == Ok(Some(BlockExecution(p.config.blocks[c].id, named)));
    }
  }

  // ----- the executions of a cascade ----------------------------------------------------------------------

  /** A delivery executes exactly if the consumer may run, on the value it is
      handed. */
  lemma HandToRuns(p: Plan, s: RuntimeState, c: nat, endpoint: EndpointName, value: TypedValue, now: MonotonicMs, utc: Option<int>)
    requires Inv(p, s) && s.lastAcceptedAt == Some(now) && c < |s.blocks| && Takes(p, c, endpoint, value)
    ensures var d := HandTo(p, s, c, endpoint, value, now, utc);
            && !d.Refused? && (d.Executed? <==> MayRun(p, s.blocks[c], now))
            && (d.Executed? ==> ByInputOf(p, s, c, endpoint, value, now, utc)(d.execution) && Holding(d.s.blocks[c], d.execution))
  {
    hide ProcessUpdate, Admit, Record, RanByInput, EngineInv, LastSecond, SignalsOk, Evolves, ExecutionOk, Takes;
    HandToSafe(p, s, c, endpoint, value, now, utc);
    if Runnable(s.blocks[c]) {
      AdmittedExactly(p, s, c, now);
      var ready := Admit(s.blocks[c], now, p.host.limits.maxLiveExecutionsPerBlockPerSecond).0;
      if MayRun(p, s.blocks[c], now) {
        UpdateRuns(p.host, p.config.blocks[c].endpoints, ready.engine, endpoint, TriggerWith(value), now, utc);
        var step := ProcessUpdate(p.host, p.config.blocks[c].endpoints, ready.engine, endpoint, TriggerWith(value), now, utc);
        if step.result.Ok? { RecordHolds(ready.(engine := step.engine), step.result.value.value); }
      }
    }
  }

  ghost predicate SamePrograms(s: RuntimeState, t: RuntimeState) {
    |t.blocks| == |s.blocks| && forall c :: 0 <= c < |s.blocks| ==> t.blocks[c].engine.logic == s.blocks[c].engine.logic
  }

  ghost predicate GenuineAt(p: Plan, s: RuntimeState, now: MonotonicMs, time: TimeContext, x: BlockExecution, c: nat, e: EngineState) {
    && c < |s.blocks| == |p.config.blocks| && p.config.blocks[c].id == x.block && e.logic == s.blocks[c].engine.logic
    && x.execution.trigger.ByInput?
    && RanByInput(p.host, p.config.blocks[c].endpoints, e, x.execution.trigger.input.endpoint, x.execution.trigger.input.value, now, time, x.execution)
  }

  /** The execution ran the program its block has in `s`, on some state of that
      block's engine. */
  ghost predicate Genuine(p: Plan, s: RuntimeState, now: MonotonicMs, time: TimeContext, x: BlockExecution) {
    exists c: nat, e :: GenuineAt(p, s, now, time, x, c, e)
  }

  /** An execution that another one caused. */
  ghost function CausedGenuine(p: Plan, s: RuntimeState, now: MonotonicMs, time: TimeContext): BlockExecution -> bool {
    (x: BlockExecution) => x.execution.causalProducer.Some? ==> Genuine(p, s, now, time, x)
  }

  ghost function ProgramsOf(s: RuntimeState): RuntimeState -> bool { (t: RuntimeState) => SamePrograms(s, t) }

  lemma UpdateKeepsProgram(host: Host, endpoints: seq<Endpoint>, e: EngineState, name: EndpointName, update: InputUpdate, now: MonotonicMs, utc: Option<int>)
    requires |e.inputs| == |endpoints|
    ensures ProcessUpdate(host, endpoints, e, name, update, now, utc).engine.logic == e.logic
  {
    hide ExecuteLogic;
  }

  lemma DeliveriesKeepPrograms(p: Plan, s: RuntimeState, c: nat, endpoint: EndpointName, value: TypedValue, now: MonotonicMs, utc: Option<int>)
    requires Shaped(p, s) && c < |s.blocks|
    ensures SamePrograms(s, ObserveAt(p, s, c, endpoint, value, now).s) && SamePrograms(s, HandTo(p, s, c, endpoint, value, now, utc).s)
  {
    hide ProcessUpdate;
    var endpoints, e := p.config.blocks[c].endpoints, s.blocks[c].engine;
    UpdateKeepsProgram(p.host, endpoints, e, endpoint, Observe(value), now, None);
    var ready := Admit(s.blocks[c], now, p.host.limits.maxLiveExecutionsPerBlockPerSecond).0;
    UpdateKeepsProgram(p.host, endpoints, ready.engine, endpoint, Observe(value), now, None);
    UpdateKeepsProgram(p.host, endpoints, ready.engine, endpoint, TriggerWith(value), now, utc);
  }

  lemma ProgramsKept(p: Plan, s: RuntimeState, now: MonotonicMs, utc: Option<int>)
    ensures Keeps(p, now, utc, ProgramsOf(s))
  {
    hide HandTo, ObserveAt;
    forall t, c: nat, endpoint, value | Shaped(p, t) && c < |t.blocks|
      ensures SamePrograms(t, ObserveAt(p, t, c, endpoint, value, now).s) && SamePrograms(t, HandTo(p, t, c, endpoint, value, now, utc).s)
    {
      DeliveriesKeepPrograms(p, t, c, endpoint, value, now, utc);
    }
  }

  lemma DeliveryIsGenuine(p: Plan, s: RuntimeState, t: RuntimeState, c: nat, endpoint: EndpointName, value: TypedValue, cause: Option<nat>,
                          now: MonotonicMs, utc: Option<int>)
    requires Shaped(p, t) && SamePrograms(s, t) && c < |t.blocks| && HandTo(p, t, c, endpoint, value, now, utc).Executed?
    ensures var d := HandTo(p, t, c, endpoint, value, now, utc);
            Genuine(p, s, now, Capture(utc), BlockExecution(p.config.blocks[c].id, AssignId(d.s, d.execution, cause).1))
  {
    hide ProcessUpdate, RanByInput, Genuine;
    var ready := Admit(t.blocks[c], now, p.host.limits.maxLiveExecutionsPerBlockPerSecond).0;
    var e, endpoints := ready.engine, p.config.blocks[c].endpoints;
    UpdateRuns(p.host, endpoints, e, endpoint, TriggerWith(value), now, utc);
    var d := HandTo(p, t, c, endpoint, value, now, utc);
    var x := AssignId(d.s, d.execution, cause).1;
    SameRunByInput(p.host, endpoints, e, endpoint, value, now, Capture(utc), d.execution, x);
    InputTold(p.host, endpoints, e, endpoint, value, now, Capture(utc), x);
    GenuineIs(p, s, now, Capture(utc), BlockExecution(p.config.blocks[c].id, x), c, e);
  }

  lemma InputTold(host: Host, endpoints: seq<Endpoint>, e: EngineState, name: EndpointName, value: TypedValue, now: MonotonicMs, time: TimeContext, x: Execution)
    requires RanByInput(host, endpoints, e, name, value, now, time, x)
    ensures x.trigger.ByInput? && x.trigger.input.endpoint == name && x.trigger.input.value == value
  {
  }

  lemma GenuineIs(p: Plan, s: RuntimeState, now: MonotonicMs, time: TimeContext, x: BlockExecution, c: nat, e: EngineState)
    requires GenuineAt(p, s, now, time, x, c, e)
    ensures Genuine(p, s, now, time, x)
  {
  }

  lemma AnnotatedGenuine(p: Plan, s: RuntimeState, now: MonotonicMs, time: TimeContext, x: BlockExecution, y: BlockExecution)
    requires Genuine(p, s, now, time, x) && y.block == x.block && SameRun(x.execution, y.execution)
    ensures Genuine(p, s, now, time, y)
  {
    hide RanByInput;
    var c: nat, e :| GenuineAt(p, s, now, time, x, c, e);
    var t := x.execution.trigger.input;
    SameRunByInput(p.host, p.config.blocks[c].endpoints, e, t.endpoint, t.value, now, time, x.execution, y.execution);
    assert GenuineAt(p, s, now, time, y, c, e);
  }

  lemma DeliveriesAreGenuine(p: Plan, s: RuntimeState, now: MonotonicMs, utc: Option<int>)
    ensures Starts(p, now, utc, ProgramsOf(s), CausedGenuine(p, s, now, Capture(utc)))
  {
    hide HandTo, Genuine, SamePrograms;
    forall t, c: nat, endpoint, value, cause
      | Shaped(p, t) && SamePrograms(s, t) && c < |t.blocks| && HandTo(p, t, c, endpoint, value, now, utc).Executed?
      ensures var d := HandTo(p, t, c, endpoint, value, now, utc);
              Genuine(p, s, now, Capture(utc), BlockExecution(p.config.blocks[c].id, AssignId(d.s, d.execution, cause).1))
    {
      DeliveryIsGenuine(p, s, t, c, endpoint, value, cause, now, utc);
    }
    forall execs: seq<BlockExecution>, k: nat, effect, eligible | k < |execs| && Genuine(p, s, now, Capture(utc), execs[k])
      ensures Genuine(p, s, now, Capture(utc), Annotate(execs, k, effect, eligible)[k])
    {
      AnnotatedGenuine(p, s, now, Capture(utc), execs[k], Annotate(execs, k, effect, eligible)[k]);
    }
  }

  /** Every execution a followed root leads to ran its block's program on a
      state of its block, with the value of a signal as its trigger. */
  lemma CascadeIsGenuine(p: Plan, s: RuntimeState, x: BlockExecution, now: MonotonicMs, utc: Option<int>)
    requires Shaped(p, s) && Known(p, x.block) && x.execution.causalProducer.None?
    ensures var o := Propagate(p, s, [x], 0, now, utc);
            && SamePrograms(s, o.s)
            && forall i :: 0 <= i < |o.execs| && o.execs[i].execution.causalProducer.Some? ==> Genuine(p, s, now, Capture(utc), o.execs[i])
  {
    hide Propagate, Keeps, Starts, Genuine;
    ProgramsKept(p, s, now, utc);
    DeliveriesAreGenuine(p, s, now, utc);
    assert [x][0] == x;
    PropagateHolds(p, s, [x], 0, now, utc, ProgramsOf(s), CausedGenuine(p, s, now, Capture(utc)));
  }

  // ----- whole events ---------------------------------------------------------------------------------------

  /** The event fails only for a budget. Otherwise it executes exactly if `when`:
      its root is what the block ran, and every other execution was caused by one
      of them and is genuine. */
  ghost predicate EventRan(p: Plan, s: RuntimeState, r: EventResult, id: BlockId, when: bool, ran: Execution -> bool, now: MonotonicMs, utc: Option<int>) {
    if r.result.Err? then when && r.result.error.ResourceLimit?
    else
      && (r.result.value != [] <==> when)
      && (when ==>
            && r.result.value[0].block == id && ran(r.result.value[0].execution) && r.result.value[0].execution.causalProducer.None?
            && forall i :: 1 <= i < |r.result.value| ==>
                 r.result.value[i].execution.causalProducer.Some? && Genuine(p, s, now, Capture(utc), r.result.value[i]))
  }

  /** `ran` does not depend on identity and signal metadata. */
  ghost predicate OfRun(ran: Execution -> bool) { forall x, y :: SameRun(x, y) && ran(x) ==> ran(y) }

  lemma {:induction false} CausedInForest(cause: Option<nat>, eligible: seq<EndpointRef>, xs: seq<BlockExecution>, i: nat)
    requires Forest(cause, eligible, xs) && i < |xs| && cause.Some? && (forall j :: 0 <= j < |xs| ==> xs[j].execution.id.Some?)
    ensures xs[i].execution.causalProducer.Some?
    decreases |xs|
  {
    var m := FirstSubtree(cause, eligible, xs);
    if i >= m {
      CausedInForest(cause, eligible, xs[m..], i - m);
    } else if i > 0 {
      CausedInForest(xs[0].execution.id, xs[0].execution.eligibleConsumers, xs[1..m], i - 1);
    }
  }

  /** The root keeps what it ran, and everything after it has a cause. */
  lemma FollowedShape(p: Plan, s: RuntimeState, x: BlockExecution, now: MonotonicMs, utc: Option<int>)
    requires Shaped(p, s) && Known(p, x.block) && s.nextExecutionId <= U64_MAX && x.execution.id.Some? && x.execution.causalProducer.None?
    ensures var o := Propagate(p, s, [x], 0, now, utc);
            && o.execs != [] && o.execs[0].block == x.block && SameRun(x.execution, o.execs[0].execution) && o.execs[0].execution.causalProducer.None?
            && forall i :: 1 <= i < |o.execs| ==> o.execs[i].execution.causalProducer.Some?
  {
    hide Propagate, Forest, Numbered;
    assert [x][0] == x;
    PropagateOrder(p, s, [x], 0, now, utc);
    var o := Propagate(p, s, [x], 0, now, utc);
    var rest := o.execs[1..];
    NumberedHaveIds(rest, s.nextExecutionId);
    forall i | 1 <= i < |o.execs| ensures o.execs[i].execution.causalProducer.Some? {
      CausedInForest(x.execution.id, o.execs[0].execution.eligibleConsumers, rest, i - 1);
    }
  }

  lemma NumberedHaveIds(xs: seq<BlockExecution>, first: nat)
    requires Numbered(xs, first)
    ensures forall j :: 0 <= j < |xs| ==> xs[j].execution.id.Some?
  {
  }

  lemma EventRuns(p: Plan, rank: BlockId -> nat, s: RuntimeState, root: Root, restores: bool, c: nat, id: BlockId, when: bool, ran: Execution -> bool,
                  now: MonotonicMs, utc: Option<int>)
    requires SoundPlan(p, rank) && FullInv(p, s) && RootSafe(p, s, root, now) && Shaped(p, root.s) && TakesNextIdentity(s, root)
    requires root.result.Ok? && root.result.value.Some? ==> Known(p, root.result.value.value.block)
    requires RootRan(root, c, id, when, ran) && OfRun(ran)
    ensures EventRan(p, s, RunEvent(p, s, root, restores, now, utc), id, when, ran, now, utc)
  {
    hide SoundPlan, Propagate, SourceTotal, StateTotal, TimersTotal, Genuine, SameRun, BlocksOk, SignalsOk, ExecutionOk;
    if when {
      var x := root.result.value.value;
      FollowSafe(p, rank, s, root.s, x, now, utc);
      FollowedShape(p, root.s, x, now, utc);
      CascadeIsGenuine(p, root.s, x, now, utc);
      ProgramsAgree(p, s, root.s, now);
      var o := Propagate(p, root.s, [x], 0, now, utc);
      forall i | 1 <= i < |o.execs| ensures Genuine(p, s, now, Capture(utc), o.execs[i]) {
        GenuineElsewhere(p, root.s, s, now, Capture(utc), o.execs[i]);
      }
    }
  }

  lemma ProgramsAgree(p: Plan, s: RuntimeState, t: RuntimeState, now: MonotonicMs)
    requires Shaped(p, s) && Evolves(p, s, t, now)
    ensures SamePrograms(s, t) && SamePrograms(t, s)
  {
    forall c | 0 <= c < |s.blocks| ensures t.blocks[c].engine.logic == s.blocks[c].engine.logic {
      assert BlockEvolves(s.blocks[c], t.blocks[c], now);
    }
  }

  lemma GenuineElsewhere(p: Plan, s: RuntimeState, t: RuntimeState, now: MonotonicMs, time: TimeContext, x: BlockExecution)
    requires Genuine(p, s, now, time, x) && SamePrograms(s, t)
    ensures Genuine(p, t, now, time, x)
  {
    hide RanByInput;
    var c: nat, e :| GenuineAt(p, s, now, time, x, c, e);
    assert GenuineAt(p, t, now, time, x, c, e);
  }

  /** An input that triggers its block executes exactly if the block may run. */
  lemma InputEventRuns(p: Plan, rank: BlockId -> nat, s: RuntimeState, c: nat, endpoint: EndpointName, value: TypedValue, now: MonotonicMs, utc: Option<int>)
    requires SoundPlan(p, rank) && FullInv(p, s) && c < |s.blocks| && !Earlier(s, now)
    requires ValidateInput(p.config.blocks[c].endpoints, endpoint, value).Ok?
    ensures var id := p.config.blocks[c].id;
            EventRan(p, s, InputEvent(p, s, id, endpoint, TriggerWith(value), now, utc), id, MayRun(p, s.blocks[c], now),
                     ByInputOf(p, s, c, endpoint, value, now, utc), now, utc)
  {
    hide UpdateBlock, RunEvent, BlocksOk, SignalsOk, StateTotal, TimersTotal, RootSafe, RootRan, EventRan, MayRun, RanByInput, Ranks, CascadesWithin, BlockAccepted;
    var id, endpoints := p.config.blocks[c].id, p.config.blocks[c].endpoints;
    BlockAt(p, c);
    RootsAreKnown(p, s);
    UpdateRootSafe(p, s, id, endpoint, TriggerWith(value), now, utc);
    UpdateRootIdentity(p, s, id, endpoint, TriggerWith(value), now, utc);
    UpdateBlockRuns(p, s, c, endpoint, value, now, utc);
    forall x, y | SameRun(x, y) && ByInputOf(p, s, c, endpoint, value, now, utc)(x) ensures ByInputOf(p, s, c, endpoint, value, now, utc)(y) {
      SameRunByInput(p.host, endpoints, s.blocks[c].engine, endpoint, value, now, Capture(utc), x, y);
    }
    EventRuns(p, rank, s, UpdateRoot(p, s, id, endpoint, TriggerWith(value), now, utc), true, c, id, MayRun(p, s.blocks[c], now),
              ByInputOf(p, s, c, endpoint, value, now, utc), now, utc);
  }

  /** The root of a block that may not run only observes the value. */
  lemma RootObserves(p: Plan, s: RuntimeState, c: nat, endpoint: EndpointName, value: TypedValue, now: MonotonicMs, utc: Option<int>)
    requires Inv(p, s) && c < |s.blocks| && !Earlier(s, now) && !MayRun(p, s.blocks[c], now)
    requires ValidateInput(p.config.blocks[c].endpoints, endpoint, value).Ok?
    ensures var root, e := UpdateBlock(p, s, c, endpoint, TriggerWith(value), now, utc), s.blocks[c].engine;
            var at := EndpointPosition(p.config.blocks[c].endpoints, endpoint);
            && root.result == Ok(None) && at.Some? && root.s.blocks[c].engine.inputs == e.inputs[at.value := InputState(Some(value), Some(now))]
            && root.s.blocks[c].engine.state == e.state && root.s.signals == s.signals
            && forall i :: 0 <= i < |s.blocks| && i != c ==> root.s.blocks[i] == s.blocks[i]
  {
    hide Evaluate, Admit, SignalsOk, MayRun, EngineInv, WindowOk, HealthOk;
    EngineNotAhead(p, s, c, now);
    if Runnable(s.blocks[c]) {
      AdmittedExactly(p, s, c, now);
      AdmitKeepsStored(s.blocks[c], now, p.host.limits.maxLiveExecutionsPerBlockPerSecond);
    }
  }

  lemma EngineNotAhead(p: Plan, s: RuntimeState, c: nat, now: MonotonicMs)
    requires Inv(p, s) && c < |s.blocks| && !Earlier(s, now)
    ensures NotAfter(s.blocks[c].engine.lastAcceptedAt, Some(now))
  {
    hide SignalsOk;
    BlockAtInv(p, s, c);
  }

  /** A block that may not run only observes the triggering value. */
  lemma InputEventObserves(p: Plan, s: RuntimeState, c: nat, endpoint: EndpointName, value: TypedValue, now: MonotonicMs, utc: Option<int>)
    requires DistinctBlocks(p.config.blocks) && Inv(p, s) && c < |s.blocks| && !Earlier(s, now) && !MayRun(p, s.blocks[c], now)
    requires ValidateInput(p.config.blocks[c].endpoints, endpoint, value).Ok?
    ensures var r, e := InputEvent(p, s, p.config.blocks[c].id, endpoint, TriggerWith(value), now, utc), s.blocks[c].engine;
            var at := EndpointPosition(p.config.blocks[c].endpoints, endpoint);
            && r.result == Ok([]) && at.Some? && r.s.blocks[c].engine.inputs == e.inputs[at.value := InputState(Some(value), Some(now))]
            && r.s.blocks[c].engine.state == e.state && r.s.signals == s.signals
            && forall i :: 0 <= i < |s.blocks| && i != c ==> r.s.blocks[i] == s.blocks[i]
  {
    hide UpdateBlock, Follow, BlocksOk, SignalsOk, MayRun;
    BlockAt(p, c);
    RootsAreKnown(p, s);
    RootObserves(p, s, c, endpoint, value, now, utc);
  }

  lemma AdmitKeepsStored(b: BlockState, now: MonotonicMs, maximum: nat)
    ensures var after := Admit(b, now, maximum).0.engine;
            after.inputs == b.engine.inputs && after.state == b.engine.state && after.lastAcceptedAt == b.engine.lastAcceptedAt
  {
  }

  /** An input event is rejected, and changes nothing, for an unknown block, an
      endpoint that is missing, is no input or has another type, or an earlier
      clock, in this order; the answer tells which. */
  lemma InputEventRejected(p: Plan, s: RuntimeState, id: BlockId, endpoint: EndpointName, update: InputUpdate, now: MonotonicMs, utc: Option<int>)
    requires Inv(p, s) && DistinctBlocks(p.config.blocks)
    ensures var r := InputEvent(p, s, id, endpoint, update, now, utc);
            && (!Known(p, id) ==> r == EventResult(s, Err(UnknownBlock(id))))
            && (Known(p, id) ==>
                  var endpoints := ConfigOf(p, id).endpoints;
                  var at := EndpointPosition(endpoints, endpoint);
                  && (at.None? ==> r == EventResult(s, Err(BlockError(id, UnknownEndpoint(endpoint)))))
                  && (at.Some? ==>
                        && (endpoints[at.value].direction == Output ==> r == EventResult(s, Err(BlockError(id, EndpointNotInput(endpoint)))))
                        && (endpoints[at.value].direction == Input && !update.Invalidate? && endpoints[at.value].dpt != update.value.GetDpt() ==>
                              r == EventResult(s, Err(BlockError(id, DptMismatch(endpoint, endpoints[at.value].dpt, update.value.GetDpt())))))
                        && (ValidateUpdate(endpoints, endpoint, update).Ok? && s.lastAcceptedAt.Some? && now < s.lastAcceptedAt.value ==>
                              r == EventResult(s, Err(TimeWentBackwards(Some(id), s.lastAcceptedAt.value, now))))))
  {
    hide UpdateBlock, Follow;
    RootsAreKnown(p, s);
  }

  /** A timer or schedule event is rejected, and changes nothing, only for an
      earlier clock. */
  lemma ClockRejects(p: Plan, s: RuntimeState, trigger: ScheduleTrigger, now: MonotonicMs, utc: Option<int>)
    requires Inv(p, s) && DistinctBlocks(p.config.blocks) && s.lastAcceptedAt.Some? && now < s.lastAcceptedAt.value
    ensures TimerEvent(p, s, now, utc) == EventResult(s, Err(TimeWentBackwards(None, s.lastAcceptedAt.value, now)))
    ensures ScheduleEvent(p, s, trigger, now, utc) == EventResult(s, Err(TimeWentBackwards(None, s.lastAcceptedAt.value, now)))
  {
    hide FireBlock, RunSchedule, Follow;
    RootsAreKnown(p, s);
  }

  /** An input that only observes, or is cleared, executes nothing. It replaces
      the stored input, and an invalidated one holds no value. */
  lemma QuietInputEvent(p: Plan, s: RuntimeState, c: nat, endpoint: EndpointName, update: InputUpdate, now: MonotonicMs, utc: Option<int>)
    requires DistinctBlocks(p.config.blocks) && Inv(p, s) && c < |s.blocks| && !Earlier(s, now) && !update.TriggerWith?
    requires ValidateUpdate(p.config.blocks[c].endpoints, endpoint, update).Ok?
    ensures var r, e := InputEvent(p, s, p.config.blocks[c].id, endpoint, update, now, utc), s.blocks[c].engine;
            var at := EndpointPosition(p.config.blocks[c].endpoints, endpoint);
            && r.result == Ok([]) && at.Some?
            && r.s.blocks[c].engine.inputs == e.inputs[at.value := if update.Invalidate? then InputState(None, None) else InputState(Some(update.value), Some(now))]
            && r.s.blocks[c].engine.state == e.state && r.s.blocks[c].engine.timers == e.timers
            && r.s.signals == s.signals && forall i :: 0 <= i < |s.blocks| && i != c ==> r.s.blocks[i] == s.blocks[i]
  {
    hide Evaluate, Follow, BlocksOk, SignalsOk;
    BlockAt(p, c);
    EngineNotAhead(p, s, c, now);
  }

  /** A timer event runs the first due timer exactly if its block may run. */
  lemma TimerEventRuns(p: Plan, rank: BlockId -> nat, s: RuntimeState, c: nat, n: TimerName, now: MonotonicMs, utc: Option<int>)
    requires SoundPlan(p, rank) && FullInv(p, s) && !Earlier(s, now) && IsFirst(p, s, now, c, n)
    ensures EventRan(p, s, TimerEvent(p, s, now, utc), p.config.blocks[c].id, MayRun(p, s.blocks[c], now), ByTimerOf(p, s, c, n, now, utc), now, utc)
  {
    hide FireBlock, RunEvent, BlocksOk, SignalsOk, StateTotal, TimersTotal, RootSafe, RootRan, EventRan, MayRun, RanByTimer, Ranks, CascadesWithin, BlockAccepted;
    FirstBlockIs(p, s, now, c, n);
    RootsAreKnown(p, s);
    TimerRootSafe(p, s, now, utc);
    TimerRootIdentity(p, s, now, utc);
    FireBlockRuns(p, s, c, n, now, utc);
    forall x, y | SameRun(x, y) && ByTimerOf(p, s, c, n, now, utc)(x) ensures ByTimerOf(p, s, c, n, now, utc)(y) {
      SameRunByTimer(p.host, p.config.blocks[c].endpoints, s.blocks[c].engine, n, now, Capture(utc), x, y);
    }
    EventRuns(p, rank, s, TimerRoot(p, s, now, utc), false, c, p.config.blocks[c].id, MayRun(p, s.blocks[c], now), ByTimerOf(p, s, c, n, now, utc), now, utc);
  }

  /** The trigger names an enabled schedule of block `c`, and was delivered under
      the revision its cursor has now. */
  ghost predicate Current(p: Plan, s: RuntimeState, c: nat, trigger: ScheduleTrigger) {
    && c < |p.config.blocks|
    && (exists j :: 0 <= j < |p.config.blocks[c].schedules| && p.config.blocks[c].schedules[j].name == trigger.name && p.config.blocks[c].schedules[j].enabled)
    && (trigger.block, trigger.name) in s.schedules.cursors
    && s.schedules.cursors[(trigger.block, trigger.name)].structuralRevision == trigger.structuralRevision
  }

  lemma {:induction false} ScheduleAt(schedules: seq<BlockSchedule>, j: nat)
    requires j < |schedules| && forall i, k :: 0 <= i < k < |schedules| ==> schedules[i].name != schedules[k].name
    ensures SchedulePosition(schedules, schedules[j].name) == Some(j)
    decreases j
  {
    if j > 0 {
      var rest := schedules[1..];
      assert rest[j - 1] == schedules[j];
      ScheduleAt(rest, j - 1);
    }
  }

  lemma CurrentMeans(p: Plan, s: RuntimeState, c: nat, trigger: ScheduleTrigger)
    requires Shaped(p, s) && c < |s.blocks| && DistinctSchedules(p.config.blocks[c].schedules)
    ensures TriggerCurrent(p, s, c, trigger) <==> s.blocks[c].enabled && s.blocks[c].health == Active && Current(p, s, c, trigger)
  {
    var schedules := p.config.blocks[c].schedules;
    if j :| 0 <= j < |schedules| && schedules[j].name == trigger.name { ScheduleAt(schedules, j); }
  }

  lemma ScheduleRootRuns(p: Plan, s: RuntimeState, c: nat, trigger: ScheduleTrigger, now: MonotonicMs)
    requires Inv(p, s) && !Earlier(s, now) && BlockPosition(p.config.blocks, trigger.block) == Some(c) && DistinctSchedules(p.config.blocks[c].schedules)
    ensures RootRan(ScheduleRoot(p, s, trigger, now), c, trigger.block, MayRun(p, s.blocks[c], now) && Current(p, s, c, trigger), ByScheduleOf(p, s, c, trigger, now))
  {
    hide RunSchedule, BlocksOk, SignalsOk, RanBySchedule, TriggerCurrent, LastSecond;
    ClockAdvances(p, s, now);
    CurrentMeans(p, At(s, now), c, trigger);
    if TriggerCurrent(p, At(s, now), c, trigger) {
      hide MayRun, RootRan, Current;
      RunScheduleRuns(p, At(s, now), c, trigger, now);
    }
  }

  /** A schedule event runs its trigger exactly if the block may run and the
      trigger is current. */
  lemma ScheduleEventRuns(p: Plan, rank: BlockId -> nat, s: RuntimeState, c: nat, trigger: ScheduleTrigger, now: MonotonicMs, utc: Option<int>)
    requires SoundPlan(p, rank) && FullInv(p, s) && !Earlier(s, now) && BlockPosition(p.config.blocks, trigger.block) == Some(c)
    ensures EventRan(p, s, ScheduleEvent(p, s, trigger, now, utc), trigger.block, MayRun(p, s.blocks[c], now) && Current(p, s, c, trigger),
                     ByScheduleOf(p, s, c, trigger, now), now, utc)
  {
    BlockChecked(p, c);
    hide ScheduleRoot, RunEvent, BlocksOk, SignalsOk, StateTotal, TimersTotal, RootSafe, RootRan, EventRan, MayRun, RanBySchedule, Ranks, CascadesWithin, Current;
    RootsAreKnown(p, s);
    ScheduleRootSafe(p, s, trigger, now);
    ScheduleRootIdentity(p, s, trigger, now);
    ScheduleRootRuns(p, s, c, trigger, now);
    forall x, y | SameRun(x, y) && ByScheduleOf(p, s, c, trigger, now)(x) ensures ByScheduleOf(p, s, c, trigger, now)(y) {
      SameRunBySchedule(p.host, p.config.blocks[c].endpoints, s.blocks[c].engine, trigger, now, x, y);
    }
    EventRuns(p, rank, s, ScheduleRoot(p, s, trigger, now), false, c, trigger.block, MayRun(p, s.blocks[c], now) && Current(p, s, c, trigger),
              ByScheduleOf(p, s, c, trigger, now), now, utc);
  }
}
