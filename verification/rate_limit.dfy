/** The rate limit over whole runs: within any second, and unless its window is
    cleared in between, a block starts no more executions than its limit. */
module RateLimit {
  import opened Values
  import opened SignalGraph
  import opened Configuration
  import opened LuaConversion
  import opened Engines
  import opened LogicBlocks
  import opened ScheduleCursors
  import opened Cascades
  import opened PlanFacts
  import opened RuntimeEvents
  import opened SchedulePolling
  import opened RuntimeRuns

  // ----- counting --------------------------------------------------------------------------------

  /** Starts not before `from`. */
  function Recent(window: seq<MonotonicMs>, from: MonotonicMs): nat {
    if window == [] then 0
    else Recent(window[..|window| - 1], from) + if window[|window| - 1] >= from then 1 else 0
  }

  /** How many of the executions ran a block. */
  function Executions(execs: seq<BlockExecution>, id: BlockId): nat {
    if execs == [] then 0
    else Executions(execs[..|execs| - 1], id) + if execs[|execs| - 1].block == id then 1 else 0
  }

  lemma {:induction false} RecentAtMost(window: seq<MonotonicMs>, from: MonotonicMs)
    ensures Recent(window, from) <= |window|
    decreases |window|
  {
    if window != [] { RecentAtMost(window[..|window| - 1], from); }
  }

  lemma RecentAppends(window: seq<MonotonicMs>, now: MonotonicMs, from: MonotonicMs)
    ensures Recent(window + [now], from) == Recent(window, from) + if now >= from then 1 else 0
  {
    assert (window + [now])[..|window|] == window;
  }

  /** Starts that left the window are not recent. */
  lemma {:induction false} RecentAfterPruning(window: seq<MonotonicMs>, n: nat, from: MonotonicMs)
    requires n <= |window| && forall i :: 0 <= i < n ==> window[i] < from
    ensures Recent(window[n..], from) == Recent(window, from)
    decreases |window|
  {
    if n == |window| {
      if n > 0 {
        RecentAfterPruning(window[..n - 1], n - 1, from);
        assert window[..n - 1][n - 1..] == [] && window[n..] == [];
      }
    } else {
      RecentAfterPruning(window[..|window| - 1], n, from);
      assert window[n..][..|window| - n - 1] == window[..|window| - 1][n..];
    }
  }

  lemma ExecutionsAppend(execs: seq<BlockExecution>, x: BlockExecution, id: BlockId)
    ensures Executions(execs + [x], id) == Executions(execs, id) + if x.block == id then 1 else 0
  {
    assert (execs + [x])[..|execs|] == execs;
  }

  /** Only the blocks matter. */
  lemma {:induction false} ExecutionsOfBlocks(a: seq<BlockExecution>, b: seq<BlockExecution>, id: BlockId)
    requires |a| == |b| && forall i :: 0 <= i < |a| ==> a[i].block == b[i].block
    ensures Executions(a, id) == Executions(b, id)
    decreases |a|
  {
    if a != [] { ExecutionsOfBlocks(a[..|a| - 1], b[..|b| - 1], id); }
  }

  // ----- one block ---------------------------------------------------------------------------------

  /** A second that began at `from`. */
  predicate During(from: MonotonicMs, now: MonotonicMs) { from <= now < from + RATE_WINDOW_MS }

  /** `count` executions since `from` respect the limit, and while the block is
      active its window still holds them. */
  predicate Within(b: BlockState, count: nat, from: MonotonicMs, maximum: nat) {
    count <= maximum && (b.health == Active ==> count <= Recent(b.window, from))
  }

  lemma AdmitCounts(b: BlockState, count: nat, from: MonotonicMs, now: MonotonicMs, maximum: nat)
    requires Within(b, count, from, maximum) && During(from, now)
    ensures var (after, admitted) := Admit(b, now, maximum); Within(after, count + if admitted then 1 else 0, from, maximum)
  {
    if b.health == Active {
      var n := LeadingExpired(b.window, now);
      var window := Pruned(b.window, now);
      RecentAfterPruning(b.window, n, from);
      RecentAppends(window, now, from);
      RecentAtMost(window + [now], from);
    }
  }

  // ----- one delivery ----------------------------------------------------------------------------------

  /** A block of the plan, a second, and the executions counted in it so far. */
  datatype Watch = Watch(c: nat, from: MonotonicMs)

  ghost predicate Respects(p: Plan, s: RuntimeState, w: Watch, count: nat) {
    w.c < |s.blocks| && Within(s.blocks[w.c], count, w.from, p.host.limits.maxLiveExecutionsPerBlockPerSecond)
  }

  lemma HandToCounts(p: Plan, s: RuntimeState, c: nat, endpoint: EndpointName, value: TypedValue, now: MonotonicMs, utc: Option<int>, w: Watch, count: nat)
    requires Shaped(p, s) && c < |s.blocks| && Respects(p, s, w, count) && During(w.from, now)
    ensures var d := HandTo(p, s, c, endpoint, value, now, utc); Respects(p, d.s, w, count + if d.Executed? && c == w.c then 1 else 0)
  {
    hide ProcessUpdate, Admit, Recent;
    if c == w.c { AdmitCounts(s.blocks[c], count, w.from, now, p.host.limits.maxLiveExecutionsPerBlockPerSecond); }
  }

  lemma ObserveAtCounts(p: Plan, s: RuntimeState, c: nat, endpoint: EndpointName, value: TypedValue, now: MonotonicMs, w: Watch, count: nat)
    requires Shaped(p, s) && c < |s.blocks| && Respects(p, s, w, count)
    ensures Respects(p, ObserveAt(p, s, c, endpoint, value, now).s, w, count)
  {
    hide ProcessUpdate;
  }

  // ----- a cascade ------------------------------------------------------------------------------------

  ghost function BlockOf(p: Plan, w: Watch): BlockId
    requires w.c < |p.config.blocks|
  {
    p.config.blocks[w.c].id
  }

  /** Every execution a cascade adds is counted. */
  ghost predicate CountedFrom(p: Plan, s: RuntimeState, execs: seq<BlockExecution>, o: Outcome, w: Watch, count: nat)
    requires w.c < |p.config.blocks|
  {
    var before, after := Executions(execs, BlockOf(p, w)), Executions(o.execs, BlockOf(p, w));
    before <= after && Respects(p, o.s, w, count + (after - before))
  }

  ghost predicate Watched(p: Plan, s: RuntimeState, w: Watch, count: nat, now: MonotonicMs) {
    Shaped(p, s) && DistinctBlocks(p.config.blocks) && Respects(p, s, w, count) && During(w.from, now)
  }

  lemma {:induction false} PropagateCounts(p: Plan, s: RuntimeState, execs: seq<BlockExecution>, k: nat, now: MonotonicMs, utc: Option<int>, w: Watch, count: nat)
    requires Watched(p, s, w, count, now) && k < |execs| && Known(p, execs[k].block)
    ensures CountedFrom(p, s, execs, Propagate(p, s, execs, k, now, utc), w, count)
    decreases Slack(p, execs), 4, 0
  {
    hide PropagateOutput, Executions, Within;
    if execs[k].execution.outcome.Ok? {
      OutputsCount(p, s, execs, k, execs[k].execution.outcome.value.outputs, 0, now, utc, w, count);
    }
  }

  lemma {:induction false} OutputsCount(p: Plan, s: RuntimeState, execs: seq<BlockExecution>, k: nat, outputs: seq<OutputEffect>, i: nat,
                                        now: MonotonicMs, utc: Option<int>, w: Watch, count: nat)
    requires Watched(p, s, w, count, now) && k < |execs| && Known(p, execs[k].block) && i <= |outputs|
    ensures CountedFrom(p, s, execs, PropagateOutputs(p, s, execs, k, outputs, i, now, utc), w, count)
    decreases Slack(p, execs), 3, |outputs| - i
  {
    hide PropagateOutput, Executions, Within;
    if i < |outputs| {
      OutputCounts(p, s, execs, k, outputs[i], now, utc, w, count);
      var o := PropagateOutput(p, s, execs, k, outputs[i], now, utc);
      var more := Executions(o.execs, BlockOf(p, w)) - Executions(execs, BlockOf(p, w));
      if o.error.None? { OutputsCount(p, o.s, o.execs, k, outputs, i + 1, now, utc, w, count + more); }
    }
  }

  lemma {:induction false} OutputCounts(p: Plan, s: RuntimeState, execs: seq<BlockExecution>, k: nat, output: OutputEffect,
                                        now: MonotonicMs, utc: Option<int>, w: Watch, count: nat)
    requires Watched(p, s, w, count, now) && k < |execs| && Known(p, execs[k].block)
    ensures CountedFrom(p, s, execs, PropagateOutput(p, s, execs, k, output, now, utc), w, count)
    decreases Slack(p, execs), 2, 0
  {
    hide Deliver, Refresh, Executions, Within, Eligible, Consumers, SignalOf, DistinctBlocks, During, BlockOf;
    var at := SignalOf(p, execs[k].block, output.endpoint);
    if at.Some? {
      var effect := EffectOf(p, s, execs[k].block, output, at.value, execs[k].execution.id);
      var published := Publish(s, at.value, output.value, now, execs[k].execution.id);
      var consumers := effect.consumers;
      var eligible := if effect.changed then Eligible(p, published, consumers, |consumers|) else [];
      var annotated := Annotate(execs, k, effect, eligible);
      ExecutionsOfBlocks(annotated, execs, BlockOf(p, w));
      if effect.changed {
        DeliverCounts(p, published, annotated, k, output.value, consumers, 0, now, utc, w, count);
      } else {
        RefreshCounts(p, published, annotated, output.value, consumers, 0, now, w, count);
      }
    }
  }

  lemma {:induction false} RefreshCounts(p: Plan, s: RuntimeState, execs: seq<BlockExecution>, value: TypedValue, consumers: seq<EndpointRef>, j: nat,
                                         now: MonotonicMs, w: Watch, count: nat)
    requires Shaped(p, s) && Respects(p, s, w, count) && j <= |consumers|
    ensures Respects(p, Refresh(p, s, execs, value, consumers, j, now).s, w, count)
    decreases |consumers| - j
  {
    hide ObserveAt, Within;
    if j < |consumers| {
      var c := BlockPosition(p.config.blocks, consumers[j].block);
      if c.None? {
        RefreshCounts(p, s, execs, value, consumers, j + 1, now, w, count);
      } else {
        ObserveAtCounts(p, s, c.value, consumers[j].endpoint, value, now, w, count);
        var d := ObserveAt(p, s, c.value, consumers[j].endpoint, value, now);
        RefreshCounts(p, d.s, execs, value, consumers, j + 1, now, w, count);
      }
    }
  }

  lemma {:induction false} DeliverCounts(p: Plan, s: RuntimeState, execs: seq<BlockExecution>, k: nat, value: TypedValue, consumers: seq<EndpointRef>, j: nat,
                                         now: MonotonicMs, utc: Option<int>, w: Watch, count: nat)
    requires Watched(p, s, w, count, now) && k < |execs| && j <= |consumers|
    ensures CountedFrom(p, s, execs, Deliver(p, s, execs, k, value, consumers, j, now, utc), w, count)
    decreases Slack(p, execs), 1, |consumers| - j
  {
    hide DeliverOne, Executions, Within;
    if j < |consumers| {
      DeliverOneCounts(p, s, execs, k, value, consumers[j], now, utc, w, count);
      var o := DeliverOne(p, s, execs, k, value, consumers[j], now, utc);
      var more := Executions(o.execs, BlockOf(p, w)) - Executions(execs, BlockOf(p, w));
      if o.error.None? { DeliverCounts(p, o.s, o.execs, k, value, consumers, j + 1, now, utc, w, count + more); }
    }
  }

  lemma ChildCounted(p: Plan, execs: seq<BlockExecution>, child: BlockExecution, c: nat, w: Watch)
    requires DistinctBlocks(p.config.blocks) && w.c < |p.config.blocks| && BlockPosition(p.config.blocks, child.block) == Some(c)
    ensures Executions(execs + [child], BlockOf(p, w)) == Executions(execs, BlockOf(p, w)) + if c == w.c then 1 else 0
  {
    ExecutionsAppend(execs, child, BlockOf(p, w));
    BlockAt(p, w.c);
  }

  lemma {:induction false} DeliverOneCounts(p: Plan, s: RuntimeState, execs: seq<BlockExecution>, k: nat, value: TypedValue, consumer: EndpointRef,
                                            now: MonotonicMs, utc: Option<int>, w: Watch, count: nat)
    requires Watched(p, s, w, count, now) && k < |execs|
    ensures CountedFrom(p, s, execs, DeliverOne(p, s, execs, k, value, consumer, now, utc), w, count)
    decreases Slack(p, execs), 0, 0
  {
    hide HandTo, Propagate, Executions, Within, DistinctBlocks, BlockOf, During;
    var at := BlockPosition(p.config.blocks, consumer.block);
    if at.Some? && !(Runnable(s.blocks[at.value]) && |execs| >= p.host.limits.maxCascadeExecutions) {
      HandToCounts(p, s, at.value, consumer.endpoint, value, now, utc, w, count);
      RunnableOnlyExecutes(p, s, at.value, consumer.endpoint, value, now, utc);
      var d := HandTo(p, s, at.value, consumer.endpoint, value, now, utc);
      if d.Executed? {
        var (next, execution) := AssignId(d.s, d.execution, execs[k].execution.id);
        var child := BlockExecution(consumer.block, execution);
        ChildCounted(p, execs, child, at.value, w);
        PropagateCounts(p, next, execs + [child], |execs|, now, utc, w, count + if at.value == w.c then 1 else 0);
      }
    }
  }

  // ----- an event -----------------------------------------------------------------------------------------

  /** A root's execution is counted. */
  ghost predicate RootCounted(p: Plan, root: Root, w: Watch, count: nat)
    requires w.c < |p.config.blocks|
  {
    Respects(p, root.s, w, count + if root.result.Ok? && root.result.value.Some? && root.result.value.value.block == BlockOf(p, w) then 1 else 0)
  }

  lemma UpdateBlockCounts(p: Plan, s: RuntimeState, c: nat, endpoint: EndpointName, update: InputUpdate, now: MonotonicMs, utc: Option<int>, w: Watch, count: nat)
    requires Watched(p, s, w, count, now) && c < |s.blocks|
    ensures RootCounted(p, UpdateBlock(p, s, c, endpoint, update, now, utc), w, count)
  {
    hide ProcessUpdate, Admit, Recent;
    BlockAt(p, c);
    BlockAt(p, w.c);
    if c == w.c { AdmitCounts(s.blocks[c], count, w.from, now, p.host.limits.maxLiveExecutionsPerBlockPerSecond); }
    var asked := update.TriggerWith? && Runnable(s.blocks[c]);
    var (b, admitted) := if asked then Admit(s.blocks[c], now, p.host.limits.maxLiveExecutionsPerBlockPerSecond) else (s.blocks[c], false);
    var effective := if update.TriggerWith? && !admitted then Observe(update.value) else update;
    AdmitKeepsInputs(s.blocks[c], now, p.host.limits.maxLiveExecutionsPerBlockPerSecond);
    TriggersOnly(p.host, p.config.blocks[c].endpoints, b.engine, endpoint, effective, now, utc);
  }

  lemma AdmitKeepsInputs(b: BlockState, now: MonotonicMs, maximum: nat)
    ensures Admit(b, now, maximum).0.engine.inputs == b.engine.inputs
  {
  }

  /** Observing a value or clearing an input runs nothing. */
  lemma TriggersOnly(host: Host, endpoints: seq<Endpoint>, e: EngineState, endpoint: EndpointName, update: InputUpdate, now: MonotonicMs, utc: Option<int>)
    requires |e.inputs| == |endpoints|
    ensures var result := ProcessUpdate(host, endpoints, e, endpoint, update, now, utc).result; result.Ok? && result.value.Some? ==> update.TriggerWith?
  {
    hide Evaluate;
  }

  lemma FireBlockCounts(p: Plan, s: RuntimeState, c: nat, now: MonotonicMs, utc: Option<int>, w: Watch, count: nat)
    requires Watched(p, s, w, count, now) && c < |s.blocks|
    ensures RootCounted(p, FireBlock(p, s, c, now, utc), w, count)
  {
    hide ProcessTimer, Admit, Recent;
    BlockAt(p, c);
    BlockAt(p, w.c);
    if c == w.c { AdmitCounts(s.blocks[c], count, w.from, now, p.host.limits.maxLiveExecutionsPerBlockPerSecond); }
  }

  lemma RunScheduleCounts(p: Plan, s: RuntimeState, c: nat, trigger: ScheduleTrigger, now: MonotonicMs, w: Watch, count: nat)
    requires Watched(p, s, w, count, now) && c < |s.blocks|
    ensures RootCounted(p, RunSchedule(p, s, c, trigger, now), w, count)
  {
    hide Evaluate, Admit, Recent;
    BlockAt(p, c);
    BlockAt(p, w.c);
    if c == w.c { AdmitCounts(s.blocks[c], count, w.from, now, p.host.limits.maxLiveExecutionsPerBlockPerSecond); }
  }

  /** What an event returns is counted; a failed one returns nothing. */
  ghost predicate EventCounted(p: Plan, r: EventResult, w: Watch, count: nat)
    requires w.c < |p.config.blocks|
  {
    Respects(p, r.s, w, count + if r.result.Ok? then Executions(r.result.value, BlockOf(p, w)) else 0)
  }

  lemma RunEventCounts(p: Plan, s: RuntimeState, root: Root, restores: bool, now: MonotonicMs, utc: Option<int>, w: Watch, count: nat)
    requires Watched(p, s, w, count, now) && Shaped(p, root.s) && RootCounted(p, root, w, count)
    requires root.result.Ok? && root.result.value.Some? ==> Known(p, root.result.value.value.block)
    ensures EventCounted(p, RunEvent(p, s, root, restores, now, utc), w, count)
  {
    hide Propagate, UsageError, Recent;
    if root.result.Ok? && root.result.value.Some? {
      var x := root.result.value.value;
      ExecutionsAppend([], x, BlockOf(p, w));
      assert [] + [x] == [x] && [x][0] == x;
      PropagateCounts(p, root.s, [x], 0, now, utc, w, count + Executions([x], BlockOf(p, w)));
    }
  }

  lemma InputEventCounts(p: Plan, s: RuntimeState, id: BlockId, endpoint: EndpointName, update: InputUpdate, now: MonotonicMs, utc: Option<int>, w: Watch, count: nat)
    requires Watched(p, s, w, count, now)
    ensures EventCounted(p, InputEvent(p, s, id, endpoint, update, now, utc), w, count)
  {
    hide UpdateBlock, RunEvent, Within, EventCounted, ValidateUpdate;
    RootsAreKnown(p, s);
    var at := BlockPosition(p.config.blocks, id);
    if at.Some? { UpdateBlockCounts(p, s, at.value, endpoint, update, now, utc, w, count); }
    RunEventCounts(p, s, UpdateRoot(p, s, id, endpoint, update, now, utc), true, now, utc, w, count);
  }

  lemma TimerEventCounts(p: Plan, s: RuntimeState, now: MonotonicMs, utc: Option<int>, w: Watch, count: nat)
    requires Watched(p, s, w, count, now)
    ensures EventCounted(p, TimerEvent(p, s, now, utc), w, count)
  {
    hide FireBlock, RunEvent, Within, EventCounted;
    RootsAreKnown(p, s);
    var first := FirstBlock(p, s, now);
    if first.Some? { FireBlockCounts(p, s, first.value, now, utc, w, count); }
    RunEventCounts(p, s, TimerRoot(p, s, now, utc), false, now, utc, w, count);
  }

  lemma ScheduleEventCounts(p: Plan, s: RuntimeState, trigger: ScheduleTrigger, now: MonotonicMs, utc: Option<int>, w: Watch, count: nat)
    requires Watched(p, s, w, count, now)
    ensures EventCounted(p, ScheduleEvent(p, s, trigger, now, utc), w, count)
  {
    hide RunSchedule, RunEvent, Within, EventCounted, TriggerCurrent;
    RootsAreKnown(p, s);
    var timed := s.(lastAcceptedAt := Some(now));
    var at := BlockPosition(p.config.blocks, trigger.block);
    if at.Some? { RunScheduleCounts(p, timed, at.value, trigger, now, w, count); }
    RunEventCounts(p, s, ScheduleRoot(p, s, trigger, now), false, now, utc, w, count);
  }

  // ----- a run -----------------------------------------------------------------------------------------------

  /** The executions a call returns. */
  ghost function Started(p: Plan, s: RuntimeState, call: HostCall): seq<BlockExecution>
    requires Shaped(p, s) && DistinctBlocks(p.config.blocks)
  {
    var result := match call
      case DriveInput(id, endpoint, update, now, utc) => InputEvent(p, s, id, endpoint, update, now, utc).result
      case FireTimer(now, utc) => TimerEvent(p, s, now, utc).result
      case RunTrigger(trigger, now, utc) => ScheduleEvent(p, s, trigger, now, utc).result
      case _ => Ok([]);
    if result.Ok? then result.value else []
  }

  /** The call happens within the second, if it is an event, and clears no
      window of the block. */
  ghost predicate InSecond(call: HostCall, id: BlockId, from: MonotonicMs) {
    match call
    case DriveInput(_, _, _, now, _) => During(from, now)
    case FireTimer(now, _) => During(from, now)
    case RunTrigger(_, now, _) => During(from, now)
    case ResumeBlock(other) => other != id
    case ActivateBlocks(updates) => forall u :: u in updates ==> u.block != id
    case _ => true
  }

  lemma {:induction false} OtherBlocksActivated(p: Plan, s: RuntimeState, updates: seq<BlockActivation>, c: nat)
    requires Shaped(p, s) && c < |s.blocks| && forall u :: u in updates ==> u.block != p.config.blocks[c].id
    ensures ActivateAll(p, s, updates).blocks[c] == s.blocks[c]
    decreases |updates|
  {
    hide ActivateBlock;
    if updates != [] {
      assert updates[0] in updates;
      OtherBlocksActivated(p, ActivateOne(p, s, updates[0]), updates[1..], c);
    }
  }

  lemma CallCounts(p: Plan, s: RuntimeState, call: HostCall, w: Watch, count: nat)
    requires Shaped(p, s) && DistinctBlocks(p.config.blocks) && Respects(p, s, w, count) && InSecond(call, BlockOf(p, w), w.from)
    ensures Respects(p, Step(p, s, call), w, count + Executions(Started(p, s, call), BlockOf(p, w)))
  {
    hide InputEvent, TimerEvent, ScheduleEvent, ActivateAll, Within, PollBase, ScheduleSlots, Updated;
    match call {
      case DriveInput(id, endpoint, update, now, utc) => InputEventCounts(p, s, id, endpoint, update, now, utc, w, count);
      case FireTimer(now, utc) => TimerEventCounts(p, s, now, utc, w, count);
      case RunTrigger(trigger, now, utc) => ScheduleEventCounts(p, s, trigger, now, utc, w, count);
      case ActivateBlocks(updates) => OtherBlocksActivated(p, s, updates, w.c);
      case _ =>
    }
  }

  /** How often a block ran in calls `a..b` of a run. */
  ghost function ExecutionsBetween(p: Plan, calls: seq<HostCall>, states: seq<RuntimeState>, id: BlockId, a: nat, b: nat): nat
    requires IsRun(p, calls, states) && a <= b <= |calls|
    decreases b
  {
    if a == b then 0
    else ExecutionsBetween(p, calls, states, id, a, b - 1) + Executions(Started(p, states[b - 1], calls[b - 1]), id)
  }

  lemma {:induction false} CallsCount(p: Plan, calls: seq<HostCall>, states: seq<RuntimeState>, w: Watch, a: nat, b: nat)
    requires IsRun(p, calls, states) && a <= b <= |calls| && w.c < |p.config.blocks|
    requires forall i :: a <= i < b ==> InSecond(calls[i], BlockOf(p, w), w.from)
    ensures Shaped(p, states[b]) && Respects(p, states[b], w, ExecutionsBetween(p, calls, states, BlockOf(p, w), a, b))
    decreases b
  {
    hide Step, InSecond, Within, Started;
    if a == b {
      if b > 0 { assert states[b] == Step(p, states[b - 1], calls[b - 1]); }
      NothingCounted(p, states[b], w);
    } else {
      CallsCount(p, calls, states, w, a, b - 1);
      CallCounts(p, states[b - 1], calls[b - 1], w, ExecutionsBetween(p, calls, states, BlockOf(p, w), a, b - 1));
      assert states[b] == Step(p, states[b - 1], calls[b - 1]);
    }
  }

  lemma NothingCounted(p: Plan, s: RuntimeState, w: Watch)
    requires Shaped(p, s) && w.c < |p.config.blocks|
    ensures Respects(p, s, w, 0)
  {
  }

  /** Over every run and for every second: as long as the block is not resumed
      or activated in between, it executes no more often than its limit, by
      whatever inputs, timers, schedules and signals it is triggered. */
  lemma RunsRespectTheRateLimit(p: Plan, calls: seq<HostCall>, states: seq<RuntimeState>, c: nat, from: MonotonicMs, a: nat, b: nat)
    requires IsRun(p, calls, states) && a <= b <= |calls| && c < |p.config.blocks|
    requires forall i :: a <= i < b ==> InSecond(calls[i], p.config.blocks[c].id, from)
    ensures ExecutionsBetween(p, calls, states, p.config.blocks[c].id, a, b) <= p.host.limits.maxLiveExecutionsPerBlockPerSecond
  {
    hide IsRun, InSecond, ExecutionsBetween;
    CallsCount(p, calls, states, Watch(c, from), a, b);
  }
}
