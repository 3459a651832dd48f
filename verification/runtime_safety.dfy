/** Safety of every entry point over whole runs: the reachable-state invariant,
    atomicity, the global budgets and signal agreement. */
module RuntimeSafety {
  import opened Values
  import opened SignalGraph
  import opened Configuration
  import opened TransientState
  import opened LuaConversion
  import opened Engines
  import opened LogicBlocks
  import opened ScheduleCursors
  import opened Cascades
  import opened CascadeOrder
  import opened PlanFacts
  import opened CascadeSafety
  import opened SignalAgreement
  import opened RuntimeEvents

  /** The invariant together with the two budgets no entry point exceeds. */
  ghost predicate FullInv(p: Plan, s: RuntimeState) {
    && Inv(p, s)
    && StateTotal(s.blocks) <= p.host.limits.maxStateBytesTotal
    && TimersTotal(s.blocks) <= p.host.limits.maxPendingTimersTotal
  }

  /** A plan validation accepted, with a ranking that witnesses acyclicity. */
  ghost predicate SoundPlan(p: Plan, rank: BlockId -> nat) {
    && ValidPlan(p) && Ranks(EdgesOf(p), rank)
    && CascadesWithin(p.config.blocks, EdgesOf(p), p.host.limits.maxCascadeExecutions)
  }

  // ----- totals ----------------------------------------------------------------------------

  /** Same state, and no more timers. */
  ghost predicate Lighter(b: BlockState, after: BlockState) {
    after.engine.state == b.engine.state && |after.engine.timers| <= |b.engine.timers|
  }

  lemma {:induction false} TotalsShrink(a: seq<BlockState>, b: seq<BlockState>)
    requires |a| == |b| && forall c :: 0 <= c < |a| ==> Lighter(a[c], b[c])
    ensures StateTotal(b) == StateTotal(a) && TimersTotal(b) <= TimersTotal(a)
    decreases |a|
  {
    if a != [] {
      var n := |a| - 1;
      forall c | 0 <= c < n ensures Lighter(a[..n][c], b[..n][c]) {
        assert Lighter(a[c], b[c]);
      }
      TotalsShrink(a[..n], b[..n]);
      assert Lighter(a[n], b[n]);
    }
  }

  lemma LighterBlock(p: Plan, s: RuntimeState, t: RuntimeState, c: nat)
    requires FullInv(p, s) && Inv(p, t) && c < |s.blocks| == |t.blocks|
    requires Lighter(s.blocks[c], t.blocks[c]) && forall i :: 0 <= i < |s.blocks| && i != c ==> t.blocks[i] == s.blocks[i]
    ensures FullInv(p, t)
  {
    TotalsShrink(s.blocks, t.blocks);
  }

  // ----- roots -----------------------------------------------------------------------------

  function At(s: RuntimeState, now: MonotonicMs): RuntimeState { s.(lastAcceptedAt := Some(now)) }

  lemma ClockAdvances(p: Plan, s: RuntimeState, now: MonotonicMs)
    requires Inv(p, s) && !Earlier(s, now)
    ensures Inv(p, At(s, now)) && Evolves(p, At(s, now), At(s, now), now)
  {
    forall c | 0 <= c < |s.blocks| ensures BlockInv(p.host.limits, p.config.blocks[c].endpoints, s.blocks[c], Some(now)) {
      LaterClockKeepsInv(p.host.limits, p.config.blocks[c].endpoints, s.blocks[c], s.lastAcceptedAt, now);
    }
  }

  /** Errors that reject an event before it changes anything. */
  predicate Rejects(error: RuntimeEventError) {
    || error.UnknownBlock?
    || error.TimeWentBackwards?
    || (error.BlockError? && (error.error.UnknownEndpoint? || error.error.EndpointNotInput? || error.error.DptMismatch?))
  }

  /** What a root step leaves for the rest of the event. */
  ghost predicate RootSafe(p: Plan, s: RuntimeState, root: Root, now: MonotonicMs)
    requires Shaped(p, s)
  {
    match root.result
    case Err(error) => root.s == s && Rejects(error)
    case Ok(None) => FullInv(p, root.s) && Evolves(p, s, root.s, now)
    case Ok(Some(x)) => Evolves(p, s, root.s, now) && ExecOk(p, x)
  }

  lemma BlockAtInv(p: Plan, s: RuntimeState, c: nat)
    requires Inv(p, s) && c < |s.blocks|
    ensures BlockInv(p.host.limits, p.config.blocks[c].endpoints, s.blocks[c], s.lastAcceptedAt)
  {
  }

  /** Committing one block at a later time. */
  lemma Commits(p: Plan, s: RuntimeState, c: nat, after: BlockState, now: MonotonicMs)
    requires FullInv(p, s) && !Earlier(s, now) && c < |s.blocks|
    requires BlockInv(p.host.limits, p.config.blocks[c].endpoints, after, Some(now)) && BlockEvolves(s.blocks[c], after, now)
    ensures Evolves(p, s, At(WithBlock(s, c, after), now), now)
    ensures Lighter(s.blocks[c], after) ==> FullInv(p, At(WithBlock(s, c, after), now))
  {
    hide BlockInv, SignalOk;
    ClockAdvances(p, s, now);
    ReplaceBlock(p, At(s, now), c, after, now);
    assert At(WithBlock(s, c, after), now) == WithBlock(At(s, now), c, after);
    if Lighter(s.blocks[c], after) { LighterBlock(p, s, At(WithBlock(s, c, after), now), c); }
  }

  /** Recording an execution and naming it leaves a root to follow. */
  lemma CommitsExecution(p: Plan, s: RuntimeState, c: nat, after: BlockState, execution: Execution, now: MonotonicMs)
    requires DistinctBlocks(p.config.blocks) && FullInv(p, s) && !Earlier(s, now) && c < |s.blocks|
    requires BlockInv(p.host.limits, p.config.blocks[c].endpoints, after, Some(now)) && BlockEvolves(s.blocks[c], after, now)
    requires after.health == Active && ExecutionOk(p.config.blocks[c].endpoints, execution)
    ensures var root := RootExecution(At(WithBlock(s, c, Record(after, execution.outcome)), now), p.config.blocks[c].id, execution);
            Shaped(p, root.s) && RootSafe(p, s, root, now) && root.result.Ok? && root.result.value.Some?
  {
    hide SignalOk, EngineInv, WindowOk, HealthOk, StateTotal, TimersTotal, OutputsTyped;
    RecordKeepsInv(p.host.limits, p.config.blocks[c].endpoints, after, execution.outcome, Some(now));
    Commits(p, s, c, Record(after, execution.outcome), now);
    BlockAt(p, c);
  }

  /** An update that runs nothing leaves state and timers alone. */
  lemma QuietUpdate(host: Host, endpoints: seq<Endpoint>, e: EngineState, name: EndpointName, update: InputUpdate, now: MonotonicMs, utc: Option<int>)
    requires |e.inputs| == |endpoints|
    ensures var step := ProcessUpdate(host, endpoints, e, name, update, now, utc);
            step.result == Ok(None) ==> step.engine.state == e.state && step.engine.timers == e.timers
  {
    hide ExecuteLogic;
  }

  /** A block that was admitted, or that only observes. */
  ghost predicate Readied(b: BlockState, ready: BlockState) {
    && ready.enabled == b.enabled
    && (ready.engine == b.engine || ready.engine == b.engine.(timers := map[]))
  }

  lemma UpdateBlockSafe(p: Plan, s: RuntimeState, c: nat, endpoint: EndpointName, update: InputUpdate, now: MonotonicMs, utc: Option<int>)
    requires DistinctBlocks(p.config.blocks) && FullInv(p, s) && !Earlier(s, now) && c < |s.blocks|
    requires ValidateUpdate(p.config.blocks[c].endpoints, endpoint, update).Ok?
    ensures RootSafe(p, s, UpdateBlock(p, s, c, endpoint, update, now, utc), now)
  {
    hide ProcessUpdate, EngineInv, WindowOk, ExecutionOk, RootSafe, RootExecution, Record, SignalOk, ValidateInput, ValidateEndpoint, StateTotal, TimersTotal;
    var limits, endpoints := p.host.limits, p.config.blocks[c].endpoints;
    ClockAdvances(p, s, now);
    BlockAtInv(p, At(s, now), c);
    var asked := update.TriggerWith? && Runnable(s.blocks[c]);
    var (b, admitted) := if asked then Admit(s.blocks[c], now, limits.maxLiveExecutionsPerBlockPerSecond) else (s.blocks[c], false);
    AdmitKeepsInv(limits, endpoints, s.blocks[c], now);
    assert Readied(s.blocks[c], b);
    var effective := if update.TriggerWith? && !admitted then Observe(update.value) else update;
    UpdateSteps(p, s, c, b, admitted, endpoint, effective, now, utc);
  }

  lemma UpdateSteps(p: Plan, s: RuntimeState, c: nat, b: BlockState, admitted: bool, endpoint: EndpointName, update: InputUpdate,
                    now: MonotonicMs, utc: Option<int>)
    requires DistinctBlocks(p.config.blocks) && FullInv(p, s) && !Earlier(s, now) && c < |s.blocks|
    requires BlockInv(p.host.limits, p.config.blocks[c].endpoints, b, Some(now)) && Readied(s.blocks[c], b)
    requires ValidateUpdate(p.config.blocks[c].endpoints, endpoint, update).Ok? && (update.TriggerWith? ==> b.health == Active)
    ensures var endpoints := p.config.blocks[c].endpoints;
            var step := ProcessUpdate(p.host, endpoints, b.engine, endpoint, update, now, utc);
            var after := b.(engine := step.engine);
            && step.result.Ok?
            && match step.result.value
               case None => RootSafe(p, s, Root(At(WithBlock(s, c, after), now), Ok(None)), now)
               case Some(execution) =>
                 var root := RootExecution(At(WithBlock(s, c, Record(after, execution.outcome)), now), p.config.blocks[c].id, execution);
                 Shaped(p, root.s) && RootSafe(p, s, root, now)
  {
    hide ProcessUpdate, StateWithin, InputsOk, TimersOf, WindowOk, ExecutionOk, SignalOk, ValidateUpdate, StateTotal, TimersTotal, Record, RootExecution, BlocksOk, SignalsOk;
    var endpoints := p.config.blocks[c].endpoints;
    UpdateKeepsInv(p.host, endpoints, b.engine, endpoint, update, now, utc);
    QuietUpdate(p.host, endpoints, b.engine, endpoint, update, now, utc);
    var step := ProcessUpdate(p.host, endpoints, b.engine, endpoint, update, now, utc);
    var after := b.(engine := step.engine);
    Commits(p, s, c, after, now);
    if step.result.value.Some? { CommitsExecution(p, s, c, after, step.result.value.value, now); }
  }

  lemma UpdateRootSafe(p: Plan, s: RuntimeState, id: BlockId, endpoint: EndpointName, update: InputUpdate, now: MonotonicMs, utc: Option<int>)
    requires DistinctBlocks(p.config.blocks) && FullInv(p, s)
    ensures RootSafe(p, s, UpdateRoot(p, s, id, endpoint, update, now, utc), now)
  {
    hide UpdateBlock, BlocksOk, SignalsOk;
    var at := BlockPosition(p.config.blocks, id);
    if at.Some? && ValidateUpdate(p.config.blocks[at.value].endpoints, endpoint, update).Ok? && !Earlier(s, now) {
      UpdateBlockSafe(p, s, at.value, endpoint, update, now, utc);
    }
  }

  lemma FireBlockSafe(p: Plan, s: RuntimeState, c: nat, now: MonotonicMs, utc: Option<int>)
    requires DistinctBlocks(p.config.blocks) && FullInv(p, s) && !Earlier(s, now) && c < |s.blocks| && Runnable(s.blocks[c])
    ensures RootSafe(p, s, FireBlock(p, s, c, now, utc), now)
  {
    hide ProcessTimer, StateWithin, InputsOk, TimersOf, WindowOk, ExecutionOk, SignalOk, StateTotal, TimersTotal, Record, RootExecution;
    var limits, endpoints := p.host.limits, p.config.blocks[c].endpoints;
    ClockAdvances(p, s, now);
    BlockAtInv(p, At(s, now), c);
    var (b, admitted) := Admit(s.blocks[c], now, limits.maxLiveExecutionsPerBlockPerSecond);
    AdmitKeepsInv(limits, endpoints, s.blocks[c], now);
    if !admitted {
      Commits(p, s, c, b, now);
    } else {
      TimerSteps(p, s, c, b, now, utc);
    }
  }

  lemma TimerSteps(p: Plan, s: RuntimeState, c: nat, b: BlockState, now: MonotonicMs, utc: Option<int>)
    requires DistinctBlocks(p.config.blocks) && FullInv(p, s) && !Earlier(s, now) && c < |s.blocks|
    requires BlockInv(p.host.limits, p.config.blocks[c].endpoints, b, Some(now)) && Readied(s.blocks[c], b) && b.health == Active
    ensures var endpoints := p.config.blocks[c].endpoints;
            var step := ProcessTimer(p.host, endpoints, b.engine, now, utc);
            var after := b.(engine := step.engine);
            && step.result.Ok?
            && match step.result.value
               case None => RootSafe(p, s, Root(At(WithBlock(s, c, after), now), Ok(None)), now)
               case Some(execution) =>
                 var root := RootExecution(At(WithBlock(s, c, Record(after, execution.outcome)), now), p.config.blocks[c].id, execution);
                 Shaped(p, root.s) && RootSafe(p, s, root, now)
  {
    hide Evaluate, StateWithin, InputsOk, TimersOf, WindowOk, ExecutionOk, SignalOk, StateTotal, TimersTotal, Record, RootExecution, BlocksOk, SignalsOk;
    var endpoints := p.config.blocks[c].endpoints;
    TimerKeepsInv(p.host, endpoints, b.engine, now, utc);
    var step := ProcessTimer(p.host, endpoints, b.engine, now, utc);
    var after := b.(engine := step.engine);
    Commits(p, s, c, after, now);
    if step.result.value.Some? { CommitsExecution(p, s, c, after, step.result.value.value, now); }
  }

  lemma TimerRootSafe(p: Plan, s: RuntimeState, now: MonotonicMs, utc: Option<int>)
    requires DistinctBlocks(p.config.blocks) && FullInv(p, s)
    ensures RootSafe(p, s, TimerRoot(p, s, now, utc), now)
  {
    hide FireBlock, BlocksOk, SignalsOk, StateTotal, TimersTotal;
    if !Earlier(s, now) {
      ClockAdvances(p, s, now);
      var first := FirstBlock(p, s, now);
      if first.Some? {
        var n :| IsFirst(p, s, now, first.value, n);
        FireBlockSafe(p, s, first.value, now, utc);
      }
    }
  }

  lemma RunScheduleSafe(p: Plan, s: RuntimeState, c: nat, trigger: ScheduleTrigger, now: MonotonicMs)
    requires DistinctBlocks(p.config.blocks) && FullInv(p, s) && s.lastAcceptedAt == Some(now) && c < |s.blocks| && Runnable(s.blocks[c])
    ensures RootSafe(p, s, RunSchedule(p, s, c, trigger, now), now)
  {
    hide Evaluate, StateWithin, InputsOk, TimersOf, WindowOk, ExecutionOk, SignalOk, StateTotal, TimersTotal, Record, RootExecution;
    var limits, endpoints := p.host.limits, p.config.blocks[c].endpoints;
    BlockAtInv(p, s, c);
    var (b, admitted) := Admit(s.blocks[c], now, limits.maxLiveExecutionsPerBlockPerSecond);
    AdmitKeepsInv(limits, endpoints, s.blocks[c], now);
    assert forall after :: At(WithBlock(s, c, after), now) == WithBlock(s, c, after);
    if !admitted {
      Commits(p, s, c, b, now);
    } else {
      EvaluateKeepsInv(p.host, endpoints, b.engine, BySchedule(trigger), now, Some(trigger.scheduledFor));
      var (engine, execution) := Evaluate(p.host, endpoints, b.engine, BySchedule(trigger), now, Some(trigger.scheduledFor));
      CommitsExecution(p, s, c, b.(engine := engine), execution, now);
    }
  }

  lemma ScheduleRootSafe(p: Plan, s: RuntimeState, trigger: ScheduleTrigger, now: MonotonicMs)
    requires DistinctBlocks(p.config.blocks) && FullInv(p, s)
    ensures RootSafe(p, s, ScheduleRoot(p, s, trigger, now), now)
  {
    hide BlocksOk, SignalsOk, StateTotal, TimersTotal;
    if !Earlier(s, now) {
      ClockAdvances(p, s, now);
      var at := BlockPosition(p.config.blocks, trigger.block);
      if at.Some? && TriggerCurrent(p, At(s, now), at.value, trigger) {
        RunScheduleSafe(p, At(s, now), at.value, trigger, now);
      }
    }
  }

  // ----- events ----------------------------------------------------------------------------

  /** The outcome of an event from a safe state: either it is rejected or
      exceeds a global budget and nothing changed, or it succeeded, the
      invariant holds, and it ran no more than the validated cascade. */
  ghost predicate EventSafe(p: Plan, rank: BlockId -> nat, s: RuntimeState, r: EventResult, now: MonotonicMs)
    requires Shaped(p, s) && Ranks(EdgesOf(p), rank)
  {
    && FullInv(p, r.s)
    && match r.result
       case Err(error) => r.s == s && (Rejects(error) || error.ResourceLimit?)
       case Ok(execs) =>
         && Evolves(p, s, r.s, now)
         && (execs != [] ==> |execs| <= TreeSize(EdgesOf(p), rank, execs[0].block) <= p.host.limits.maxCascadeExecutions)
  }

  /** From a root, propagation completes within the validated cascade. */
  lemma RootCompletes(p: Plan, rank: BlockId -> nat, checkpoint: RuntimeState, s: RuntimeState, x: BlockExecution, now: MonotonicMs, utc: Option<int>)
    requires SoundPlan(p, rank) && Shaped(p, checkpoint) && Evolves(p, checkpoint, s, now) && ExecOk(p, x)
    ensures var o := Propagate(p, s, [x], 0, now, utc);
            && o.error.None? && Evolves(p, checkpoint, o.s, now)
            && |o.execs| <= TreeSize(EdgesOf(p), rank, x.block) <= p.host.limits.maxCascadeExecutions
            && o.execs != [] && o.execs[0].block == x.block
  {
    hide ValidPlan, Ranks, PropagateOutputs, BlocksOk, SignalsOk, CascadesWithin, ExecutionOk, BlockEvolves;
    CascadesWithinMeaning(p.config.blocks, EdgesOf(p), rank, p.host.limits.maxCascadeExecutions);
    assert p.config.blocks[BlockPosition(p.config.blocks, x.block).value].id == x.block;
    assert [x][0] == x;
    assert Underway(p, rank, s, [x], 0, TreeSize(EdgesOf(p), rank, x.block) - 1, now);
    PropagateCompletes(p, rank, s, [x], 0, now, utc);
    EvolvesTwice(p, checkpoint, s, Propagate(p, s, [x], 0, now, utc).s, now);
  }

  /** Following a root never meets the cascade limit: it succeeds exactly when
      the global budgets hold afterwards, and is undone otherwise. */
  lemma FollowSafe(p: Plan, rank: BlockId -> nat, checkpoint: RuntimeState, s: RuntimeState, x: BlockExecution, now: MonotonicMs, utc: Option<int>)
    requires SoundPlan(p, rank) && FullInv(p, checkpoint) && Evolves(p, checkpoint, s, now) && ExecOk(p, x)
    ensures EventSafe(p, rank, checkpoint, Follow(p, checkpoint, s, x, now, utc), now)
    ensures var o := Propagate(p, s, [x], 0, now, utc);
            && o.error.None?
            && (Follow(p, checkpoint, s, x, now, utc).result.Ok? <==> UsageError(p.host.limits, o.s).None?)
  {
    hide ValidPlan, Ranks, Propagate, BlocksOk, SignalsOk, SourceTotal, StateTotal, TimersTotal, CascadesWithin, ExecutionOk, BlockEvolves;
    RootCompletes(p, rank, checkpoint, s, x, now, utc);
  }

  /** What a successful event returns: the depth-first preorder of one tree,
      with consecutive identities from the counter's value before the event. */
  ghost predicate IsPreorder(execs: seq<BlockExecution>, first: nat) {
    && execs != [] && execs[0].execution.causalProducer == None
    && Forest(execs[0].execution.id, execs[0].execution.eligibleConsumers, execs[1..])
    && Numbered(execs, first)
  }

  /** Every execution a followed root leads to names its parent, and runs a
      consumer its parent recorded as eligible. */
  lemma FollowIsPreorder(p: Plan, checkpoint: RuntimeState, s: RuntimeState, x: BlockExecution, first: nat, now: MonotonicMs, utc: Option<int>)
    requires Shaped(p, checkpoint) && Shaped(p, s) && Known(p, x.block)
    requires first <= U64_MAX && s.nextExecutionId == NextId(first) && x.execution.id == Some(first) && x.execution.causalProducer == None
    ensures var r := Follow(p, checkpoint, s, x, now, utc).result; r.Ok? ==> IsPreorder(r.value, first)
  {
    hide Propagate, UsageError, Forest;
    assert [x][0] == x;
    PropagateOrder(p, s, [x], 0, now, utc);
    var execs := Propagate(p, s, [x], 0, now, utc).execs;
    assert execs == [execs[0]] + execs[1..] && execs[|[x]|..] == execs[1..];
    NumberedAppends([execs[0]], execs[1..], first);
  }

  lemma RunEventSafe(p: Plan, rank: BlockId -> nat, s: RuntimeState, root: Root, restores: bool, now: MonotonicMs, utc: Option<int>)
    requires SoundPlan(p, rank) && FullInv(p, s) && RootSafe(p, s, root, now) && Shaped(p, root.s)
    requires root.result.Ok? && root.result.value.Some? ==> Known(p, root.result.value.value.block)
    ensures EventSafe(p, rank, s, RunEvent(p, s, root, restores, now, utc), now)
    ensures RunEvent(p, s, root, restores, now, utc) == RunEvent(p, s, root, !restores, now, utc)
  {
    hide SoundPlan, Follow;
    if root.result.Ok? && root.result.value.Some? {
      FollowSafe(p, rank, s, root.s, root.result.value.value, now, utc);
    }
  }

  /** Every input event is atomic, keeps the invariant and stays within the
      validated cascade. */
  lemma InputEventSafe(p: Plan, rank: BlockId -> nat, s: RuntimeState, id: BlockId, endpoint: EndpointName, update: InputUpdate,
                       now: MonotonicMs, utc: Option<int>)
    requires SoundPlan(p, rank) && FullInv(p, s)
    ensures EventSafe(p, rank, s, InputEvent(p, s, id, endpoint, update, now, utc), now)
  {
    hide UpdateRoot, RunEvent, BlocksOk, SignalsOk, RootSafe, EventSafe;
    RootsAreKnown(p, s);
    UpdateRootSafe(p, s, id, endpoint, update, now, utc);
    RunEventSafe(p, rank, s, UpdateRoot(p, s, id, endpoint, update, now, utc), true, now, utc);
  }

  lemma TimerEventSafe(p: Plan, rank: BlockId -> nat, s: RuntimeState, now: MonotonicMs, utc: Option<int>)
    requires SoundPlan(p, rank) && FullInv(p, s)
    ensures EventSafe(p, rank, s, TimerEvent(p, s, now, utc), now)
  {
    hide TimerRoot, RunEvent, BlocksOk, SignalsOk, RootSafe, EventSafe;
    RootsAreKnown(p, s);
    TimerRootSafe(p, s, now, utc);
    RunEventSafe(p, rank, s, TimerRoot(p, s, now, utc), false, now, utc);
  }

  lemma ScheduleEventSafe(p: Plan, rank: BlockId -> nat, s: RuntimeState, trigger: ScheduleTrigger, now: MonotonicMs, utc: Option<int>)
    requires SoundPlan(p, rank) && FullInv(p, s)
    ensures EventSafe(p, rank, s, ScheduleEvent(p, s, trigger, now, utc), now)
  {
    hide ScheduleRoot, RunEvent, BlocksOk, SignalsOk, RootSafe, EventSafe;
    RootsAreKnown(p, s);
    ScheduleRootSafe(p, s, trigger, now);
    RunEventSafe(p, rank, s, ScheduleRoot(p, s, trigger, now), false, now, utc);
  }

  /** A root execution takes the next identity and has no cause. */
  ghost predicate TakesNextIdentity(s: RuntimeState, root: Root) {
    root.result.Ok? && root.result.value.Some? ==>
      && root.s.nextExecutionId == NextId(s.nextExecutionId)
      && root.result.value.value.execution.id == Some(s.nextExecutionId)
      && root.result.value.value.execution.causalProducer == None
  }

  lemma UpdateRootIdentity(p: Plan, s: RuntimeState, id: BlockId, endpoint: EndpointName, update: InputUpdate, now: MonotonicMs, utc: Option<int>)
    requires Shaped(p, s)
    ensures TakesNextIdentity(s, UpdateRoot(p, s, id, endpoint, update, now, utc))
  {
    hide ProcessUpdate, Admit, Record, Shaped;
  }

  lemma TimerRootIdentity(p: Plan, s: RuntimeState, now: MonotonicMs, utc: Option<int>)
    requires Shaped(p, s)
    ensures TakesNextIdentity(s, TimerRoot(p, s, now, utc))
  {
    hide ProcessTimer, Admit, Record;
  }

  lemma ScheduleRootIdentity(p: Plan, s: RuntimeState, trigger: ScheduleTrigger, now: MonotonicMs)
    requires Shaped(p, s)
    ensures TakesNextIdentity(s, ScheduleRoot(p, s, trigger, now))
  {
    hide Evaluate, Admit, Record, TriggerCurrent;
  }

  lemma RunEventIsPreorder(p: Plan, s: RuntimeState, root: Root, restores: bool, now: MonotonicMs, utc: Option<int>)
    requires Inv(p, s) && Shaped(p, root.s) && TakesNextIdentity(s, root)
    requires root.result.Ok? && root.result.value.Some? ==> Known(p, root.result.value.value.block)
    ensures var r := RunEvent(p, s, root, restores, now, utc).result; r.Ok? && r.value != [] ==> IsPreorder(r.value, s.nextExecutionId)
  {
    hide Follow, IsPreorder;
    if root.result.Ok? && root.result.value.Some? {
      FollowIsPreorder(p, s, root.s, root.result.value.value, s.nextExecutionId, now, utc);
    }
  }

  /** For every event of every kind: the executions returned are the depth-first
      preorder of one tree, numbered from the counter. */
  lemma EventsArePreorders(p: Plan, s: RuntimeState, id: BlockId, endpoint: EndpointName, update: InputUpdate,
                           trigger: ScheduleTrigger, now: MonotonicMs, utc: Option<int>)
    requires Inv(p, s) && DistinctBlocks(p.config.blocks)
    ensures var r := InputEvent(p, s, id, endpoint, update, now, utc).result; r.Ok? && r.value != [] ==> IsPreorder(r.value, s.nextExecutionId)
    ensures var r := TimerEvent(p, s, now, utc).result; r.Ok? && r.value != [] ==> IsPreorder(r.value, s.nextExecutionId)
    ensures var r := ScheduleEvent(p, s, trigger, now, utc).result; r.Ok? && r.value != [] ==> IsPreorder(r.value, s.nextExecutionId)
  {
    hide UpdateRoot, TimerRoot, ScheduleRoot, RunEvent, IsPreorder, BlocksOk, SignalsOk, TakesNextIdentity;
    RootsAreKnown(p, s);
    UpdateRootIdentity(p, s, id, endpoint, update, now, utc);
    TimerRootIdentity(p, s, now, utc);
    ScheduleRootIdentity(p, s, trigger, now);
    RunEventIsPreorder(p, s, UpdateRoot(p, s, id, endpoint, update, now, utc), true, now, utc);
    RunEventIsPreorder(p, s, TimerRoot(p, s, now, utc), false, now, utc);
    RunEventIsPreorder(p, s, ScheduleRoot(p, s, trigger, now), false, now, utc);
  }
}
