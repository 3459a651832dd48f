/** Whole runs: any sequence of host calls from a fresh runtime. */
module RuntimeRuns {
  import opened Values
  import opened SignalGraph
  import opened ScheduleRules
  import opened Configuration
  import opened TransientState
  import opened LuaConversion
  import opened Engines
  import opened LogicBlocks
  import opened ScheduleCursors
  import opened Cascades
  import opened PlanFacts
  import opened CascadeSafety
  import opened SignalAgreement
  import opened RuntimeEvents
  import opened RuntimeSafety
  import opened SchedulePolling

  datatype HostCall =
    | DriveInput(id: BlockId, endpoint: EndpointName, update: InputUpdate, now: MonotonicMs, utc: Option<int>)
    | FireTimer(now: MonotonicMs, utc: Option<int>)
    | RunTrigger(trigger: ScheduleTrigger, now: MonotonicMs, utc: Option<int>)
    | ResumeBlock(id: BlockId)
    | ActivateBlocks(updates: seq<BlockActivation>)
    | BeginSchedules(now: MonotonicMs, utc: Option<int>, revision: nat)
    | PollClock(now: MonotonicMs, utc: Option<int>)
    | RebaseBlock(id: BlockId, now: MonotonicMs, utc: Option<int>)

  ghost function Step(p: Plan, s: RuntimeState, call: HostCall): (t: RuntimeState)
    requires Shaped(p, s) && DistinctBlocks(p.config.blocks)
    ensures Shaped(p, t)
  {
    match call
    case DriveInput(id, endpoint, update, now, utc) => InputEvent(p, s, id, endpoint, update, now, utc).s
    case FireTimer(now, utc) => TimerEvent(p, s, now, utc).s
    case RunTrigger(trigger, now, utc) => ScheduleEvent(p, s, trigger, now, utc).s
    case ResumeBlock(id) => ResumeEvent(p, s, id).s
    case ActivateBlocks(updates) => ActivationEvent(p, s, updates).0
    case BeginSchedules(now, utc, revision) => InitialiseSchedules(p, s, now, utc, revision).0
    case PollClock(now, utc) => PollSchedules(p, s, now, utc).0
    case RebaseBlock(id, now, utc) => RebaselineBlock(p, s, id, now, utc).0
  }

  // ----- the invariant -------------------------------------------------------------------------

  lemma {:induction false} NoTotals(blocks: seq<BlockState>)
    requires forall b :: b in blocks ==> b.engine.state == map[] && b.engine.timers == map[]
    ensures StateTotal(blocks) == 0 && TimersTotal(blocks) == 0
    decreases |blocks|
  {
    if blocks != [] {
      var n := |blocks| - 1;
      assert blocks[n] in blocks;
      NoTotals(blocks[..n]);
    }
  }

  lemma InitialSafe(p: Plan)
    ensures FullInv(p, InitialState(p))
  {
    var s := InitialState(p);
    NoTotals(s.blocks);
  }

  lemma SchedulesDoNotMatter(p: Plan, s: RuntimeState, schedules: ScheduleState)
    requires FullInv(p, s)
    ensures FullInv(p, s.(schedules := schedules))
  {
  }

  lemma ClockSafe(p: Plan, s: RuntimeState, now: MonotonicMs, schedules: ScheduleState)
    requires FullInv(p, s) && !Earlier(s, now)
    ensures FullInv(p, Clock(s, now, schedules))
  {
    hide BlocksOk, SignalsOk;
    ClockAdvances(p, s, now);
    SchedulesDoNotMatter(p, At(s, now), schedules);
    assert Clock(s, now, schedules) == At(s, now).(schedules := schedules);
  }

  /** Replacing a block by a lighter one in good order. */
  lemma LighterSafe(p: Plan, s: RuntimeState, c: nat, after: BlockState)
    requires FullInv(p, s) && c < |s.blocks| && Lighter(s.blocks[c], after)
    requires BlockInv(p.host.limits, p.config.blocks[c].endpoints, after, s.lastAcceptedAt)
    ensures FullInv(p, WithBlock(s, c, after))
  {
    hide StateWithin, TimersOf, WindowOk, HealthOk, SignalOk;
    LighterBlock(p, s, WithBlock(s, c, after), c);
  }

  lemma ResumeSafe(p: Plan, s: RuntimeState, id: BlockId)
    requires FullInv(p, s)
    ensures FullInv(p, ResumeEvent(p, s, id).s)
  {
    hide BlocksOk, SignalsOk, EngineInv;
    var at := BlockPosition(p.config.blocks, id);
    if at.Some? {
      BlockAtInv(p, s, at.value);
      ResetKeepsInv(p.host.limits, p.config.blocks[at.value].endpoints, s.blocks[at.value], s.lastAcceptedAt);
      LighterSafe(p, s, at.value, ResetHealth(s.blocks[at.value]));
    }
  }

  lemma ActivateBlockSafe(p: Plan, endpoints: seq<Endpoint>, b: BlockState, update: BlockActivation, clock: Option<MonotonicMs>)
    requires BlockInv(p.host.limits, endpoints, b, clock)
    ensures BlockInv(p.host.limits, endpoints, ActivateBlock(p, b, update), clock) && Lighter(b, ActivateBlock(p, b, update))
  {
    hide EngineInv, WindowOk, HealthOk;
    ResetKeepsInv(p.host.limits, endpoints, b, clock);
    if update.source.Some? {
      var installed := ActivateProgram(b, ProgramOf(p, update.source.value));
      assert BlockInv(p.host.limits, endpoints, installed, clock);
      ResetKeepsInv(p.host.limits, endpoints, installed, clock);
    }
  }

  lemma ActivateOneSafe(p: Plan, s: RuntimeState, update: BlockActivation)
    requires FullInv(p, s)
    ensures FullInv(p, ActivateOne(p, s, update))
  {
    hide BlocksOk, SignalsOk, ActivateBlock, BlockInv, Lighter;
    var at := BlockPosition(p.config.blocks, update.block);
    if at.Some? {
      BlockAtInv(p, s, at.value);
      ActivateBlockSafe(p, p.config.blocks[at.value].endpoints, s.blocks[at.value], update, s.lastAcceptedAt);
      LighterSafe(p, s, at.value, ActivateBlock(p, s.blocks[at.value], update));
      SchedulesDoNotMatter(p, WithBlock(s, at.value, ActivateBlock(p, s.blocks[at.value], update)), ActivateOne(p, s, update).schedules);
    }
  }

  lemma {:induction false} ActivateAllSafe(p: Plan, s: RuntimeState, updates: seq<BlockActivation>)
    requires FullInv(p, s)
    ensures FullInv(p, ActivateAll(p, s, updates))
    decreases |updates|
  {
    hide BlocksOk, SignalsOk, ActivateOne;
    if updates != [] {
      ActivateOneSafe(p, s, updates[0]);
      ActivateAllSafe(p, ActivateOne(p, s, updates[0]), updates[1..]);
    }
  }

  /** Every host call keeps the invariant and the global budgets. */
  lemma StepSafe(p: Plan, rank: BlockId -> nat, s: RuntimeState, call: HostCall)
    requires SoundPlan(p, rank) && FullInv(p, s)
    ensures FullInv(p, Step(p, s, call))
  {
    hide BlocksOk, SignalsOk, Ranks, CascadesWithin, InputEvent, TimerEvent, ScheduleEvent, ResumeEvent, ActivateAll, Evolves, Updated, PollBase, ScheduleSlots;
    match call {
      case DriveInput(id, endpoint, update, now, utc) => InputEventSafe(p, rank, s, id, endpoint, update, now, utc);
      case FireTimer(now, utc) => TimerEventSafe(p, rank, s, now, utc);
      case RunTrigger(trigger, now, utc) => ScheduleEventSafe(p, rank, s, trigger, now, utc);
      case ResumeBlock(id) => ResumeSafe(p, s, id);
      case ActivateBlocks(updates) => ActivateAllSafe(p, s, updates);
      case BeginSchedules(now, utc, revision) => if !Earlier(s, now) { ClockSafe(p, s, now, InitialiseSchedules(p, s, now, utc, revision).0.schedules); }
      case PollClock(now, utc) => if !Earlier(s, now) { ClockSafe(p, s, now, PollSchedules(p, s, now, utc).0.schedules); }
      case RebaseBlock(id, now, utc) => if !Earlier(s, now) { ClockSafe(p, s, now, RebaselineBlock(p, s, id, now, utc).0.schedules); }
    }
  }

  /** The state after the first `n` calls of a run. */
  ghost predicate IsRun(p: Plan, calls: seq<HostCall>, states: seq<RuntimeState>) {
    && DistinctBlocks(p.config.blocks)
    && |states| == |calls| + 1 && states[0] == InitialState(p)
    && forall i :: 0 <= i < |calls| ==> Shaped(p, states[i]) && states[i + 1] == Step(p, states[i], calls[i])
  }

  /** Every state of every run satisfies the invariant: timers belong to enabled
      active blocks and carry the active revision, health matches the enabled
      flag, engines are never ahead of the runtime clock, and every budget
      holds. */
  lemma {:induction false} RunsAreSafe(p: Plan, rank: BlockId -> nat, calls: seq<HostCall>, states: seq<RuntimeState>, n: nat)
    requires SoundPlan(p, rank) && IsRun(p, calls, states) && n < |states|
    ensures FullInv(p, states[n])
  {
    if n == 0 {
      InitialSafe(p);
    } else {
      RunsAreSafe(p, rank, calls, states, n - 1);
      StepSafe(p, rank, states[n - 1], calls[n - 1]);
    }
  }
}
