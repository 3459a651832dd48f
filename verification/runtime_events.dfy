/** The entry points of the runtime as functions of its state. */
module RuntimeEvents {
  import opened Values
  import opened ScheduleRules
  import opened Configuration
  import opened TransientState
  import opened LuaConversion
  import opened Engines
  import opened LogicBlocks
  import opened ScheduleCursors
  import opened Cascades

  /** The first step of an event: the state it leaves, and the execution it
      started, if any. */
  datatype Root = Root(s: RuntimeState, result: Result<Option<BlockExecution>, RuntimeEventError>)

  /** What an event leaves behind and answers. */
  datatype EventResult = EventResult(s: RuntimeState, result: Result<seq<BlockExecution>, RuntimeEventError>)

  ghost function InitialBlock(b: BlockConfig): BlockState {
    BlockState(b.enabled, EngineState(b.logic, seq(|b.endpoints|, _ => InputState(None, None)), map[], map[], None),
               if b.enabled then Active else Disabled, 0, [], None)
  }

  ghost function InitialState(p: Plan): (s: RuntimeState)
    ensures Shaped(p, s)
  {
    var blocks := p.config.blocks;
    RuntimeState(seq(|blocks|, i requires 0 <= i < |blocks| => InitialBlock(blocks[i])),
                 seq(|p.config.signals|, _ => SignalState(None, None, None, None)),
                 None, 1, ScheduleState(map[], None, None))
  }

  function Earlier(s: RuntimeState, now: MonotonicMs): bool { s.lastAcceptedAt.Some? && now < s.lastAcceptedAt.value }

  // ----- roots ----------------------------------------------------------------------------

  /** Gives a root execution its identity. */
  function RootExecution(s: RuntimeState, block: BlockId, execution: Execution): Root {
    var named := AssignId(s, execution, None);
    Root(named.0, Ok(Some(BlockExecution(block, named.1))))
  }

  ghost function UpdateRoot(p: Plan, s: RuntimeState, id: BlockId, endpoint: EndpointName, update: InputUpdate,
                            now: MonotonicMs, utc: Option<int>): (r: Root)
    requires Shaped(p, s)
    ensures Shaped(p, r.s)
  {
    var at := BlockPosition(p.config.blocks, id);
    if at.None? then Root(s, Err(UnknownBlock(id)))
    else
      var c := at.value;
      var checked := ValidateUpdate(p.config.blocks[c].endpoints, endpoint, update);
      if checked.Err? then Root(s, Err(BlockError(id, checked.error)))
      else if Earlier(s, now) then Root(s, Err(TimeWentBackwards(Some(id), s.lastAcceptedAt.value, now)))
      else UpdateBlock(p, s, c, endpoint, update, now, utc)
  }

  /** The accepted part of an update: a block that may not run, or that its
      rate window rejects, only observes a triggering value. */
  ghost function UpdateBlock(p: Plan, s: RuntimeState, c: nat, endpoint: EndpointName, update: InputUpdate,
                             now: MonotonicMs, utc: Option<int>): (r: Root)
    requires Shaped(p, s) && c < |s.blocks|
    ensures Shaped(p, r.s)
  {
    var id := p.config.blocks[c].id;
    var asked := update.TriggerWith? && Runnable(s.blocks[c]);
    var (b, admitted) := if asked then Admit(s.blocks[c], now, p.host.limits.maxLiveExecutionsPerBlockPerSecond) else (s.blocks[c], false);
    var effective := if update.TriggerWith? && !admitted then Observe(update.value) else update;
    var step := ProcessUpdate(p.host, p.config.blocks[c].endpoints, b.engine, endpoint, effective, now, utc);
    var after := b.(engine := step.engine);
    match step.result
    case Err(error) => Root(WithBlock(s, c, after), Err(BlockError(id, error)))
    case Ok(None) => Root(WithBlock(s, c, after).(lastAcceptedAt := Some(now)), Ok(None))
    case Ok(Some(execution)) =>
      RootExecution(WithBlock(s, c, Record(after, execution.outcome)).(lastAcceptedAt := Some(now)), id, execution)
  }

  /** `(deadline, block, name)`: the order in which due timers fire. */
  datatype TimerKey = TimerKey(due: MonotonicMs, block: BlockId, name: TimerName)

  predicate KeyBefore(a: TimerKey, b: TimerKey) {
    a.due < b.due || (a.due == b.due && (a.block < b.block || (a.block == b.block && a.name < b.name)))
  }

  /** Timer `n` of block `c` can fire now. */
  ghost predicate CanFire(s: RuntimeState, now: MonotonicMs, c: nat, n: TimerName) {
    c < |s.blocks| && Runnable(s.blocks[c]) && n in s.blocks[c].engine.timers && s.blocks[c].engine.timers[n].dueAt <= now
  }

  ghost function KeyOf(p: Plan, s: RuntimeState, c: nat, n: TimerName): TimerKey
    requires c < |s.blocks| == |p.config.blocks| && n in s.blocks[c].engine.timers
  {
    TimerKey(s.blocks[c].engine.timers[n].dueAt, p.config.blocks[c].id, n)
  }

  /** Timer `n` of block `c` is the first of all that can fire. */
  ghost predicate IsFirst(p: Plan, s: RuntimeState, now: MonotonicMs, c: nat, n: TimerName)
    requires Shaped(p, s)
  {
    && CanFire(s, now, c, n)
    && forall d, m :: CanFire(s, now, d, m) ==> (d == c && m == n) || KeyBefore(KeyOf(p, s, c, n), KeyOf(p, s, d, m))
  }

  ghost predicate IsFirstBlock(p: Plan, s: RuntimeState, now: MonotonicMs, c: nat)
    requires Shaped(p, s)
  {
    exists n :: IsFirst(p, s, now, c, n)
  }

  ghost function FirstBlock(p: Plan, s: RuntimeState, now: MonotonicMs): (r: Option<nat>)
    requires Shaped(p, s)
    ensures r.Some? ==> r.value < |s.blocks| && IsFirstBlock(p, s, now, r.value)
    ensures r.None? ==> forall c :: !IsFirstBlock(p, s, now, c)
  {
    if c :| IsFirstBlock(p, s, now, c) then Some(c) else None
  }

  /** There is only one first timer. */
  lemma FirstBlockIs(p: Plan, s: RuntimeState, now: MonotonicMs, c: nat, n: TimerName)
    requires Shaped(p, s) && IsFirst(p, s, now, c, n)
    ensures FirstBlock(p, s, now) == Some(c)
  {
    assert IsFirstBlock(p, s, now, c);
    var found := FirstBlock(p, s, now).value;
    var m :| IsFirst(p, s, now, found, m);
    assert found == c;
  }

  ghost function TimerRoot(p: Plan, s: RuntimeState, now: MonotonicMs, utc: Option<int>): (r: Root)
    requires Shaped(p, s)
    ensures Shaped(p, r.s)
  {
    if Earlier(s, now) then Root(s, Err(TimeWentBackwards(None, s.lastAcceptedAt.value, now)))
    else
      var first := FirstBlock(p, s, now);
      if first.None? then Root(s.(lastAcceptedAt := Some(now)), Ok(None))
      else FireBlock(p, s, first.value, now, utc)
  }

  ghost function FireBlock(p: Plan, s: RuntimeState, c: nat, now: MonotonicMs, utc: Option<int>): (r: Root)
    requires Shaped(p, s) && c < |s.blocks|
    ensures Shaped(p, r.s)
  {
    var id := p.config.blocks[c].id;
    var (b, admitted) := Admit(s.blocks[c], now, p.host.limits.maxLiveExecutionsPerBlockPerSecond);
    if !admitted then Root(WithBlock(s, c, b).(lastAcceptedAt := Some(now)), Ok(None))
    else
      var step := ProcessTimer(p.host, p.config.blocks[c].endpoints, b.engine, now, utc);
      var after := b.(engine := step.engine);
      match step.result
      case Err(error) => Root(WithBlock(s, c, after), Err(BlockError(id, error)))
      case Ok(None) => Root(WithBlock(s, c, after).(lastAcceptedAt := Some(now)), Ok(None))
      case Ok(Some(execution)) =>
        RootExecution(WithBlock(s, c, Record(after, execution.outcome)).(lastAcceptedAt := Some(now)), id, execution)
  }

  function SchedulePosition(schedules: seq<BlockSchedule>, name: ScheduleName): (r: Option<nat>)
    ensures r.Some? ==> r.value < |schedules| && schedules[r.value].name == name
  {
    if schedules == [] then None
    else if schedules[0].name == name then Some(0)
    else
      var rest := SchedulePosition(schedules[1..], name);
      if rest.None? then None else Some(rest.value + 1)
  }

  /** A delivered trigger still names an enabled schedule of a runnable block,
      under the structural revision it was delivered for. */
  predicate TriggerCurrent(p: Plan, s: RuntimeState, c: nat, trigger: ScheduleTrigger)
    requires c < |s.blocks| == |p.config.blocks|
  {
    var schedules := p.config.blocks[c].schedules;
    var at := SchedulePosition(schedules, trigger.name);
    var key := (trigger.block, trigger.name);
    && Runnable(s.blocks[c])
    && at.Some? && schedules[at.value].enabled
    && key in s.schedules.cursors && s.schedules.cursors[key].structuralRevision == trigger.structuralRevision
  }

  ghost function ScheduleRoot(p: Plan, s: RuntimeState, trigger: ScheduleTrigger, now: MonotonicMs): (r: Root)
    requires Shaped(p, s)
    ensures Shaped(p, r.s)
  {
    if Earlier(s, now) then Root(s, Err(TimeWentBackwards(None, s.lastAcceptedAt.value, now)))
    else
      var timed := s.(lastAcceptedAt := Some(now));
      var at := BlockPosition(p.config.blocks, trigger.block);
      if at.None? || !TriggerCurrent(p, timed, at.value, trigger) then Root(timed, Ok(None))
      else RunSchedule(p, timed, at.value, trigger, now)
  }

  ghost function RunSchedule(p: Plan, s: RuntimeState, c: nat, trigger: ScheduleTrigger, now: MonotonicMs): (r: Root)
    requires Shaped(p, s) && c < |s.blocks|
    ensures Shaped(p, r.s)
  {
    var (b, admitted) := Admit(s.blocks[c], now, p.host.limits.maxLiveExecutionsPerBlockPerSecond);
    if !admitted then Root(WithBlock(s, c, b), Ok(None))
    else
      var (engine, execution) :=
        Evaluate(p.host, p.config.blocks[c].endpoints, b.engine, BySchedule(trigger), now, Some(trigger.scheduledFor));
      RootExecution(WithBlock(s, c, Record(b.(engine := engine), execution.outcome)), p.config.blocks[c].id, execution)
  }

  // ----- usage ----------------------------------------------------------------------------

  function SourceTotal(blocks: seq<BlockState>): nat {
    if blocks == [] then 0 else SourceTotal(blocks[..|blocks| - 1]) + |blocks[|blocks| - 1].engine.logic.source|
  }

  ghost function StateTotal(blocks: seq<BlockState>): nat {
    if blocks == [] then 0 else StateTotal(blocks[..|blocks| - 1]) + TotalBytes(blocks[|blocks| - 1].engine.state)
  }

  function TimersTotal(blocks: seq<BlockState>): nat {
    if blocks == [] then 0 else TimersTotal(blocks[..|blocks| - 1]) + |blocks[|blocks| - 1].engine.timers|
  }

  /** The first global budget the state exceeds. */
  ghost function UsageError(limits: Limits, s: RuntimeState): Option<RuntimeEventError> {
    if SourceTotal(s.blocks) > limits.maxLogicSourceBytesTotal then
      Some(ResourceLimit(LogicSource, SourceTotal(s.blocks), limits.maxLogicSourceBytesTotal))
    else if StateTotal(s.blocks) > limits.maxStateBytesTotal then
      Some(ResourceLimit(StateData, StateTotal(s.blocks), limits.maxStateBytesTotal))
    else if TimersTotal(s.blocks) > limits.maxPendingTimersTotal then
      Some(ResourceLimit(TimerCount, TimersTotal(s.blocks), limits.maxPendingTimersTotal))
    else None
  }

  // ----- whole events ----------------------------------------------------------------------

  /** Errors after which the checkpoint is restored: all but the cascade limit. */
  predicate RollsBack(error: RuntimeEventError) { !error.CascadeLimitReached? }

  /** Follows a root execution and checks the global budgets. */
  ghost function Follow(p: Plan, checkpoint: RuntimeState, s: RuntimeState, x: BlockExecution, now: MonotonicMs, utc: Option<int>): (r: EventResult)
    requires Shaped(p, checkpoint) && Shaped(p, s) && Known(p, x.block)
    ensures Shaped(p, r.s)
  {
    var o := Propagate(p, s, [x], 0, now, utc);
    if o.error.Some? then EventResult(if RollsBack(o.error.value) then checkpoint else o.s, Err(o.error.value))
    else
      var exceeded := UsageError(p.host.limits, o.s);
      if exceeded.Some? then EventResult(checkpoint, Err(exceeded.value)) else EventResult(o.s, Ok(o.execs))
  }

  /** Runs an event from its root. Only input updates restore the checkpoint
      when the root itself fails. */
  ghost function RunEvent(p: Plan, checkpoint: RuntimeState, root: Root, restores: bool, now: MonotonicMs, utc: Option<int>): (r: EventResult)
    requires Shaped(p, checkpoint) && Shaped(p, root.s)
    requires root.result.Ok? && root.result.value.Some? ==> Known(p, root.result.value.value.block)
    ensures Shaped(p, r.s)
  {
    match root.result
    case Err(error) => EventResult(if restores then checkpoint else root.s, Err(error))
    case Ok(None) => EventResult(root.s, Ok([]))
    case Ok(Some(x)) => Follow(p, checkpoint, root.s, x, now, utc)
  }

  lemma RootsAreKnown(p: Plan, s: RuntimeState)
    requires Shaped(p, s) && DistinctBlocks(p.config.blocks)
    ensures forall id, endpoint, update, now, utc ::
              var r := UpdateRoot(p, s, id, endpoint, update, now, utc).result; r.Ok? && r.value.Some? ==> Known(p, r.value.value.block)
    ensures forall now, utc ::
              var r := TimerRoot(p, s, now, utc).result; r.Ok? && r.value.Some? ==> Known(p, r.value.value.block)
    ensures forall trigger, now ::
              var r := ScheduleRoot(p, s, trigger, now).result; r.Ok? && r.value.Some? ==> Known(p, r.value.value.block)
  {
  }

  ghost function InputEvent(p: Plan, s: RuntimeState, id: BlockId, endpoint: EndpointName, update: InputUpdate,
                            now: MonotonicMs, utc: Option<int>): (r: EventResult)
    requires Shaped(p, s) && DistinctBlocks(p.config.blocks)
    ensures Shaped(p, r.s)
  {
    RootsAreKnown(p, s);
    RunEvent(p, s, UpdateRoot(p, s, id, endpoint, update, now, utc), true, now, utc)
  }

  ghost function TimerEvent(p: Plan, s: RuntimeState, now: MonotonicMs, utc: Option<int>): (r: EventResult)
    requires Shaped(p, s) && DistinctBlocks(p.config.blocks)
    ensures Shaped(p, r.s)
  {
    RootsAreKnown(p, s);
    RunEvent(p, s, TimerRoot(p, s, now, utc), false, now, utc)
  }

  ghost function ScheduleEvent(p: Plan, s: RuntimeState, trigger: ScheduleTrigger, now: MonotonicMs, utc: Option<int>): (r: EventResult)
    requires Shaped(p, s) && DistinctBlocks(p.config.blocks)
    ensures Shaped(p, r.s)
  {
    RootsAreKnown(p, s);
    RunEvent(p, s, ScheduleRoot(p, s, trigger, now), false, now, utc)
  }

  // ----- operations that run no handler -----------------------------------------------------

  ghost function ResumeEvent(p: Plan, s: RuntimeState, id: BlockId): (r: EventResult)
    requires Shaped(p, s)
    ensures Shaped(p, r.s)
  {
    var at := BlockPosition(p.config.blocks, id);
    if at.None? then EventResult(s, Err(UnknownBlock(id)))
    else EventResult(WithBlock(s, at.value, ResetHealth(s.blocks[at.value])), Ok([]))
  }

  datatype BlockActivation = BlockActivation(block: BlockId, source: Option<seq<char>>, enabled: Option<bool>)

  datatype ActivationError =
    | EmptyUpdate(block: BlockId)
    | UnknownActivation(block: BlockId)
    | DuplicateBlock(block: BlockId)
    | InvalidSource(block: BlockId)

  /** A source that loads and fits the per-block budget. */
  predicate SourceAccepted(p: Plan, source: seq<char>) {
    |source| <= p.host.limits.maxLogicSourceBytesPerBlock && p.sandbox.loads(source)
  }

  function CheckActivation(p: Plan, updates: seq<BlockActivation>, i: nat): Option<ActivationError>
    requires i < |updates|
  {
    var update := updates[i];
    if update.source.None? && update.enabled.None? then Some(EmptyUpdate(update.block))
    else if BlockPosition(p.config.blocks, update.block).None? then Some(UnknownActivation(update.block))
    else if exists k :: 0 <= k < i && updates[k].block == update.block then Some(DuplicateBlock(update.block))
    else if update.source.Some? && !SourceAccepted(p, update.source.value) then Some(InvalidSource(update.block))
    else None
  }

  /** The first rejected update from `i` on. */
  ghost function CheckActivations(p: Plan, updates: seq<BlockActivation>, i: nat): Option<ActivationError>
    requires i <= |updates|
    decreases |updates| - i
  {
    if i == |updates| then None
    else
      var error := CheckActivation(p, updates, i);
      if error.Some? then error else CheckActivations(p, updates, i + 1)
  }

  function ProgramOf(p: Plan, source: seq<char>): LogicProgram { LogicProgram(source, p.sandbox.revisionFor(source)) }

  /** Flags every cursor of a block for a future-only baseline. */
  function FlagCursors(schedules: ScheduleState, id: BlockId): ScheduleState {
    schedules.(cursors := map key | key in schedules.cursors ::
      if key.0 == id then Flagged(schedules.cursors[key]) else schedules.cursors[key])
  }

  function ActivateBlock(p: Plan, b: BlockState, update: BlockActivation): BlockState {
    var installed := if update.source.Some? then ActivateProgram(b, ProgramOf(p, update.source.value)) else b;
    if update.enabled.Some? && update.enabled.value != b.enabled then SetEnabled(installed, update.enabled.value) else installed
  }

  ghost function ActivateOne(p: Plan, s: RuntimeState, update: BlockActivation): (t: RuntimeState)
    requires Shaped(p, s)
    ensures Shaped(p, t)
  {
    var at := BlockPosition(p.config.blocks, update.block);
    if at.None? then s
    else
      var b := s.blocks[at.value];
      var schedules := if update.enabled.Some? && update.enabled.value != b.enabled then FlagCursors(s.schedules, update.block) else s.schedules;
      WithBlock(s, at.value, ActivateBlock(p, b, update)).(schedules := schedules)
  }

  ghost function ActivateAll(p: Plan, s: RuntimeState, updates: seq<BlockActivation>): (t: RuntimeState)
    requires Shaped(p, s)
    ensures Shaped(p, t)
    decreases |updates|
  {
    if updates == [] then s else ActivateAll(p, ActivateOne(p, s, updates[0]), updates[1..])
  }

  ghost function ActivationEvent(p: Plan, s: RuntimeState, updates: seq<BlockActivation>): (r: (RuntimeState, Option<ActivationError>))
    requires Shaped(p, s)
    ensures Shaped(p, r.0)
  {
    var error := CheckActivations(p, updates, 0);
    if error.Some? then (s, error) else (ActivateAll(p, s, updates), None)
  }
}
