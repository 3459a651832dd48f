/** What an accepted batch of activations, and a resumption, do to each block; and
    that in every run each block has the switch and the program it was last
    given. */
module ActivationEffects {
  import opened Values
  import opened SignalGraph
  import opened ScheduleRules
  import opened Configuration
  import opened LuaConversion
  import opened Engines
  import opened LogicBlocks
  import opened Cascades
  import opened PlanFacts
  import opened CascadeSafety
  import opened RuntimeEvents
  import opened RuntimeSafety
  import opened SchedulePolling
  import opened RuntimeRuns
  import opened Activation

  // ----- which batches are accepted ------------------------------------------------------------

  /** The update asks for something, of a known block, and its source may run. */
  ghost predicate Proper(p: Plan, update: BlockActivation) {
    && (update.source.Some? || update.enabled.Some?)
    && (exists c :: 0 <= c < |p.config.blocks| && p.config.blocks[c].id == update.block)
    && (update.source.Some? ==> |update.source.value| <= p.host.limits.maxLogicSourceBytesPerBlock && p.sandbox.loads(update.source.value))
  }

  lemma {:induction false} CheckedExactly(p: Plan, updates: seq<BlockActivation>, i: nat)
    requires i <= |updates|
    ensures CheckActivations(p, updates, i).None? <==>
              && (forall k :: i <= k < |updates| ==> Proper(p, updates[k]))
              && forall j, k :: 0 <= j < k < |updates| && i <= k ==> updates[j].block != updates[k].block
    decreases |updates| - i
  {
    hide Proper;
    if i < |updates| {
      CheckedExactly(p, updates, i + 1);
      ProperExactly(p, updates, i);
    }
  }

  lemma ProperExactly(p: Plan, updates: seq<BlockActivation>, i: nat)
    requires i < |updates|
    ensures CheckActivation(p, updates, i).None? <==> Proper(p, updates[i]) && forall k :: 0 <= k < i ==> updates[k].block != updates[i].block
  {
    if BlockPosition(p.config.blocks, updates[i].block).Some? {
      var c := BlockPosition(p.config.blocks, updates[i].block).value;
      assert p.config.blocks[c].id == updates[i].block;
    }
  }

  /** A batch is accepted exactly if every update is proper and no block is named
      twice; a refused one changes nothing. */
  lemma AcceptedExactly(p: Plan, s: RuntimeState, updates: seq<BlockActivation>)
    requires Shaped(p, s)
    ensures var (t, error) := ActivationEvent(p, s, updates);
            && (error.None? <==> (forall update :: update in updates ==> Proper(p, update)) && DistinctUpdates(updates))
            && (error.Some? ==> t == s)
  {
    hide Proper, ActivateAll;
    CheckedExactly(p, updates, 0);
    assert (forall update :: update in updates ==> Proper(p, update)) <==> forall k :: 0 <= k < |updates| ==> Proper(p, updates[k]);
  }

  // ----- what it does to a block ------------------------------------------------------------------

  /** The update brings a program of another revision. */
  function NewProgram(p: Plan, b: BlockState, update: BlockActivation): bool {
    update.source.Some? && p.sandbox.revisionFor(update.source.value) != b.engine.logic.revision
  }

  function Switched(b: BlockState, update: BlockActivation): bool { update.enabled.Some? && update.enabled.value != b.enabled }

  /** `after` is block `b` as `update` asks. */
  ghost predicate Activated(p: Plan, b: BlockState, update: BlockActivation, after: BlockState) {
    && after.enabled == update.enabled.GetOr(b.enabled)
    && after.engine.logic == (if NewProgram(p, b, update) then LogicProgram(update.source.value, p.sandbox.revisionFor(update.source.value)) else b.engine.logic)
    && after.engine.state == b.engine.state && after.engine.inputs == b.engine.inputs
    && after.engine.timers == (if NewProgram(p, b, update) || (Switched(b, update) && !after.enabled) then map[] else b.engine.timers)
    && (if NewProgram(p, b, update) || Switched(b, update) then
          after.health == (if after.enabled then Active else Disabled) && after.failures == 0 && after.window == []
        else after == b)
  }

  lemma OneActivated(p: Plan, b: BlockState, update: BlockActivation)
    ensures Activated(p, b, update, ActivateBlock(p, b, update))
  {
  }

  /** The update of a block, if the batch has one. */
  function UpdateFor(updates: seq<BlockActivation>, id: BlockId): (r: Option<BlockActivation>)
    ensures r.Some? ==> r.value in updates && r.value.block == id
    ensures r.None? ==> forall u :: u in updates ==> u.block != id
  {
    if updates == [] then None else if updates[0].block == id then Some(updates[0]) else UpdateFor(updates[1..], id)
  }

  lemma {:induction false} EachActivated(p: Plan, s: RuntimeState, updates: seq<BlockActivation>, c: nat)
    requires Shaped(p, s) && DistinctBlocks(p.config.blocks) && DistinctUpdates(updates) && c < |s.blocks|
    ensures var update, after := UpdateFor(updates, p.config.blocks[c].id), ActivateAll(p, s, updates).blocks[c];
            if update.None? then after == s.blocks[c] else Activated(p, s.blocks[c], update.value, after)
    decreases |updates|
  {
    hide ActivateBlock, Activated, FlagCursors;
    if updates != [] {
      var t := ActivateOne(p, s, updates[0]);
      BlockAt(p, c);
      EachActivated(p, t, updates[1..], c);
      if updates[0].block == p.config.blocks[c].id {
        assert forall i :: 0 <= i < |updates[1..]| ==> updates[1..][i] == updates[i + 1];
        OneActivated(p, s.blocks[c], updates[0]);
      }
    }
  }

  /** An accepted batch gives each block it names what its update asks for, and
      leaves every other block, every signal and the clock as they were. */
  lemma BatchActivates(p: Plan, s: RuntimeState, updates: seq<BlockActivation>, c: nat)
    requires Shaped(p, s) && DistinctBlocks(p.config.blocks) && c < |s.blocks| && ActivationEvent(p, s, updates).1.None?
    ensures var t, update := ActivationEvent(p, s, updates).0, UpdateFor(updates, p.config.blocks[c].id);
            && (if update.None? then t.blocks[c] == s.blocks[c] else Activated(p, s.blocks[c], update.value, t.blocks[c]))
            && t.signals == s.signals && t.lastAcceptedAt == s.lastAcceptedAt && t.nextExecutionId == s.nextExecutionId
  {
    hide ActivateAll, Activated;
    AcceptedExactly(p, s, updates);
    EachActivated(p, s, updates, c);
    OnlyBlocks(p, s, updates);
  }

  lemma {:induction false} OnlyBlocks(p: Plan, s: RuntimeState, updates: seq<BlockActivation>)
    requires Shaped(p, s)
    ensures var t := ActivateAll(p, s, updates);
            t.signals == s.signals && t.lastAcceptedAt == s.lastAcceptedAt && t.nextExecutionId == s.nextExecutionId
    decreases |updates|
  {
    hide ActivateBlock, FlagCursors;
    if updates != [] { OnlyBlocks(p, ActivateOne(p, s, updates[0]), updates[1..]); }
  }

  /** Resuming a block gives it a clean record, and leaves everything else. */
  lemma ResumeClears(p: Plan, s: RuntimeState, id: BlockId)
    requires Shaped(p, s)
    ensures var r, at := ResumeEvent(p, s, id), BlockPosition(p.config.blocks, id);
            && (at.None? ==> r == EventResult(s, Err(UnknownBlock(id))))
            && (at.Some? ==>
                  var b, after := s.blocks[at.value], r.s.blocks[at.value];
                  && r.result == Ok([]) && after.health == (if b.enabled then Active else Disabled) && after.failures == 0 && after.window == []
                  && after.enabled == b.enabled && after.engine == b.engine && after.lastSuspension.None?
                  && (forall i :: 0 <= i < |s.blocks| && i != at.value ==> r.s.blocks[i] == s.blocks[i])
                  && r.s.signals == s.signals && r.s.schedules == s.schedules && r.s.lastAcceptedAt == s.lastAcceptedAt)
  {
  }

  // ----- runs -------------------------------------------------------------------------------------------

  /** The update that a call brings to a block, if it is an accepted activation. */
  ghost function Brought(p: Plan, call: HostCall, c: nat): Option<BlockActivation>
    requires c < |p.config.blocks|
  {
    if call.ActivateBlocks? && CheckActivations(p, call.updates, 0).None? then UpdateFor(call.updates, p.config.blocks[c].id) else None
  }

  /** The switch of a block after `n` calls, read off the calls alone. */
  ghost function EnabledAfter(p: Plan, calls: seq<HostCall>, c: nat, n: nat): bool
    requires c < |p.config.blocks| && n <= |calls|
  {
    if n == 0 then p.config.blocks[c].enabled
    else
      var update := Brought(p, calls[n - 1], c);
      if update.Some? then update.value.enabled.GetOr(EnabledAfter(p, calls, c, n - 1)) else EnabledAfter(p, calls, c, n - 1)
  }

  /** The program of a block after `n` calls, read off the calls alone: a source
      of the same revision does not replace it. */
  ghost function ProgramAfter(p: Plan, calls: seq<HostCall>, c: nat, n: nat): LogicProgram
    requires c < |p.config.blocks| && n <= |calls|
  {
    if n == 0 then p.config.blocks[c].logic
    else
      var before, update := ProgramAfter(p, calls, c, n - 1), Brought(p, calls[n - 1], c);
      if update.Some? && update.value.source.Some? && p.sandbox.revisionFor(update.value.source.value) != before.revision
      then LogicProgram(update.value.source.value, p.sandbox.revisionFor(update.value.source.value)) else before
  }

  /** No other call switches a block or replaces its program. */
  lemma CallActivates(p: Plan, rank: BlockId -> nat, s: RuntimeState, call: HostCall, c: nat)
    requires SoundPlan(p, rank) && FullInv(p, s) && c < |s.blocks|
    ensures var b, after, update := s.blocks[c], Step(p, s, call).blocks[c], Brought(p, call, c);
            if update.Some? then Activated(p, b, update.value, after) else after.enabled == b.enabled && after.engine.logic == b.engine.logic
  {
    hide BlocksOk, SignalsOk, Ranks, CascadesWithin, InputEvent, TimerEvent, ScheduleEvent, ActivationEvent, Activated;
    hide BlockEvolves, PollBase, ScheduleSlots, Updated, StateTotal, TimersTotal, BlockAccepted;
    match call {
      case DriveInput(id, endpoint, update, now, utc) =>
        InputEventSafe(p, rank, s, id, endpoint, update, now, utc);
        EvolvesKeeps(p, s, Step(p, s, call), now, c);
      case FireTimer(now, utc) =>
        TimerEventSafe(p, rank, s, now, utc);
        EvolvesKeeps(p, s, Step(p, s, call), now, c);
      case RunTrigger(trigger, now, utc) =>
        ScheduleEventSafe(p, rank, s, trigger, now, utc);
        EvolvesKeeps(p, s, Step(p, s, call), now, c);
      case ActivateBlocks(updates) =>
        AcceptedExactly(p, s, updates);
        RefusedActivation(p, s, updates);
        if CheckActivations(p, updates, 0).None? { BatchActivates(p, s, updates, c); }
      case _ =>
    }
  }

  lemma RefusedActivation(p: Plan, s: RuntimeState, updates: seq<BlockActivation>)
    requires Shaped(p, s)
    ensures ActivationEvent(p, s, updates).1 == CheckActivations(p, updates, 0)
  {
  }

  lemma EvolvesKeeps(p: Plan, s: RuntimeState, t: RuntimeState, now: MonotonicMs, c: nat)
    requires Shaped(p, s) && c < |s.blocks| && (t == s || Evolves(p, s, t, now))
    ensures |t.blocks| == |s.blocks| && t.blocks[c].enabled == s.blocks[c].enabled && t.blocks[c].engine.logic == s.blocks[c].engine.logic
  {
    if t != s { assert BlockEvolves(s.blocks[c], t.blocks[c], now); }
  }

  /** In every state of every run, each block is switched as the latest accepted
      activation asks and runs the latest program it was given, or as it was
      configured. */
  lemma {:induction false} RunsFollowActivations(p: Plan, rank: BlockId -> nat, calls: seq<HostCall>, states: seq<RuntimeState>, c: nat, n: nat)
    requires SoundPlan(p, rank) && IsRun(p, calls, states) && n < |states| && c < |p.config.blocks|
    ensures Shaped(p, states[n])
    ensures states[n].blocks[c].enabled == EnabledAfter(p, calls, c, n) && states[n].blocks[c].engine.logic == ProgramAfter(p, calls, c, n)
  {
    hide SoundPlan, Step, Brought, Inv, StateTotal, TimersTotal;
    RunsAreSafe(p, rank, calls, states, n);
    if n > 0 {
      RunsFollowActivations(p, rank, calls, states, c, n - 1);
      RunsAreSafe(p, rank, calls, states, n - 1);
      CallActivates(p, rank, states[n - 1], calls[n - 1], c);
    }
  }
}
