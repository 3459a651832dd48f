/** From a poll to an execution: a trigger that a poll hands over runs its block,
    until the schedules are initialised under another revision. */
module ScheduleDelivery {
  import opened Values
  import opened SignalGraph
  import opened ScheduleRules
  import opened Configuration
  import opened LuaConversion
  import opened Engines
  import opened LogicBlocks
  import opened ScheduleCursors
  import opened Cascades
  import opened PlanFacts
  import opened CascadeSafety
  import opened RuntimeEvents
  import opened RuntimeSafety
  import opened SchedulePolling
  import opened RuntimeRuns
  import opened ScheduleRuns
  import opened EventExecutions

  // ----- one machine --------------------------------------------------------------------------

  /** The cursor carries the revision of the schedules. */
  predicate Marked(v: View) { v.cursor.Some? ==> v.cursor.value.structuralRevision == v.revision.GetOr(0) }

  /** Only an initialisation changes the revision, and cursors are never lost. */
  lemma StepKeepsMark(rule: Rule, site: Site, v: View, e: ClockEvent)
    requires Marked(v)
    ensures var (after, firing) := ViewStep(rule, site, v, e);
            && Marked(after)
            && (!e.Begin? ==> after.revision == v.revision && (v.cursor.Some? ==> after.cursor.Some?))
            && (e.Begin? ==> after.revision == Some(e.revision))
            && (firing.Some? ==> e.Poll? && e.utc.Some? && e.enabled && after.cursor.Some?)
  {
    hide NextOccurrence, Coalesce;
  }

  /** A poll delivers exactly if the schedule is on and its next occurrence has
      been reached. */
  lemma PollDelivers(rule: Rule, site: Site, v: View, now: int, enabled: bool)
    requires v.cursor.Some? && !v.cursor.value.needsRebaseline && !ClockJumped(v.lastWallClock, now)
    ensures ViewStep(rule, site, v, Poll(Some(now), enabled)).1.Some?
       <==> enabled && v.cursor.value.next.Some? && v.cursor.value.next.value <= now
  {
    hide NextOccurrence, Coalesce;
  }

  /** The cursor awaits a baseline, or pends the next occurrence after one. */
  ghost predicate Based(rule: Rule, site: Site, v: View) {
    v.cursor.Some? && !v.cursor.value.needsRebaseline ==> exists base :: v.cursor.value.next == NextOccurrence(rule, site, base)
  }

  /** Every event keeps that, and a poll with a clock leaves no enabled schedule
      without a baseline. */
  lemma StepKeepsBased(rule: Rule, site: Site, v: View, e: ClockEvent)
    requires Based(rule, site, v)
    ensures var after := ViewStep(rule, site, v, e).0;
            && Based(rule, site, after)
            && (e.Poll? && e.utc.Some? && e.enabled ==> after.cursor.Some? && !after.cursor.value.needsRebaseline)
  {
    hide NextOccurrence, Coalesce;
  }

  // ----- a poll ------------------------------------------------------------------------------------

  /** Whatever a poll hands over names an enabled schedule of an enabled block,
      the sample, and the revision of its cursor. */
  lemma HandedOverCurrent(p: Plan, s: RuntimeState, now: MonotonicMs, utc: Option<int>, t: ScheduleTrigger) returns (c: nat, j: nat)
    requires ScheduledPlan(p, s) && !Earlier(s, now)
    requires PollSchedules(p, s, now, utc).1.Ok? && t in PollSchedules(p, s, now, utc).1.value
    requires Marked(ViewOf(s.schedules, (t.block, t.name)))
    ensures Configured(p, c, j) && c < |s.blocks| && KeyAt(p, c, j) == (t.block, t.name) && BlockPosition(p.config.blocks, t.block) == Some(c)
    ensures s.blocks[c].enabled && utc == Some(t.detectedAt)
    ensures Current(p, PollSchedules(p, s, now, utc).0, c, t)
  {
    hide PollSchedules, ViewStep, ScheduleSlots, SortedTriggers;
    var i := TriggersHaveSlots(p, s, now, utc, t);
    c, j := SlotOrigin(p, s, i);
    BlockAt(p, c);
    var slot := ScheduleSlots(p, s)[i];
    PollProjects(p, s, now, utc, i);
    StepKeepsMark(slot.rule, p.config.site, ViewOf(s.schedules, slot.Key()), Poll(utc, slot.on));
  }

  /** A schedule whose clock has not jumped is handed over exactly if it and its
      block are enabled and its pending occurrence has been reached. */
  lemma HandedOverExactly(p: Plan, s: RuntimeState, now: MonotonicMs, utc: int, c: nat, j: nat)
    requires ScheduledPlan(p, s) && !Earlier(s, now) && Configured(p, c, j) && !ClockJumped(s.schedules.lastWallClock, utc)
    requires KeyAt(p, c, j) in s.schedules.cursors && !s.schedules.cursors[KeyAt(p, c, j)].needsRebaseline
    ensures PollSchedules(p, s, now, Some(utc)).1.Ok?
    ensures var next := s.schedules.cursors[KeyAt(p, c, j)].next;
            (exists t :: t in PollSchedules(p, s, now, Some(utc)).1.value && (t.block, t.name) == KeyAt(p, c, j))
            <==> s.blocks[c].enabled && p.config.blocks[c].schedules[j].enabled && next.Some? && next.value <= utc
  {
    hide PollSchedules, ViewStep, ScheduleSlots, SortedTriggers;
    var i := SlotPosition(p, s, c, j);
    var slot := ScheduleSlots(p, s)[i];
    PollProjects(p, s, now, Some(utc), i);
    PollDelivers(slot.rule, p.config.site, ViewOf(s.schedules, slot.Key()), utc, slot.on);
  }

  // ----- runs ------------------------------------------------------------------------------------------

  /** The revision of the schedules, as the calls leave it. */
  ghost predicate Initialises(s: RuntimeState, call: HostCall) { call.BeginSchedules? && !Earlier(s, call.now) }

  lemma CallKeepsMark(p: Plan, rank: BlockId -> nat, s: RuntimeState, call: HostCall, c: nat, j: nat)
    requires SoundPlan(p, rank) && FullInv(p, s) && Configured(p, c, j) && Marked(ViewOf(s.schedules, KeyAt(p, c, j)))
    ensures var v, after := ViewOf(s.schedules, KeyAt(p, c, j)), ViewOf(Step(p, s, call).schedules, KeyAt(p, c, j));
            && Marked(after)
            && (!Initialises(s, call) ==> after.revision == v.revision && (v.cursor.Some? ==> after.cursor.Some?))
            && (Initialises(s, call) ==> after.revision == Some(call.revision))
  {
    hide ViewStep, Step, ScheduleSlots, BlocksOk, SignalsOk, CascadesWithin, Ranks, ValidPlan;
    assert ValidPlan(p);
    PlanIsScheduled(p, s);
    var i := SlotPosition(p, s, c, j);
    var slot := ScheduleSlots(p, s)[i];
    StepProjects(p, rank, s, call, i);
    var e := EventFor(p, s, slot, call);
    if e.Some? { StepKeepsMark(slot.rule, p.config.site, ViewOf(s.schedules, slot.Key()), e.value); }
  }

  lemma {:induction false} RunMarked(p: Plan, rank: BlockId -> nat, calls: seq<HostCall>, states: seq<RuntimeState>, c: nat, j: nat, n: nat)
    requires SoundPlan(p, rank) && IsRun(p, calls, states) && n < |states| && Configured(p, c, j)
    ensures Marked(ViewOf(states[n].schedules, KeyAt(p, c, j)))
  {
    hide SoundPlan, Step, Marked, Inv, Initialises, StateTotal, TimersTotal;
    if n == 0 {
      NothingMarked(p, KeyAt(p, c, j));
    } else {
      RunMarked(p, rank, calls, states, c, j, n - 1);
      RunsAreSafe(p, rank, calls, states, n - 1);
      CallKeepsMark(p, rank, states[n - 1], calls[n - 1], c, j);
    }
  }

  lemma NothingMarked(p: Plan, key: Key)
    ensures Marked(ViewOf(InitialState(p).schedules, key))
  {
  }

  lemma CurrentFromView(p: Plan, s: RuntimeState, c: nat, j: nat, t: ScheduleTrigger)
    requires Configured(p, c, j) && KeyAt(p, c, j) == (t.block, t.name) && Marked(ViewOf(s.schedules, KeyAt(p, c, j)))
    ensures Current(p, s, c, t) ==> ViewOf(s.schedules, KeyAt(p, c, j)).cursor.Some? && s.schedules.structuralRevision.GetOr(0) == t.structuralRevision
    ensures p.config.blocks[c].schedules[j].enabled && ViewOf(s.schedules, KeyAt(p, c, j)).cursor.Some? ==>
              s.schedules.structuralRevision.GetOr(0) == t.structuralRevision ==> Current(p, s, c, t)
  {
  }

  lemma CurrentIsEnabled(p: Plan, s: RuntimeState, c: nat, j: nat, t: ScheduleTrigger)
    requires Configured(p, c, j) && KeyAt(p, c, j) == (t.block, t.name) && Current(p, s, c, t) && DistinctSchedules(p.config.blocks[c].schedules)
    ensures p.config.blocks[c].schedules[j].enabled
  {
  }

  /** A handed-over trigger stays current as long as nothing initialises the
      schedules. */
  lemma {:induction false} StaysCurrent(p: Plan, rank: BlockId -> nat, calls: seq<HostCall>, states: seq<RuntimeState>, c: nat, j: nat, t: ScheduleTrigger, a: nat, b: nat)
    requires SoundPlan(p, rank) && IsRun(p, calls, states) && a <= b < |states| && Configured(p, c, j) && KeyAt(p, c, j) == (t.block, t.name)
    requires Current(p, states[a], c, t) && forall k :: a <= k < b ==> !Initialises(states[k], calls[k])
    ensures Current(p, states[b], c, t)
    decreases b
  {
    hide SoundPlan, Step, Marked, Current, Inv, Initialises;
    if a < b {
      StaysCurrent(p, rank, calls, states, c, j, t, a, b - 1);
      RunsAreSafe(p, rank, calls, states, b - 1);
      RunMarked(p, rank, calls, states, c, j, b - 1);
      CallKeepsCurrent(p, rank, states[b - 1], calls[b - 1], c, j, t);
    }
  }

  lemma CallKeepsCurrent(p: Plan, rank: BlockId -> nat, s: RuntimeState, call: HostCall, c: nat, j: nat, t: ScheduleTrigger)
    requires SoundPlan(p, rank) && FullInv(p, s) && Configured(p, c, j) && KeyAt(p, c, j) == (t.block, t.name)
    requires Marked(ViewOf(s.schedules, KeyAt(p, c, j))) && Current(p, s, c, t) && !Initialises(s, call)
    ensures Current(p, Step(p, s, call), c, t)
  {
    SoundIsValid(p, rank);
    BlockChecked(p, c);
    assert DistinctSchedules(p.config.blocks[c].schedules);
    hide SoundPlan, Step, Marked, Current, Inv, ValidPlan, BlockAccepted;
    CallKeepsMark(p, rank, s, call, c, j);
    CurrentFromView(p, s, c, j, t);
    CurrentIsEnabled(p, s, c, j, t);
    CurrentFromView(p, Step(p, s, call), c, j, t);
  }

  /** Where the trigger of a run comes from, and that it is current right after
      its poll. */
  lemma HandedOverBy(p: Plan, rank: BlockId -> nat, calls: seq<HostCall>, states: seq<RuntimeState>, a: nat, t: ScheduleTrigger) returns (c: nat, j: nat)
    requires SoundPlan(p, rank) && IsRun(p, calls, states) && a < |calls| && t in HandedOver(p, calls, states, a)
    ensures Configured(p, c, j) && KeyAt(p, c, j) == (t.block, t.name) && BlockPosition(p.config.blocks, t.block) == Some(c)
    ensures Current(p, states[a + 1], c, t) && calls[a].utc == Some(t.detectedAt)
  {
    hide SoundPlan, ValidPlan, Inv, Marked, Current, PollSchedules, ScheduledPlan, ScheduleSlots;
    var s := states[a];
    RunsAreSafe(p, rank, calls, states, a);
    SoundIsValid(p, rank);
    PlanIsScheduled(p, s);
    PollRefusedEarly(p, s, calls[a].now, calls[a].utc);
    var i := TriggersHaveSlots(p, s, calls[a].now, calls[a].utc, t);
    c, j := SlotOrigin(p, s, i);
    RunMarked(p, rank, calls, states, c, j, a);
    c, j := HandedOverCurrent(p, s, calls[a].now, calls[a].utc, t);
  }

  /** Over every run: a trigger that a poll handed over, processed later with no
      initialisation in between, runs its block exactly if the block may run. */
  lemma HandedOverTriggersRun(p: Plan, rank: BlockId -> nat, calls: seq<HostCall>, states: seq<RuntimeState>, a: nat, b: nat, t: ScheduleTrigger,
                              now: MonotonicMs, utc: Option<int>)
    requires SoundPlan(p, rank) && IsRun(p, calls, states) && a < b < |states| && t in HandedOver(p, calls, states, a)
    requires (forall k :: a < k < b ==> !Initialises(states[k], calls[k])) && !Earlier(states[b], now) && Shaped(p, states[b])
    ensures Known(p, t.block)
    ensures var c := BlockPosition(p.config.blocks, t.block).value;
            EventRan(p, states[b], ScheduleEvent(p, states[b], t, now, utc), t.block, MayRun(p, states[b].blocks[c], now),
                     ByScheduleOf(p, states[b], c, t, now), now, utc)
  {
    hide SoundPlan, Step, HandedOver, Current, MayRun, EventRan, ScheduleEvent, Initialises, Inv;
    var c, j := HandedOverBy(p, rank, calls, states, a, t);
    StaysCurrent(p, rank, calls, states, c, j, t, a + 1, b);
    RunsAreSafe(p, rank, calls, states, b);
    ScheduleEventRuns(p, rank, states[b], c, t, now, utc);
  }

  /** Once the schedules have been initialised under another revision, the
      trigger runs nothing. */
  lemma StaleTriggersRunNothing(p: Plan, rank: BlockId -> nat, calls: seq<HostCall>, states: seq<RuntimeState>, k: nat, b: nat, t: ScheduleTrigger,
                                now: MonotonicMs, utc: Option<int>)
    requires SoundPlan(p, rank) && IsRun(p, calls, states) && k < b < |states| && Known(p, t.block) && Shaped(p, states[b])
    requires Initialises(states[k], calls[k]) && calls[k].revision != t.structuralRevision
    requires (forall i :: k < i < b ==> !Initialises(states[i], calls[i])) && !Earlier(states[b], now)
    ensures ScheduleEvent(p, states[b], t, now, utc).result == Ok([])
  {
    hide SoundPlan, Step, MayRun, ScheduleEvent, Initialises, Inv, Current;
    var c := BlockPosition(p.config.blocks, t.block).value;
    RunsAreSafe(p, rank, calls, states, b);
    if j :| 0 <= j < |p.config.blocks[c].schedules| && p.config.blocks[c].schedules[j].name == t.name {
      RevisionStays(p, rank, calls, states, c, j, k, b);
      RunMarked(p, rank, calls, states, c, j, b);
      CurrentFromView(p, states[b], c, j, t);
    } else {
      NotConfigured(p, states[b], c, t);
    }
    ScheduleEventRuns(p, rank, states[b], c, t, now, utc);
  }

  lemma NotConfigured(p: Plan, s: RuntimeState, c: nat, t: ScheduleTrigger)
    requires c < |p.config.blocks| && forall j :: 0 <= j < |p.config.blocks[c].schedules| ==> p.config.blocks[c].schedules[j].name != t.name
    ensures !Current(p, s, c, t)
  {
  }

  lemma {:induction false} RevisionStays(p: Plan, rank: BlockId -> nat, calls: seq<HostCall>, states: seq<RuntimeState>, c: nat, j: nat, k: nat, b: nat)
    requires SoundPlan(p, rank) && IsRun(p, calls, states) && k < b < |states| && Configured(p, c, j)
    requires Initialises(states[k], calls[k]) && forall i :: k < i < b ==> !Initialises(states[i], calls[i])
    ensures states[b].schedules.structuralRevision == Some(calls[k].revision)
    decreases b
  {
    hide SoundPlan, Step, Marked, Inv;
    RunsAreSafe(p, rank, calls, states, b - 1);
    RunMarked(p, rank, calls, states, c, j, b - 1);
    CallKeepsMark(p, rank, states[b - 1], calls[b - 1], c, j);
    if k + 1 < b { RevisionStays(p, rank, calls, states, c, j, k, b - 1); }
  }

  lemma CallKeepsBased(p: Plan, rank: BlockId -> nat, s: RuntimeState, call: HostCall, c: nat, j: nat)
    requires SoundPlan(p, rank) && FullInv(p, s) && Configured(p, c, j)
    requires Based(p.config.blocks[c].schedules[j].rule, p.config.site, ViewOf(s.schedules, KeyAt(p, c, j)))
    ensures var rule, after := p.config.blocks[c].schedules[j].rule, ViewOf(Step(p, s, call).schedules, KeyAt(p, c, j));
            && Based(rule, p.config.site, after)
            && (call.PollClock? && !Earlier(s, call.now) && call.utc.Some? && s.blocks[c].enabled && p.config.blocks[c].schedules[j].enabled ==>
                  after.cursor.Some? && !after.cursor.value.needsRebaseline)
  {
    hide ViewStep, Step, ScheduleSlots, BlocksOk, SignalsOk, CascadesWithin, Ranks, ValidPlan, Based;
    assert ValidPlan(p);
    PlanIsScheduled(p, s);
    var i := SlotPosition(p, s, c, j);
    var slot := ScheduleSlots(p, s)[i];
    StepProjects(p, rank, s, call, i);
    var e := EventFor(p, s, slot, call);
    if e.Some? { StepKeepsBased(slot.rule, p.config.site, ViewOf(s.schedules, slot.Key()), e.value); }
  }

  /** In every state of every run each schedule awaits a baseline or pends the next
      occurrence after one; and a poll with a clock leaves no enabled schedule of
      an enabled block waiting. */
  lemma {:induction false} RunsAreBased(p: Plan, rank: BlockId -> nat, calls: seq<HostCall>, states: seq<RuntimeState>, c: nat, j: nat, n: nat)
    requires SoundPlan(p, rank) && IsRun(p, calls, states) && n < |states| && Configured(p, c, j)
    ensures Based(p.config.blocks[c].schedules[j].rule, p.config.site, ViewOf(states[n].schedules, KeyAt(p, c, j)))
    ensures n > 0 && calls[n - 1].PollClock? && !Earlier(states[n - 1], calls[n - 1].now) && calls[n - 1].utc.Some? ==>
              Shaped(p, states[n - 1])
              && (states[n - 1].blocks[c].enabled && p.config.blocks[c].schedules[j].enabled ==>
                    KeyAt(p, c, j) in states[n].schedules.cursors && !states[n].schedules.cursors[KeyAt(p, c, j)].needsRebaseline)
  {
    hide SoundPlan, Step, Based, Inv, StateTotal, TimersTotal;
    if n == 0 {
      NothingBased(p, c, j);
    } else {
      RunsAreBased(p, rank, calls, states, c, j, n - 1);
      RunsAreSafe(p, rank, calls, states, n - 1);
      CallKeepsBased(p, rank, states[n - 1], calls[n - 1], c, j);
    }
  }

  lemma NothingBased(p: Plan, c: nat, j: nat)
    requires Configured(p, c, j)
    ensures Based(p.config.blocks[c].schedules[j].rule, p.config.site, ViewOf(InitialState(p).schedules, KeyAt(p, c, j)))
  {
  }
}
