/** Schedules over whole runs: the runtime is the product of one machine per
    configured schedule, so nothing it delivers is ever delivered again. */
module ScheduleRuns {
  import opened Values
  import opened SignalGraph
  import opened ScheduleRules
  import opened Configuration
  import opened Engines
  import opened LogicBlocks
  import opened ScheduleCursors
  import opened Cascades
  import opened PlanFacts
  import opened CascadeSafety
  import opened RuntimeEvents
  import opened RuntimeSafety
  import opened SchedulePolling
  import opened RuntimeRuns

  /** The weekdays of a rule are a set as their type guarantees. */
  ghost predicate WeekdaysTyped(rule: Rule) {
    match rule
    case Fixed(_, weekdays) => WeekdaySet(weekdays)
    case Interval(_, _) => true
    case Astronomical(_, _, days) => WeekdaySet(days)
  }

  /** Validation accepts exactly the valid rules of those types. */
  lemma ValidExactly(rule: Rule)
    requires WeekdaysTyped(rule)
    ensures RuleInBounds(rule) <==> ValidRule(rule)
  {
  }

  /** Rules within their bounds, with the non-empty weekday sets their type
      guarantees. */
  ghost predicate RulesTyped(p: Plan) {
    forall i, j :: 0 <= i < |p.config.blocks| && 0 <= j < |p.config.blocks[i].schedules| ==> ValidRule(p.config.blocks[i].schedules[j].rule)
  }

  /** Every rule of an accepted configuration is valid, given those types. */
  lemma ConfiguredRulesAreTyped(p: Plan)
    requires ValidPlan(p)
    requires forall i, j :: 0 <= i < |p.config.blocks| && 0 <= j < |p.config.blocks[i].schedules| ==> WeekdaysTyped(p.config.blocks[i].schedules[j].rule)
    ensures RulesTyped(p)
  {
    forall i, j | 0 <= i < |p.config.blocks| && 0 <= j < |p.config.blocks[i].schedules|
      ensures ValidRule(p.config.blocks[i].schedules[j].rule)
    {
      BlockChecked(p, i);
      var rule := p.config.blocks[i].schedules[j].rule;
      assert rule == p.config.blocks[i].schedules[j].rule && p.config.blocks[i].schedules[j] in p.config.blocks[i].schedules;
      ValidExactly(rule);
    }
  }

  /** Apart from whether it is enabled, a slot never changes. */
  lemma {:induction false} SlotsStay(configs: seq<BlockConfig>, a: seq<BlockState>, b: seq<BlockState>, n: nat)
    requires n <= |configs| == |a| == |b|
    ensures |SlotsUpTo(configs, a, n)| == |SlotsUpTo(configs, b, n)|
    ensures forall i :: 0 <= i < |SlotsUpTo(configs, a, n)| ==>
              SlotsUpTo(configs, a, n)[i].Key() == SlotsUpTo(configs, b, n)[i].Key() && SlotsUpTo(configs, a, n)[i].rule == SlotsUpTo(configs, b, n)[i].rule
  {
    if n > 0 { SlotsStay(configs, a, b, n - 1); }
  }

  /** Some update switches the block. */
  ghost predicate Switches(p: Plan, s: RuntimeState, updates: seq<BlockActivation>, id: BlockId)
    requires Shaped(p, s)
    decreases |updates|
  {
    updates != [] && (SwitchesOne(p, s, updates[0], id) || Switches(p, ActivateOne(p, s, updates[0]), updates[1..], id))
  }

  ghost predicate SwitchesOne(p: Plan, s: RuntimeState, update: BlockActivation, id: BlockId)
    requires Shaped(p, s)
  {
    var at := BlockPosition(p.config.blocks, update.block);
    update.block == id && at.Some? && update.enabled.Some? && update.enabled.value != s.blocks[at.value].enabled
  }

  /** What a host call means to one schedule. */
  ghost function EventFor(p: Plan, s: RuntimeState, slot: Slot, call: HostCall): Option<ClockEvent>
    requires Shaped(p, s)
  {
    match call
    case BeginSchedules(now, utc, revision) => if Earlier(s, now) then None else Some(Begin(utc, revision))
    case PollClock(now, utc) => if Earlier(s, now) then None else Some(Poll(utc, slot.on))
    case RebaseBlock(id, now, utc) => if Earlier(s, now) || !Known(p, id) then None else Some(Rebase(utc, slot.block == id))
    case ActivateBlocks(updates) =>
      if CheckActivations(p, updates, 0).Some? || !Switches(p, s, updates, slot.block) then None else Some(Toggle)
    case _ => None
  }

  ghost function Moved(p: Plan, slot: Slot, v: View, e: Option<ClockEvent>): View {
    if e.None? then v else ViewStep(slot.rule, p.config.site, v, e.value).0
  }

  lemma {:induction false} ActivationProjects(p: Plan, s: RuntimeState, updates: seq<BlockActivation>, key: Key)
    requires Shaped(p, s)
    ensures var v := ViewOf(s.schedules, key);
            ViewOf(ActivateAll(p, s, updates).schedules, key)
            == if Switches(p, s, updates, key.0) then ViewStep(Interval(60, 0), Site(None), v, Toggle).0 else v
    decreases |updates|
  {
    hide ActivateBlock;
    if updates != [] {
      FlaggingProjects(s.schedules, updates[0].block, key);
      ActivationProjects(p, ActivateOne(p, s, updates[0]), updates[1..], key);
    }
  }

  /** One call moves the machine of schedule `i` by the event it means. */
  lemma StepProjects(p: Plan, rank: BlockId -> nat, s: RuntimeState, call: HostCall, i: nat)
    requires SoundPlan(p, rank) && FullInv(p, s) && ScheduledPlan(p, s) && i < |ScheduleSlots(p, s)|
    ensures var slot := ScheduleSlots(p, s)[i];
            ViewOf(Step(p, s, call).schedules, slot.Key()) == Moved(p, slot, ViewOf(s.schedules, slot.Key()), EventFor(p, s, slot, call))
  {
    hide BlocksOk, SignalsOk, CascadesWithin, Ranks, Updated, PollBase, InputEvent, TimerEvent, ScheduleEvent, ActivateAll, Switches, ScheduledPlan, ValidPlan, Fired, ScheduleSlots, PollView;
    var slot := ScheduleSlots(p, s)[i];
    match call {
      case DriveInput(id, endpoint, update, now, utc) => InputEventSafe(p, rank, s, id, endpoint, update, now, utc);
      case FireTimer(now, utc) => TimerEventSafe(p, rank, s, now, utc);
      case RunTrigger(trigger, now, utc) => ScheduleEventSafe(p, rank, s, trigger, now, utc);
      case ResumeBlock(id) =>
      case ActivateBlocks(updates) => ActivationProjects(p, s, updates, slot.Key());
      case BeginSchedules(now, utc, revision) => if !Earlier(s, now) { InitialiseProjects(p, s, now, utc, revision, i); }
      case PollClock(now, utc) => if !Earlier(s, now) { PollStepsMachine(p, s, now, utc, i); }
      case RebaseBlock(id, now, utc) => if !Earlier(s, now) && Known(p, id) { RebaselineProjects(p, s, id, now, utc, i); }
    }
  }

  lemma PlanIsScheduled(p: Plan, s: RuntimeState)
    requires ValidPlan(p) && Shaped(p, s)
    ensures ScheduledPlan(p, s)
  {
    forall b | b in p.config.blocks ensures DistinctSchedules(b.schedules) {
      assert BlockAccepted(b, p.host.limits, p.sandbox);
    }
  }

  lemma SlotRule(p: Plan, s: RuntimeState, i: nat)
    requires Shaped(p, s) && RulesTyped(p) && i < |ScheduleSlots(p, s)|
    ensures ValidRule(ScheduleSlots(p, s)[i].rule)
  {
    SlotsComplete(p.config.blocks, s.blocks, |s.blocks|, ScheduleSlots(p, s)[i]);
    assert ScheduleSlots(p, s)[i] in ScheduleSlots(p, s);
  }

  // ----- deliveries never repeat ------------------------------------------------------------------

  /** The cursor is ahead of what it last delivered. */
  ghost predicate Ahead(v: View) {
    v.cursor.Some? ==>
      && WellKept(v.cursor.value)
      && (v.cursor.value.next.Some? && v.cursor.value.lastDelivered.Some? ==> v.cursor.value.lastDelivered.value < v.cursor.value.next.value)
  }

  /** Everything up to `x` has been delivered. */
  ghost predicate Passed(v: View, x: int) {
    v.cursor.Some? && v.cursor.value.lastDelivered.Some? && x <= v.cursor.value.lastDelivered.value
  }

  lemma PollAhead(rule: Rule, site: Site, c: Cursor, now: int)
    requires ValidRule(rule) && now < I64_MAX && Ahead(View(Some(c), None, None))
    ensures !Rebaselined(rule, site, c, now).needsRebaseline && !PollCursor(rule, site, c, now).0.needsRebaseline
    ensures Ahead(View(Some(Rebaselined(rule, site, c, now)), None, None)) && Rebaselined(rule, site, c, now).lastDelivered == c.lastDelivered
    ensures var (after, firing) := PollCursor(rule, site, c, now);
            && Ahead(View(Some(after), None, None))
            && (firing.Some? ==> after.lastDelivered == Some(firing.value.scheduledFor) && firing.value.scheduledFor <= now
                                 && (c.lastDelivered.Some? ==> c.lastDelivered.value < firing.value.scheduledFor))
            && (firing.None? ==> after.lastDelivered == c.lastDelivered)
  {
    NextProgresses(rule, site, BaselineOf(now, c.lastDelivered));
    NextProgresses(rule, site, now);
    var based := if c.needsRebaseline then Rebaselined(rule, site, c, now) else c;
    if based.next.Some? && based.next.value <= now { CoalesceAdvances(rule, site, based.next.value, 1, now); }
  }

  /** A machine stays ahead, keeps what it passed until it is initialised
      again, and delivers only beyond it. */
  lemma StepStaysAhead(rule: Rule, site: Site, v: View, e: ClockEvent, x: int)
    requires ValidRule(rule) && BeforeTheEnd(e) && Ahead(v)
    ensures var (after, firing) := ViewStep(rule, site, v, e);
            && Ahead(after)
            && (Passed(v, x) && !e.Begin? ==> Passed(after, x) && (firing.Some? ==> x < firing.value.scheduledFor))
            && (firing.Some? ==> Passed(after, firing.value.scheduledFor) && e.Poll? && e.utc.Some? && firing.value.scheduledFor <= e.utc.value)
  {
    hide PollCursor, Rebaselined;
    match e {
      case Poll(utc, enabled) =>
        if utc.Some? {
          var c := CursorOr(v.cursor, v.revision);
          var revised := c.(structuralRevision := v.revision.GetOr(0));
          PollAhead(rule, site, revised, utc.value);
          var based := if ClockJumped(v.lastWallClock, utc.value) then Recomputed(rule, site, c, v.revision.GetOr(0), utc.value) else c;
          PollAhead(rule, site, based, utc.value);
        }
      case Begin(utc, revision) =>
      case Rebase(utc, own) =>
        if utc.Some? && own {
          PollAhead(rule, site, CursorOr(v.cursor, v.revision).(structuralRevision := v.revision.GetOr(0)), utc.value);
        }
      case Toggle =>
    }
  }

  /** The wall-clock sample of a call, if it has one that a schedule sees. */
  predicate SampledBeforeTheEnd(call: HostCall) {
    (call.BeginSchedules? || call.PollClock? || call.RebaseBlock?) && call.utc.Some? ==> call.utc.value < I64_MAX
  }

  lemma CallStaysAhead(p: Plan, rank: BlockId -> nat, s: RuntimeState, call: HostCall, i: nat, x: int)
    requires SoundPlan(p, rank) && FullInv(p, s) && RulesTyped(p) && i < |ScheduleSlots(p, s)| && SampledBeforeTheEnd(call)
    requires Ahead(ViewOf(s.schedules, ScheduleSlots(p, s)[i].Key()))
    ensures var key, t := ScheduleSlots(p, s)[i].Key(), Step(p, s, call);
            && Ahead(ViewOf(t.schedules, key))
            && (Passed(ViewOf(s.schedules, key), x) && !call.BeginSchedules? ==> Passed(ViewOf(t.schedules, key), x))
  {
    hide ViewStep, Step, ScheduleSlots, BlocksOk, SignalsOk, CascadesWithin, Ranks, RulesTyped, Ahead, Passed, ValidPlan;
    var slot := ScheduleSlots(p, s)[i];
    PlanIsScheduled(p, s);
    SlotRule(p, s, i);
    StepProjects(p, rank, s, call, i);
    var e := EventFor(p, s, slot, call);
    if e.Some? { StepStaysAhead(slot.rule, p.config.site, ViewOf(s.schedules, slot.Key()), e.value, x); }
  }

  lemma SlotsAlongRun(p: Plan, s: RuntimeState, t: RuntimeState, i: nat)
    requires Shaped(p, s) && Shaped(p, t) && i < |ScheduleSlots(p, s)|
    ensures i < |ScheduleSlots(p, t)| && ScheduleSlots(p, t)[i].Key() == ScheduleSlots(p, s)[i].Key() && ScheduleSlots(p, t)[i].rule == ScheduleSlots(p, s)[i].rule
  {
    SlotsStay(p.config.blocks, s.blocks, t.blocks, |s.blocks|);
  }

  /** The machine of schedule `i` along a run: always ahead, and past `x` from
      call `from` on unless the schedules are initialised again. */
  lemma {:induction false} RunStaysAhead(p: Plan, rank: BlockId -> nat, calls: seq<HostCall>, states: seq<RuntimeState>, key: Key, i: nat, from: nat, n: nat, x: int)
    requires SoundPlan(p, rank) && RulesTyped(p) && IsRun(p, calls, states) && from <= n < |states| && i < |ScheduleSlots(p, states[0])|
    requires key == ScheduleSlots(p, states[0])[i].Key() && forall call :: call in calls ==> SampledBeforeTheEnd(call)
    requires from > 0 ==> Passed(ViewOf(states[from].schedules, key), x)
    requires forall k :: from <= k < n ==> from == 0 || !calls[k].BeginSchedules?
    ensures Ahead(ViewOf(states[n].schedules, key)) && (from > 0 ==> Passed(ViewOf(states[n].schedules, key), x))
    decreases n, from
  {
    hide SoundPlan, RulesTyped, Step, ScheduleSlots, Ahead, Passed, SampledBeforeTheEnd, Inv, StateTotal, TimersTotal;
    if n == 0 {
      NothingScheduledYet(p, key);
    } else if n == from {
      RunStaysAhead(p, rank, calls, states, key, i, 0, n, x);
    } else {
      RunStaysAhead(p, rank, calls, states, key, i, from, n - 1, x);
      RunsAreSafe(p, rank, calls, states, n - 1);
      SlotsAlongRun(p, states[0], states[n - 1], i);
      CallStaysAhead(p, rank, states[n - 1], calls[n - 1], i, x);
    }
  }

  lemma NothingScheduledYet(p: Plan, key: Key)
    ensures Ahead(ViewOf(InitialState(p).schedules, key))
  {
  }

  /** What a call hands over. */
  ghost function Triggers(p: Plan, s: RuntimeState, call: HostCall): seq<ScheduleTrigger>
    requires Shaped(p, s)
  {
    if !call.PollClock? then []
    else
      var triggers := PollSchedules(p, s, call.now, call.utc).1;
      if triggers.Ok? then triggers.value else []
  }

  /** What call `n` of a run hands over. */
  ghost function HandedOver(p: Plan, calls: seq<HostCall>, states: seq<RuntimeState>, n: nat): seq<ScheduleTrigger>
    requires IsRun(p, calls, states) && n < |calls|
  {
    Triggers(p, states[n], calls[n])
  }

  /** A handed-over trigger is the delivery of its own machine. */
  lemma HandedByMachine(p: Plan, rank: BlockId -> nat, calls: seq<HostCall>, states: seq<RuntimeState>, n: nat, t: ScheduleTrigger, x: int)
    returns (i: nat)
    requires SoundPlan(p, rank) && RulesTyped(p) && IsRun(p, calls, states) && n < |calls|
    requires t in HandedOver(p, calls, states, n) && forall call :: call in calls ==> SampledBeforeTheEnd(call)
    ensures i < |ScheduleSlots(p, states[0])| && ScheduleSlots(p, states[0])[i].Key() == (t.block, t.name)
    ensures Passed(ViewOf(states[n].schedules, (t.block, t.name)), x) ==> x < t.scheduledFor
    ensures Passed(ViewOf(states[n + 1].schedules, (t.block, t.name)), t.scheduledFor)
    ensures Some(t.detectedAt) == calls[n].utc && t.scheduledFor <= t.detectedAt
  {
    hide SoundPlan, ValidPlan, RulesTyped, ScheduleSlots, Ahead, Passed, Inv, PollSchedules, ViewStep, SortedTriggers;
    var s, now, utc := states[n], calls[n].now, calls[n].utc;
    RunsAreSafe(p, rank, calls, states, n);
    assert ValidPlan(p) by { SoundIsValid(p, rank); }
    PlanIsScheduled(p, s);
    PollRefusedEarly(p, s, now, utc);
    i := TriggersHaveSlots(p, s, now, utc, t);
    var slot := ScheduleSlots(p, s)[i];
    PollProjects(p, s, now, utc, i);
    SlotRule(p, s, i);
    SlotsAlongRun(p, s, states[0], i);
    RunStaysAhead(p, rank, calls, states, slot.Key(), i, 0, n, 0);
    assert SampledBeforeTheEnd(calls[n]);
    StepStaysAhead(slot.rule, p.config.site, ViewOf(s.schedules, slot.Key()), Poll(utc, slot.on), x);
  }

  lemma SoundIsValid(p: Plan, rank: BlockId -> nat)
    requires SoundPlan(p, rank)
    ensures ValidPlan(p)
  {
  }

  lemma PollRefusedEarly(p: Plan, s: RuntimeState, now: MonotonicMs, utc: Option<int>)
    requires Shaped(p, s)
    ensures PollSchedules(p, s, now, utc).1.Ok? <==> !Earlier(s, now)
  {
  }

  // ----- deliveries lie after the latest baseline ----------------------------------------------------

  /** Schedule `j` of block `c`. */
  ghost predicate Configured(p: Plan, c: nat, j: nat) {
    c < |p.config.blocks| && j < |p.config.blocks[c].schedules|
  }

  function KeyAt(p: Plan, c: nat, j: nat): Key
    requires Configured(p, c, j)
  {
    (p.config.blocks[c].id, p.config.blocks[c].schedules[j].name)
  }

  function SlotIn(p: Plan, s: RuntimeState, c: nat, j: nat): Slot
    requires Configured(p, c, j) && c < |s.blocks|
  {
    SlotAt(p.config.blocks[c], s.blocks[c].enabled, j)
  }

  lemma SlotPosition(p: Plan, s: RuntimeState, c: nat, j: nat) returns (i: nat)
    requires Shaped(p, s) && Configured(p, c, j)
    ensures i < |ScheduleSlots(p, s)| && ScheduleSlots(p, s)[i] == SlotIn(p, s, c, j)
  {
    var slot := SlotIn(p, s, c, j);
    SlotsComplete(p.config.blocks, s.blocks, |s.blocks|, slot);
    assert FromBlock(p.config.blocks, s.blocks, |s.blocks|, slot);
    i :| 0 <= i < |ScheduleSlots(p, s)| && ScheduleSlots(p, s)[i] == slot;
  }

  /** The latest baseline the cursor of a schedule received in the first `n`
      calls. */
  ghost function LatestBaseline(p: Plan, calls: seq<HostCall>, states: seq<RuntimeState>, c: nat, j: nat, n: nat): Option<int>
    requires IsRun(p, calls, states) && n <= |calls| && Configured(p, c, j)
  {
    if n == 0 then None
    else
      var taken := BaselineTaken(p, states[n - 1], calls[n - 1], c, j);
      if taken.Some? then taken else LatestBaseline(p, calls, states, c, j, n - 1)
  }

  ghost function BaselineTaken(p: Plan, s: RuntimeState, call: HostCall, c: nat, j: nat): Option<int>
    requires Shaped(p, s) && Configured(p, c, j)
  {
    var e := EventFor(p, s, SlotIn(p, s, c, j), call);
    if e.None? then None else TakenBaseline(ViewOf(s.schedules, KeyAt(p, c, j)), e.value)
  }

  /** What is pending lies after the latest baseline. */
  ghost predicate PendingAfter(v: View, baseline: Option<int>) { Journaled(v, Journal([], baseline)) }

  lemma EventPendingAfter(rule: Rule, site: Site, v: View, baseline: Option<int>, e: ClockEvent)
    requires ValidRule(rule) && BeforeTheEnd(e) && PendingAfter(v, baseline)
    ensures var (after, firing) := ViewStep(rule, site, v, e);
            var taken := TakenBaseline(v, e);
            var latest := if taken.Some? then taken else baseline;
            && PendingAfter(after, latest)
            && (firing.Some? ==> latest.Some? && latest.value < firing.value.scheduledFor)
  {
    hide ViewStep, TakenBaseline, Forward;
    var j := Journal([], baseline);
    StepJournaled(rule, site, v, j, e);
    var next := JournalStep(rule, site, v, j, e);
    BeginDeliversNothing(rule, site, v, e);
    if ViewStep(rule, site, v, e).1.Some? { assert next.delivered[0].baseline == next.baseline; }
  }

  lemma BeginDeliversNothing(rule: Rule, site: Site, v: View, e: ClockEvent)
    ensures e.Begin? ==> ViewStep(rule, site, v, e).1.None?
  {
  }

  lemma CallPendingAfter(p: Plan, rank: BlockId -> nat, s: RuntimeState, call: HostCall, c: nat, j: nat, baseline: Option<int>)
    requires SoundPlan(p, rank) && FullInv(p, s) && RulesTyped(p) && Configured(p, c, j) && SampledBeforeTheEnd(call)
    requires PendingAfter(ViewOf(s.schedules, KeyAt(p, c, j)), baseline)
    ensures var taken := BaselineTaken(p, s, call, c, j);
            PendingAfter(ViewOf(Step(p, s, call).schedules, KeyAt(p, c, j)), if taken.Some? then taken else baseline)
  {
    hide ViewStep, Step, ScheduleSlots, BlocksOk, SignalsOk, CascadesWithin, Ranks, RulesTyped, PendingAfter, ValidPlan, TakenBaseline;
    var i := SlotPosition(p, s, c, j);
    var slot := SlotIn(p, s, c, j);
    PlanIsScheduled(p, s);
    SlotRule(p, s, i);
    StepProjects(p, rank, s, call, i);
    var e := EventFor(p, s, slot, call);
    if e.Some? { EventPendingAfter(slot.rule, p.config.site, ViewOf(s.schedules, slot.Key()), baseline, e.value); }
  }

  lemma {:induction false} RunPendingAfter(p: Plan, rank: BlockId -> nat, calls: seq<HostCall>, states: seq<RuntimeState>, c: nat, j: nat, n: nat)
    requires SoundPlan(p, rank) && RulesTyped(p) && IsRun(p, calls, states) && n <= |calls| && Configured(p, c, j)
    requires forall call :: call in calls ==> SampledBeforeTheEnd(call)
    ensures PendingAfter(ViewOf(states[n].schedules, KeyAt(p, c, j)), LatestBaseline(p, calls, states, c, j, n))
  {
    hide SoundPlan, RulesTyped, Step, SampledBeforeTheEnd, BaselineTaken;
    if n > 0 {
      hide PendingAfter;
      RunPendingAfter(p, rank, calls, states, c, j, n - 1);
      RunsAreSafe(p, rank, calls, states, n - 1);
      CallPendingAfter(p, rank, states[n - 1], calls[n - 1], c, j, LatestBaseline(p, calls, states, c, j, n - 1));
    }
  }

  /** A trigger handed over by call `n` carries an occurrence after the latest
      baseline of its schedule. */
  ghost predicate AfterItsBaseline(p: Plan, calls: seq<HostCall>, states: seq<RuntimeState>, n: nat, t: ScheduleTrigger)
    requires IsRun(p, calls, states) && n < |calls|
  {
    exists c, j :: Configured(p, c, j) && KeyAt(p, c, j) == (t.block, t.name)
                   && LatestBaseline(p, calls, states, c, j, n + 1).Some? && LatestBaseline(p, calls, states, c, j, n + 1).value < t.scheduledFor
  }

  lemma DeliveredAfterItsBaseline(p: Plan, rank: BlockId -> nat, calls: seq<HostCall>, states: seq<RuntimeState>, n: nat, t: ScheduleTrigger)
    requires SoundPlan(p, rank) && RulesTyped(p) && IsRun(p, calls, states) && n < |calls| && t in HandedOver(p, calls, states, n)
    requires forall call :: call in calls ==> SampledBeforeTheEnd(call)
    ensures AfterItsBaseline(p, calls, states, n, t)
  {
    hide SoundPlan, ValidPlan, RulesTyped, ScheduleSlots, Inv, PollSchedules, PendingAfter, TakenBaseline, EventFor, SampledBeforeTheEnd, ScheduledPlan, Step, ViewOf;
    var s, now, utc := states[n], calls[n].now, calls[n].utc;
    RunsAreSafe(p, rank, calls, states, n);
    assert ValidPlan(p) by { SoundIsValid(p, rank); }
    PlanIsScheduled(p, s);
    PollRefusedEarly(p, s, now, utc);
    var i := TriggersHaveSlots(p, s, now, utc, t);
    SlotRule(p, s, i);
    var c, j := SlotOrigin(p, s, i);
    RunPendingAfter(p, rank, calls, states, c, j, n);
    assert utc.Some? ==> utc.value < I64_MAX by { assert calls[n] in calls; LateSample(calls[n]); }
    TriggerAfter(p, s, now, utc, i, c, j, t, LatestBaseline(p, calls, states, c, j, n));
    assert LatestBaseline(p, calls, states, c, j, n + 1).value < t.scheduledFor;
  }

  lemma LateSample(call: HostCall)
    requires SampledBeforeTheEnd(call) && call.PollClock?
    ensures call.utc.Some? ==> call.utc.value < I64_MAX
  {
  }

  lemma TriggerAfter(p: Plan, s: RuntimeState, now: MonotonicMs, utc: Option<int>, i: nat, c: nat, j: nat, t: ScheduleTrigger, baseline: Option<int>)
    requires ScheduledPlan(p, s) && !Earlier(s, now) && (utc.Some? ==> utc.value < I64_MAX) && Configured(p, c, j)
    requires i < |ScheduleSlots(p, s)| && ScheduleSlots(p, s)[i] == SlotIn(p, s, c, j) && ValidRule(ScheduleSlots(p, s)[i].rule)
    requires PollSchedules(p, s, now, utc).1.Ok? && t in PollSchedules(p, s, now, utc).1.value && (t.block, t.name) == KeyAt(p, c, j)
    requires PendingAfter(ViewOf(s.schedules, KeyAt(p, c, j)), baseline)
    ensures var taken := BaselineTaken(p, s, PollClock(now, utc), c, j);
            var latest := if taken.Some? then taken else baseline;
            latest.Some? && latest.value < t.scheduledFor
  {
    hide ScheduleSlots, PollSchedules, ViewStep, SortedTriggers, PendingAfter, TakenBaseline, ValidRule, ViewOf;
    PollProjects(p, s, now, utc, i);
    EventPendingAfter(ScheduleSlots(p, s)[i].rule, p.config.site, ViewOf(s.schedules, KeyAt(p, c, j)), baseline, Poll(utc, ScheduleSlots(p, s)[i].on));
  }

  lemma SlotOrigin(p: Plan, s: RuntimeState, i: nat) returns (c: nat, j: nat)
    requires Shaped(p, s) && i < |ScheduleSlots(p, s)|
    ensures Configured(p, c, j) && ScheduleSlots(p, s)[i] == SlotIn(p, s, c, j) && ScheduleSlots(p, s)[i].Key() == KeyAt(p, c, j)
  {
    var slot := ScheduleSlots(p, s)[i];
    SlotsComplete(p.config.blocks, s.blocks, |s.blocks|, slot);
    assert slot in ScheduleSlots(p, s);
    c, j :| 0 <= c < |s.blocks| && 0 <= j < |p.config.blocks[c].schedules| && slot == SlotAt(p.config.blocks[c], s.blocks[c].enabled, j);
  }

  /** Over every run of host calls, two deliveries of one schedule with no
      initialisation in between carry strictly increasing occurrences; none is
      delivered before its time, and none from before the latest baseline. */
  lemma NothingIsDeliveredTwice(p: Plan, rank: BlockId -> nat, calls: seq<HostCall>, states: seq<RuntimeState>, a: nat, b: nat,
                                first: ScheduleTrigger, second: ScheduleTrigger)
    requires SoundPlan(p, rank) && RulesTyped(p) && IsRun(p, calls, states) && a < b < |calls|
    requires forall call :: call in calls ==> SampledBeforeTheEnd(call)
    requires forall k :: a < k < b ==> !calls[k].BeginSchedules?
    requires first in HandedOver(p, calls, states, a) && second in HandedOver(p, calls, states, b)
    requires first.block == second.block && first.name == second.name
    ensures first.scheduledFor < second.scheduledFor <= second.detectedAt
    ensures AfterItsBaseline(p, calls, states, a, first) && AfterItsBaseline(p, calls, states, b, second)
  {
    hide SoundPlan, RulesTyped, Step, HandedOver, ScheduleSlots, Ahead, Passed, SampledBeforeTheEnd, AfterItsBaseline;
    var i := HandedByMachine(p, rank, calls, states, a, first, 0);
    RunKeepsGoing(p, rank, calls, states, first, i, a + 1, b, first.scheduledFor);
    var _ := HandedByMachine(p, rank, calls, states, b, second, first.scheduledFor);
    DeliveredAfterItsBaseline(p, rank, calls, states, a, first);
    DeliveredAfterItsBaseline(p, rank, calls, states, b, second);
  }

  lemma RunKeepsGoing(p: Plan, rank: BlockId -> nat, calls: seq<HostCall>, states: seq<RuntimeState>, t: ScheduleTrigger, i: nat, from: nat, n: nat, x: int)
    requires SoundPlan(p, rank) && RulesTyped(p) && IsRun(p, calls, states) && 0 < from <= n < |states| && i < |ScheduleSlots(p, states[0])|
    requires ScheduleSlots(p, states[0])[i].Key() == (t.block, t.name) && forall call :: call in calls ==> SampledBeforeTheEnd(call)
    requires Passed(ViewOf(states[from].schedules, (t.block, t.name)), x) && forall k :: from <= k < n ==> !calls[k].BeginSchedules?
    ensures Passed(ViewOf(states[n].schedules, (t.block, t.name)), x)
  {
    RunStaysAhead(p, rank, calls, states, (t.block, t.name), i, from, n, x);
  }

  /** In every state of every run the announced deadline is the moment from
      which a poll delivers something, unless the clock has jumped. */
  lemma DeadlinesAreExact(p: Plan, rank: BlockId -> nat, calls: seq<HostCall>, states: seq<RuntimeState>, n: nat, now: MonotonicMs, utc: int, d: Option<int>)
    requires SoundPlan(p, rank) && RulesTyped(p) && IsRun(p, calls, states) && n < |states|
    requires forall call :: call in calls ==> SampledBeforeTheEnd(call)
    requires !Earlier(states[n], now) && utc < I64_MAX && !ClockJumped(states[n].schedules.lastWallClock, utc)
    requires |states[n].blocks| == |p.config.blocks|
    requires EarliestPending(states[n].schedules.cursors, ScheduleSlots(p, states[n]), |ScheduleSlots(p, states[n])|, d)
    ensures PollSchedules(p, states[n], now, Some(utc)).1.Ok?
    ensures PollSchedules(p, states[n], now, Some(utc)).1.value != [] <==> d.Some? && d.value <= utc
  {
    hide PollSchedules, ScheduleSlots, EarliestPending, RulesTyped, BlocksOk, SignalsOk, CascadesWithin, Ranks, ValidPlan, ScheduledPlan;
    var s := states[n];
    RunsAreSafe(p, rank, calls, states, n);
    PlanIsScheduled(p, s);
    forall i | 0 <= i < |ScheduleSlots(p, s)| ensures ValidRule(ScheduleSlots(p, s)[i].rule) { SlotRule(p, s, i); }
    forall i | 0 <= i < |ScheduleSlots(p, s)|
      ensures WellKept(CursorAt(s.schedules.cursors, ScheduleSlots(p, s)[i].Key(), s.schedules.structuralRevision))
    {
      SlotsAlongRun(p, s, states[0], i);
      RunStaysAhead(p, rank, calls, states, ScheduleSlots(p, s)[i].Key(), i, 0, n, 0);
    }
    PollFiresAtDeadline(p, s, now, utc, d);
  }
}
