/** Conservation over whole runs: while a schedule stays enabled and the clock
    valid, every occurrence is delivered or counted exactly once, whatever other
    calls the host makes in between. */
module ScheduleConservation {
  import opened Values
  import opened SignalGraph
  import opened ScheduleRules
  import opened Configuration
  import opened Engines
  import opened LogicBlocks
  import opened ScheduleCursors
  import opened Cascades
  import opened PlanFacts
  import opened CascadeSafety
  import opened RuntimeEvents
  import opened RuntimeSafety
  import opened SchedulePolling
  import opened RuntimeRuns
  import opened ScheduleRuns

  // ----- what one poll hands over for one schedule ------------------------------------------

  /** How many occurrences a trigger stands for, if it belongs to `key`. */
  function Weight(key: Key, t: ScheduleTrigger): nat {
    if (t.block, t.name) == key then t.coalesced + 1 else 0
  }

  /** How many occurrences of one schedule a list of triggers stands for. */
  function StandsFor(key: Key, triggers: seq<ScheduleTrigger>): nat {
    if triggers == [] then 0 else StandsFor(key, triggers[..|triggers| - 1]) + Weight(key, triggers[|triggers| - 1])
  }

  lemma StandsForMore(key: Key, triggers: seq<ScheduleTrigger>, t: ScheduleTrigger)
    ensures StandsFor(key, triggers + [t]) == StandsFor(key, triggers) + Weight(key, t)
  {
    assert (triggers + [t])[..|triggers|] == triggers;
  }

  lemma {:induction false} InsertedStandsFor(key: Key, sorted: seq<ScheduleTrigger>, t: ScheduleTrigger)
    ensures StandsFor(key, InsertTrigger(sorted, t)) == StandsFor(key, sorted) + Weight(key, t)
    decreases |sorted|
  {
    hide TriggerBefore, Weight;
    StandsForMore(key, sorted, t);
    if sorted != [] {
      var front, last := sorted[..|sorted| - 1], sorted[|sorted| - 1];
      InsertedStandsFor(key, front, t);
      StandsForMore(key, InsertTrigger(front, t), last);
    }
  }

  /** Sorting loses and adds nothing. */
  lemma {:induction false} SortedStandsFor(key: Key, triggers: seq<ScheduleTrigger>)
    ensures StandsFor(key, SortTriggers(triggers)) == StandsFor(key, triggers)
    decreases |triggers|
  {
    hide Weight;
    if triggers != [] {
      var front, last := triggers[..|triggers| - 1], triggers[|triggers| - 1];
      SortedStandsFor(key, front);
      InsertedStandsFor(key, SortTriggers(front), last);
    }
  }

  /** What slot `i` fires is all that is handed over for its key. */
  lemma {:induction false} FiredStandsFor(site: Site, cursors: Cursors, revision: Option<nat>, slots: seq<Slot>, n: nat, now: int, i: nat)
    requires n <= |slots| && DistinctKeys(slots) && i < |slots|
    ensures StandsFor(slots[i].Key(), Fired(site, cursors, revision, slots, n, now))
            == if i < n && FiredBy(site, cursors, revision, slots[i], now).Some?
               then FiredBy(site, cursors, revision, slots[i], now).value.coalesced + 1 else 0
  {
    hide FiredBy, Fired;
    if n == 0 {
      FiredNone(site, cursors, revision, slots, now);
    } else {
      FiredStandsFor(site, cursors, revision, slots, n - 1, now, i);
      FiredNext(site, cursors, revision, slots, n, now);
      var before, fired := Fired(site, cursors, revision, slots, n - 1, now), FiredBy(site, cursors, revision, slots[n - 1], now);
      FiredKey(site, cursors, revision, slots[n - 1], now);
      if fired.Some? { StandsForMore(slots[i].Key(), before, fired.value); } else { assert before + [] == before; }
      assert i != n - 1 ==> slots[i].Key() != slots[n - 1].Key();
    }
  }

  /** A poll hands over, for schedule `i`, exactly what its machine fires. */
  lemma PollStandsFor(p: Plan, s: RuntimeState, now: MonotonicMs, utc: int, i: nat)
    requires ScheduledPlan(p, s) && !Earlier(s, now) && i < |ScheduleSlots(p, s)|
    ensures var slot := ScheduleSlots(p, s)[i];
            var firing := ViewStep(slot.rule, p.config.site, ViewOf(s.schedules, slot.Key()), Poll(Some(utc), slot.on)).1;
            && PollSchedules(p, s, now, Some(utc)).1.Ok?
            && StandsFor(slot.Key(), PollSchedules(p, s, now, Some(utc)).1.value) == if firing.Some? then firing.value.coalesced + 1 else 0
  {
    hide PollBase, Updated, FiredBy, Fired, ViewStep, ViewOf, Handed, ScheduleSlots;
    var site, slots, base, revision := p.config.site, ScheduleSlots(p, s), PollBase(p, s, utc), s.schedules.structuralRevision;
    SlotKeysDiffer(p, s);
    PollStepsMachine(p, s, now, Some(utc), i);
    FiredStandsFor(site, base, revision, slots, |slots|, utc, i);
    SortedStandsFor(slots[i].Key(), Fired(site, base, revision, slots, |slots|, utc));
    HandedCounts(p, s, now, utc, i);
  }

  lemma HandedCounts(p: Plan, s: RuntimeState, now: MonotonicMs, utc: int, i: nat)
    requires |p.config.blocks| == |s.blocks| && i < |ScheduleSlots(p, s)|
    ensures forall view: View, firing: Firing :: Handed(ScheduleSlots(p, s)[i], view, firing, utc).coalesced == firing.coalesced
  {
  }

  // ----- the machine while it is steady -------------------------------------------------------

  function Later(a: int, b: int): int { if a >= b then a else b }

  /** The machine waits for the first occurrence after `reach`; its last sample
      was `last`. */
  ghost predicate Follows(rule: Rule, site: Site, v: View, reach: int, last: int) {
    && v.cursor.Some? && !v.cursor.value.needsRebaseline && v.lastWallClock == Some(last) && reach < I64_MAX
    && Leads(rule, site, reach, v.cursor.value.next)
  }

  /** The latest occurrence not after `now`. */
  ghost predicate IsLatest(rule: Rule, site: Site, t: int, now: int) {
    t <= now && IsOccurrence(rule, site, t) && forall u :: t < u <= now ==> !IsOccurrence(rule, site, u)
  }

  lemma PollFollows(rule: Rule, site: Site, v: View, reach: int, last: int, now: int)
    requires ValidRule(rule) && NoWideGap(rule, site) && Follows(rule, site, v, reach, last) && last <= now < I64_MAX
    ensures var (after, firing) := ViewStep(rule, site, v, Poll(Some(now), true));
            && Follows(rule, site, after, Later(reach, now), now)
            && |Occurrences(rule, site, reach, Later(reach, now))| == (if firing.None? then 0 else firing.value.coalesced + 1)
            && (firing.Some? ==> reach < firing.value.scheduledFor && IsLatest(rule, site, firing.value.scheduledFor, now))
  {
    hide IsOccurrence, NoWideGap, Leads, PollCursor;
    if now < reach {
      NothingDue(rule, site, v.cursor.value, reach, now);
      NothingOccurs(rule, site, reach);
    } else {
      PollCounts(rule, site, v.cursor.value, reach, now);
      FiresAfter(rule, site, v.cursor.value, reach, now);
      var firing := PollCursor(rule, site, v.cursor.value, now).1;
      if firing.Some? {
        forall u | firing.value.scheduledFor < u <= now ensures !IsOccurrence(rule, site, u) {
          assert u !in Occurrences(rule, site, firing.value.scheduledFor, now);
        }
      }
    }
  }

  lemma NothingDue(rule: Rule, site: Site, c: Cursor, reach: int, now: int)
    requires !c.needsRebaseline && Leads(rule, site, reach, c.next) && now < reach
    ensures PollCursor(rule, site, c, now) == (c, None)
  {
  }

  lemma NothingOccurs(rule: Rule, site: Site, last: int)
    ensures Occurrences(rule, site, last, last) == {}
  {
  }

  lemma FiresAfter(rule: Rule, site: Site, c: Cursor, reach: int, now: int)
    requires !c.needsRebaseline && Leads(rule, site, reach, c.next)
    ensures var firing := PollCursor(rule, site, c, now).1; firing.Some? ==> reach < firing.value.scheduledFor
  {
    if c.next.Some? { CoalesceAdvances(rule, site, c.next.value, 1, now); }
  }

  /** Nothing was delivered for the last representable instant. */
  ghost predicate DeliveredBeforeTheEnd(v: View) {
    v.cursor.Some? && v.cursor.value.lastDelivered.Some? ==> v.cursor.value.lastDelivered.value < I64_MAX
  }

  /** What a baseline leads on from: the sample, or what was already delivered
      beyond it. */
  function Onward(base: int, v: View): int {
    BaselineOf(base, if v.cursor.None? then None else v.cursor.value.lastDelivered)
  }

  /** An event that takes a baseline delivers nothing and leaves the machine
      waiting for the first occurrence after it. */
  lemma BaselineFollows(rule: Rule, site: Site, v: View, e: ClockEvent, base: int)
    requires ValidRule(rule) && NoWideGap(rule, site) && TakenBaseline(v, e) == Some(base) && base < I64_MAX && DeliveredBeforeTheEnd(v)
    ensures var (after, firing) := ViewStep(rule, site, v, e);
            && firing.None? && after.cursor.Some?
            && (after.lastWallClock.Some? ==> Follows(rule, site, after, Onward(base, after), after.lastWallClock.value))
  {
    hide NoWideGap, Leads;
    var c := CursorOr(v.cursor, v.revision);
    NextLeads(rule, site, base);
    NextLeads(rule, site, BaselineOf(base, c.lastDelivered));
    LeadsOn(rule, site, BaselineOf(base, c.lastDelivered), NextOccurrence(rule, site, BaselineOf(base, c.lastDelivered)));
  }

  lemma LeadsOn(rule: Rule, site: Site, base: int, next: Option<int>)
    ensures Leads(rule, site, base, next) && next.Some? ==> base < next.value
  {
  }

  // ----- calls that leave it steady -------------------------------------------------------------

  /** After sample `last` this call leaves a schedule enabled and its clock valid
      and not running backwards. Calls the runtime refuses count as steady. */
  ghost predicate SteadyCall(p: Plan, s: RuntimeState, slot: Slot, call: HostCall, last: int)
    requires Shaped(p, s)
  {
    match call
    case BeginSchedules(now, _, _) => Earlier(s, now)
    case PollClock(now, utc) => Earlier(s, now) || (slot.on && utc.Some? && last <= utc.value < I64_MAX)
    case RebaseBlock(id, now, utc) => Earlier(s, now) || !Known(p, id) || (id != slot.block && utc.Some?)
    case ActivateBlocks(updates) => CheckActivations(p, updates, 0).Some? || !Switches(p, s, updates, slot.block)
    case _ => true
  }

  /** The sample after a call: that of an accepted poll, or else the one before. */
  function SampleAfter(s: RuntimeState, call: HostCall, last: int): int {
    if call.PollClock? && !Earlier(s, call.now) then call.utc.GetOr(last) else last
  }

  /** How far the schedule has come after a call. */
  function ReachAfter(s: RuntimeState, call: HostCall, reach: int): int {
    if call.PollClock? && !Earlier(s, call.now) then Later(reach, call.utc.GetOr(reach)) else reach
  }

  /** The last sample before call `n`, starting after call `a`. */
  ghost function LastSample(p: Plan, calls: seq<HostCall>, states: seq<RuntimeState>, a: nat, n: nat): int
    requires IsRun(p, calls, states) && a < n <= |calls|
  {
    if n == a + 1 then states[n].schedules.lastWallClock.GetOr(0)
    else SampleAfter(states[n - 1], calls[n - 1], LastSample(p, calls, states, a, n - 1))
  }

  /** How far polls have come before call `n`, starting after call `a` from
      `from`. */
  ghost function Reached(p: Plan, calls: seq<HostCall>, states: seq<RuntimeState>, a: nat, n: nat, from: int): int
    requires IsRun(p, calls, states) && a < n <= |calls|
  {
    if n == a + 1 then from
    else ReachAfter(states[n - 1], calls[n - 1], Reached(p, calls, states, a, n - 1, from))
  }

  /** Calls `a + 1` to `n - 1` leave schedule `j` of block `c` steady. */
  ghost predicate Steady(p: Plan, calls: seq<HostCall>, states: seq<RuntimeState>, c: nat, j: nat, a: nat, n: nat)
    requires IsRun(p, calls, states) && n <= |calls| && Configured(p, c, j)
  {
    forall k :: a < k < n ==> SteadyCall(p, states[k], SlotIn(p, states[k], c, j), calls[k], LastSample(p, calls, states, a, k))
  }

  /** What calls `a + 1` to `n - 1` hand over for one schedule. */
  ghost function DeliveredBetween(p: Plan, calls: seq<HostCall>, states: seq<RuntimeState>, key: Key, a: nat, n: nat): nat
    requires IsRun(p, calls, states) && n <= |calls|
  {
    if n <= a + 1 then 0
    else DeliveredBetween(p, calls, states, key, a, n - 1) + StandsFor(key, HandedOver(p, calls, states, n - 1))
  }

  /** A steady call that takes no sample neither moves the machine nor hands
      anything over. */
  lemma QuietCall(p: Plan, s: RuntimeState, slot: Slot, call: HostCall, last: int)
    requires Shaped(p, s) && SteadyCall(p, s, slot, call, last) && (call.PollClock? ==> Earlier(s, call.now))
    requires ViewOf(s.schedules, slot.Key()).lastWallClock == Some(last)
    ensures Moved(p, slot, ViewOf(s.schedules, slot.Key()), EventFor(p, s, slot, call)) == ViewOf(s.schedules, slot.Key())
    ensures Triggers(p, s, call) == []
  {
    hide Known, Switches, ScheduleSlots;
  }

  /** A steady call keeps the machine following, and hands over exactly the
      occurrences it has come past. */
  lemma SteadyStep(p: Plan, rank: BlockId -> nat, s: RuntimeState, call: HostCall, c: nat, j: nat, reach: int, last: int)
    requires SoundPlan(p, rank) && FullInv(p, s) && RulesTyped(p) && Configured(p, c, j)
    requires NoWideGap(SlotIn(p, s, c, j).rule, p.config.site) && SteadyCall(p, s, SlotIn(p, s, c, j), call, last)
    requires Follows(SlotIn(p, s, c, j).rule, p.config.site, ViewOf(s.schedules, KeyAt(p, c, j)), reach, last)
    ensures var rule, site, next := SlotIn(p, s, c, j).rule, p.config.site, ReachAfter(s, call, reach);
            && reach <= next
            && Follows(rule, site, ViewOf(Step(p, s, call).schedules, KeyAt(p, c, j)), next, SampleAfter(s, call, last))
            && StandsFor(KeyAt(p, c, j), Triggers(p, s, call)) == |Occurrences(rule, site, reach, next)|
  {
    hide ViewStep, Step, ScheduleSlots, BlocksOk, SignalsOk, CascadesWithin, Ranks, RulesTyped, ValidPlan, NoWideGap, Leads, PollSchedules, Switches, Known, IsOccurrence;
    var i := SlotPosition(p, s, c, j);
    var slot := SlotIn(p, s, c, j);
    PlanIsScheduled(p, s);
    SlotRule(p, s, i);
    StepProjects(p, rank, s, call, i);
    if call.PollClock? && !Earlier(s, call.now) {
      PollFollows(slot.rule, p.config.site, ViewOf(s.schedules, slot.Key()), reach, last, call.utc.value);
      PollStandsFor(p, s, call.now, call.utc.value, i);
    } else {
      NothingOccurs(slot.rule, p.config.site, reach);
      QuietCall(p, s, slot, call, last);
    }
  }

  // ----- whole runs -----------------------------------------------------------------------------------

  function RuleAt(p: Plan, c: nat, j: nat): Rule
    requires Configured(p, c, j)
  {
    p.config.blocks[c].schedules[j].rule
  }

  /** A call that gives the schedule a baseline and leaves the clock valid. */
  ghost predicate Baselines(p: Plan, s: RuntimeState, call: HostCall, t: RuntimeState, c: nat, j: nat, base: int)
    requires Shaped(p, s) && Configured(p, c, j)
  {
    BaselineTaken(p, s, call, c, j) == Some(base) && base < I64_MAX && t.schedules.lastWallClock.Some?
  }

  lemma BaselineStep(p: Plan, rank: BlockId -> nat, s: RuntimeState, call: HostCall, c: nat, j: nat, base: int)
    requires SoundPlan(p, rank) && FullInv(p, s) && RulesTyped(p) && Configured(p, c, j)
    requires NoWideGap(SlotIn(p, s, c, j).rule, p.config.site) && DeliveredBeforeTheEnd(ViewOf(s.schedules, KeyAt(p, c, j)))
    requires Baselines(p, s, call, Step(p, s, call), c, j, base)
    ensures var t := Step(p, s, call);
            var v := ViewOf(t.schedules, KeyAt(p, c, j));
            Follows(SlotIn(p, s, c, j).rule, p.config.site, v, Onward(base, v), t.schedules.lastWallClock.value)
  {
    hide ViewStep, Step, ScheduleSlots, BlocksOk, SignalsOk, CascadesWithin, Ranks, RulesTyped, ValidPlan, NoWideGap, Follows, Onward, TakenBaseline, DeliveredBeforeTheEnd;
    var i := SlotPosition(p, s, c, j);
    var slot := SlotIn(p, s, c, j);
    PlanIsScheduled(p, s);
    SlotRule(p, s, i);
    StepProjects(p, rank, s, call, i);
    BaselineFollows(slot.rule, p.config.site, ViewOf(s.schedules, slot.Key()), EventFor(p, s, slot, call).value, base);
  }

  /** What schedule `j` of block `c` leads on from after call `a` gave it the
      baseline `base`. */
  ghost function From(p: Plan, calls: seq<HostCall>, states: seq<RuntimeState>, c: nat, j: nat, a: nat, base: int): int
    requires IsRun(p, calls, states) && a < |calls| && Configured(p, c, j)
  {
    Onward(base, ViewOf(states[a + 1].schedules, KeyAt(p, c, j)))
  }

  /** Over every run of host calls: from any baseline on, and while the schedule
      stays enabled and the clock valid and not running backwards, the triggers
      handed over stand for every occurrence polls have come past exactly once,
      whatever other calls come in between. */
  lemma {:induction false} RunsConserve(p: Plan, rank: BlockId -> nat, calls: seq<HostCall>, states: seq<RuntimeState>, c: nat, j: nat, a: nat, n: nat, base: int)
    requires SoundPlan(p, rank) && RulesTyped(p) && IsRun(p, calls, states) && a < n <= |calls| && Configured(p, c, j)
    requires forall call :: call in calls ==> SampledBeforeTheEnd(call)
    requires Baselines(p, states[a], calls[a], states[a + 1], c, j, base) && Steady(p, calls, states, c, j, a, n)
    requires NoWideGap(RuleAt(p, c, j), p.config.site)
    ensures var from := From(p, calls, states, c, j, a, base);
            var reach := Reached(p, calls, states, a, n, from);
            && from <= reach
            && DeliveredBetween(p, calls, states, KeyAt(p, c, j), a, n) == |Occurrences(RuleAt(p, c, j), p.config.site, from, reach)|
            && Follows(RuleAt(p, c, j), p.config.site, ViewOf(states[n].schedules, KeyAt(p, c, j)), reach, LastSample(p, calls, states, a, n))
    decreases n
  {
    hide SoundPlan, RulesTyped, Step, NoWideGap, Follows, SteadyCall, SampleAfter, ReachAfter, Baselines, StandsFor, Triggers, ViewOf, Occurrences, FullInv, RuleAt, SlotIn, IsRun, Steady, Shaped, Configured, SampledBeforeTheEnd;
    var rule, site, from := RuleAt(p, c, j), p.config.site, From(p, calls, states, c, j, a, base);
    RunAt(p, calls, states, n - 1);
    RunsAreSafe(p, rank, calls, states, n - 1);
    SlotHasRule(p, states[n - 1], c, j);
    if n == a + 1 {
      RunPendingAfter(p, rank, calls, states, c, j, a);
      PendingBeforeTheEnd(ViewOf(states[a].schedules, KeyAt(p, c, j)), LatestBaseline(p, calls, states, c, j, a));
      BaselineStep(p, rank, states[a], calls[a], c, j, base);
      NothingOccurs(rule, site, from);
      BaselinesSample(p, states[a], calls[a], states[n], c, j, base);
    } else {
      SteadyAt(p, calls, states, c, j, a, n);
      RunsConserve(p, rank, calls, states, c, j, a, n - 1, base);
      var reach, last := Reached(p, calls, states, a, n - 1, from), LastSample(p, calls, states, a, n - 1);
      SteadyStep(p, rank, states[n - 1], calls[n - 1], c, j, reach, last);
      OccurrencesSplit(rule, site, from, reach, Reached(p, calls, states, a, n, from));
    }
  }

  lemma PendingBeforeTheEnd(v: View, baseline: Option<int>)
    requires PendingAfter(v, baseline)
    ensures DeliveredBeforeTheEnd(v)
  {
  }

  lemma BaselinesSample(p: Plan, s: RuntimeState, call: HostCall, t: RuntimeState, c: nat, j: nat, base: int)
    requires Shaped(p, s) && Configured(p, c, j) && Baselines(p, s, call, t, c, j, base)
    ensures t.schedules.lastWallClock.Some?
  {
  }

  lemma RunAt(p: Plan, calls: seq<HostCall>, states: seq<RuntimeState>, n: nat)
    requires IsRun(p, calls, states) && n < |calls|
    ensures |states| == |calls| + 1 && DistinctBlocks(p.config.blocks) && Shaped(p, states[n]) && states[n + 1] == Step(p, states[n], calls[n])
  {
  }

  lemma SteadyAt(p: Plan, calls: seq<HostCall>, states: seq<RuntimeState>, c: nat, j: nat, a: nat, n: nat)
    requires IsRun(p, calls, states) && a + 1 < n <= |calls| && Configured(p, c, j) && Steady(p, calls, states, c, j, a, n)
    ensures Steady(p, calls, states, c, j, a, n - 1)
    ensures SteadyCall(p, states[n - 1], SlotIn(p, states[n - 1], c, j), calls[n - 1], LastSample(p, calls, states, a, n - 1))
  {
  }

  lemma SlotHasRule(p: Plan, s: RuntimeState, c: nat, j: nat)
    requires Shaped(p, s) && Configured(p, c, j)
    ensures SlotIn(p, s, c, j).rule == RuleAt(p, c, j)
  {
  }

  /** And each of those triggers carries the latest occurrence not after its
      poll, later than everything polls had come past before. */
  lemma EachIsTheLatest(p: Plan, rank: BlockId -> nat, calls: seq<HostCall>, states: seq<RuntimeState>, c: nat, j: nat, a: nat, n: nat, base: int, t: ScheduleTrigger)
    requires SoundPlan(p, rank) && RulesTyped(p) && IsRun(p, calls, states) && a < n < |calls| && Configured(p, c, j)
    requires forall call :: call in calls ==> SampledBeforeTheEnd(call)
    requires Baselines(p, states[a], calls[a], states[a + 1], c, j, base) && Steady(p, calls, states, c, j, a, n + 1)
    requires NoWideGap(RuleAt(p, c, j), p.config.site)
    requires t in HandedOver(p, calls, states, n) && (t.block, t.name) == KeyAt(p, c, j)
    ensures calls[n].PollClock? && calls[n].utc == Some(t.detectedAt)
    ensures IsLatest(RuleAt(p, c, j), p.config.site, t.scheduledFor, t.detectedAt)
    ensures Reached(p, calls, states, a, n, From(p, calls, states, c, j, a, base)) < t.scheduledFor
  {
    hide SoundPlan, RulesTyped, Step, NoWideGap, Follows, SteadyCall, Baselines, ViewOf, FullInv, RuleAt, SlotIn, IsRun, Steady, Shaped, Configured, IsLatest, Triggers, SampledBeforeTheEnd;
    RunAt(p, calls, states, n);
    RunsAreSafe(p, rank, calls, states, n);
    SteadyAt(p, calls, states, c, j, a, n + 1);
    RunsConserve(p, rank, calls, states, c, j, a, n, base);
    SlotHasRule(p, states[n], c, j);
    TriggerIsLatest(p, rank, states[n], calls[n], c, j, Reached(p, calls, states, a, n, From(p, calls, states, c, j, a, base)), LastSample(p, calls, states, a, n), t);
  }

  lemma TriggerIsLatest(p: Plan, rank: BlockId -> nat, s: RuntimeState, call: HostCall, c: nat, j: nat, reach: int, last: int, t: ScheduleTrigger)
    requires SoundPlan(p, rank) && FullInv(p, s) && RulesTyped(p) && Configured(p, c, j)
    requires NoWideGap(SlotIn(p, s, c, j).rule, p.config.site) && SteadyCall(p, s, SlotIn(p, s, c, j), call, last)
    requires Follows(SlotIn(p, s, c, j).rule, p.config.site, ViewOf(s.schedules, KeyAt(p, c, j)), reach, last)
    requires t in Triggers(p, s, call) && (t.block, t.name) == KeyAt(p, c, j)
    ensures call.PollClock? && call.utc == Some(t.detectedAt) && reach < t.scheduledFor
    ensures IsLatest(SlotIn(p, s, c, j).rule, p.config.site, t.scheduledFor, t.detectedAt)
  {
    hide ViewStep, ScheduleSlots, BlocksOk, SignalsOk, CascadesWithin, Ranks, RulesTyped, ValidPlan, NoWideGap, Leads, PollSchedules, Switches, Known, IsOccurrence, SortedTriggers;
    var i := SlotPosition(p, s, c, j);
    var slot := SlotIn(p, s, c, j);
    PlanIsScheduled(p, s);
    SlotRule(p, s, i);
    PollRefusedEarly(p, s, call.now, call.utc);
    PollProjects(p, s, call.now, call.utc, i);
    PollFollows(slot.rule, p.config.site, ViewOf(s.schedules, slot.Key()), reach, last, call.utc.value);
  }
}
