/** The schedule operations of the runtime: they run one independent machine
    per configured schedule. */
module SchedulePolling {
  import opened Values
  import opened ScheduleRules
  import opened Configuration
  import opened Engines
  import opened LogicBlocks
  import opened ScheduleCursors
  import opened Cascades
  import opened PlanFacts
  import opened RuntimeEvents

  type Key = (BlockId, ScheduleName)
  type Cursors = map<Key, Cursor>

  /** A configured schedule; `on` when both it and its block are enabled. */
  datatype Slot = Slot(block: BlockId, name: ScheduleName, rule: Rule, on: bool) {
    function Key(): (BlockId, ScheduleName) { (block, name) }
  }

  datatype TimeError = ScheduleTimeWentBackwards(previous: MonotonicMs, current: MonotonicMs) | ClockUnavailable | UnknownScheduleBlock(block: BlockId)

  // ----- the configured schedules, in declaration order --------------------------------------

  function SlotAt(b: BlockConfig, enabled: bool, j: nat): Slot
    requires j < |b.schedules|
  {
    Slot(b.id, b.schedules[j].name, b.schedules[j].rule, enabled && b.schedules[j].enabled)
  }

  function SlotsOf(b: BlockConfig, enabled: bool): (r: seq<Slot>)
    ensures |r| == |b.schedules| && forall j :: 0 <= j < |r| ==> r[j] == SlotAt(b, enabled, j)
  {
    seq(|b.schedules|, j requires 0 <= j < |b.schedules| => SlotAt(b, enabled, j))
  }

  function SlotsUpTo(configs: seq<BlockConfig>, blocks: seq<BlockState>, n: nat): seq<Slot>
    requires n <= |configs| == |blocks|
  {
    if n == 0 then [] else SlotsUpTo(configs, blocks, n - 1) + SlotsOf(configs[n - 1], blocks[n - 1].enabled)
  }

  function ScheduleSlots(p: Plan, s: RuntimeState): seq<Slot>
    requires |p.config.blocks| == |s.blocks|
  {
    SlotsUpTo(p.config.blocks, s.blocks, |s.blocks|)
  }

  ghost predicate DistinctKeys(slots: seq<Slot>) {
    forall i, j :: 0 <= i < j < |slots| ==> slots[i].Key() != slots[j].Key()
  }

  /** Where slot `x` comes from. */
  ghost predicate FromBlock(configs: seq<BlockConfig>, blocks: seq<BlockState>, n: nat, x: Slot)
    requires n <= |configs| == |blocks|
  {
    exists i, j :: 0 <= i < n && 0 <= j < |configs[i].schedules| && x == SlotAt(configs[i], blocks[i].enabled, j)
  }

  lemma {:induction false} SlotsComplete(configs: seq<BlockConfig>, blocks: seq<BlockState>, n: nat, x: Slot)
    requires n <= |configs| == |blocks|
    ensures x in SlotsUpTo(configs, blocks, n) <==> FromBlock(configs, blocks, n, x)
  {
    if n > 0 {
      SlotsComplete(configs, blocks, n - 1, x);
      var last := SlotsOf(configs[n - 1], blocks[n - 1].enabled);
      if x in last {
        var j :| 0 <= j < |last| && x == last[j];
        assert FromBlock(configs, blocks, n, x);
      }
      if FromBlock(configs, blocks, n, x) && !FromBlock(configs, blocks, n - 1, x) {
        var i, j :| 0 <= i < n && 0 <= j < |configs[i].schedules| && x == SlotAt(configs[i], blocks[i].enabled, j);
        assert x == last[j];
      }
    }
  }

  lemma {:induction false} SlotsDistinct(configs: seq<BlockConfig>, blocks: seq<BlockState>, n: nat)
    requires n <= |configs| == |blocks| && DistinctBlocks(configs) && forall b :: b in configs ==> DistinctSchedules(b.schedules)
    ensures DistinctKeys(SlotsUpTo(configs, blocks, n))
  {
    if n > 0 {
      SlotsDistinct(configs, blocks, n - 1);
      var before, last := SlotsUpTo(configs, blocks, n - 1), SlotsOf(configs[n - 1], blocks[n - 1].enabled);
      assert configs[n - 1] in configs;
      forall i | 0 <= i < |before| ensures before[i].block != configs[n - 1].id {
        SlotsComplete(configs, blocks, n - 1, before[i]);
        assert before[i] in before;
      }
    }
  }

  // ----- what each operation does to the cursors ---------------------------------------------

  function CursorAt(cursors: Cursors, key: Key, revision: Option<nat>): Cursor {
    CursorOr(if key in cursors then Some(cursors[key]) else None, revision)
  }

  /** Rewrites the cursor of every slot `touch` selects, in order. */
  ghost function Updated(cursors: Cursors, revision: Option<nat>, slots: seq<Slot>, n: nat, touch: Slot -> bool, step: (Slot, Cursor) -> Cursor): Cursors
    requires n <= |slots|
  {
    if n == 0 then cursors
    else
      var before := Updated(cursors, revision, slots, n - 1, touch, step);
      var slot := slots[n - 1];
      if touch(slot) then before[slot.Key() := step(slot, CursorAt(before, slot.Key(), revision))] else before
  }

  ghost function RecomputeStep(site: Site, revision: nat, now: int): (Slot, Cursor) -> Cursor {
    (slot: Slot, c: Cursor) => Recomputed(slot.rule, site, c, revision, now)
  }

  ghost function BeginStep(site: Site, revision: nat, utc: Option<int>): (Slot, Cursor) -> Cursor {
    (slot: Slot, c: Cursor) => if utc.None? then FreshCursor(revision) else Started(slot.rule, site, utc.value, revision)
  }

  ghost function RebaseStep(site: Site, revision: nat, utc: Option<int>): (Slot, Cursor) -> Cursor {
    (slot: Slot, c: Cursor) => RebasedCursor(slot.rule, site, c.(structuralRevision := revision), utc)
  }

  /** A cursor rebased by an explicit request; an invalid sample leaves that to
      the next valid poll. */
  ghost function RebasedCursor(rule: Rule, site: Site, c: Cursor, utc: Option<int>): Cursor {
    if utc.None? then Flagged(c) else Rebaselined(rule, site, c, utc.value)
  }

  function AnySlot(): Slot -> bool { (slot: Slot) => true }
  function SlotOf(id: BlockId): Slot -> bool { (slot: Slot) => slot.block == id }
  function SlotOn(): Slot -> bool { (slot: Slot) => slot.on }

  ghost function PollStep(site: Site, now: int): (Slot, Cursor) -> Cursor {
    (slot: Slot, c: Cursor) => PollCursor(slot.rule, site, c, now).0
  }

  function TriggerOf(slot: Slot, c: Cursor, firing: Firing, now: int): ScheduleTrigger {
    ScheduleTrigger(slot.block, slot.name, firing.scheduledFor, now, firing.coalesced, c.structuralRevision)
  }

  /** The triggers of the first `n` slots, in declaration order. */
  ghost function Fired(site: Site, cursors: Cursors, revision: Option<nat>, slots: seq<Slot>, n: nat, now: int): seq<ScheduleTrigger>
    requires n <= |slots|
  {
    if n == 0 then []
    else
      var before := Updated(cursors, revision, slots, n - 1, SlotOn(), PollStep(site, now));
      var slot := slots[n - 1];
      var c := CursorAt(before, slot.Key(), revision);
      var firing := PollCursor(slot.rule, site, c, now).1;
      Fired(site, cursors, revision, slots, n - 1, now)
      + if slot.on && firing.Some? then [TriggerOf(slot, c, firing.value, now)] else []
  }

  /** The order triggers are returned in. */
  predicate TriggerBefore(a: ScheduleTrigger, b: ScheduleTrigger) {
    a.scheduledFor < b.scheduledFor
    || (a.scheduledFor == b.scheduledFor && (a.block < b.block || (a.block == b.block && a.name <= b.name)))
  }

  function InsertTrigger(sorted: seq<ScheduleTrigger>, t: ScheduleTrigger): seq<ScheduleTrigger> {
    if sorted == [] then [t]
    else
      var last := sorted[|sorted| - 1];
      if TriggerBefore(last, t) then sorted + [t] else InsertTrigger(sorted[..|sorted| - 1], t) + [last]
  }

  function SortTriggers(triggers: seq<ScheduleTrigger>): seq<ScheduleTrigger> {
    if triggers == [] then [] else InsertTrigger(SortTriggers(triggers[..|triggers| - 1]), triggers[|triggers| - 1])
  }

  // ----- the operations ----------------------------------------------------------------------

  function FlagAll(cursors: Cursors): Cursors { map key | key in cursors :: Flagged(cursors[key]) }

  function Clock(s: RuntimeState, now: MonotonicMs, schedules: ScheduleState): RuntimeState {
    s.(lastAcceptedAt := Some(now), schedules := schedules)
  }

  function TimeRefused(s: RuntimeState, now: MonotonicMs): TimeError
    requires Earlier(s, now)
  {
    ScheduleTimeWentBackwards(s.lastAcceptedAt.value, now)
  }

  ghost function InitialiseSchedules(p: Plan, s: RuntimeState, now: MonotonicMs, utc: Option<int>, revision: nat): (r: (RuntimeState, Option<TimeError>))
    requires |p.config.blocks| == |s.blocks|
  {
    if Earlier(s, now) then (s, Some(TimeRefused(s, now)))
    else
      var slots := ScheduleSlots(p, s);
      var cursors := Updated(map[], Some(revision), slots, |slots|, AnySlot(), BeginStep(p.config.site, revision, utc));
      (Clock(s, now, ScheduleState(cursors, Some(revision), utc)), if utc.None? then Some(ClockUnavailable) else None)
  }

  /** The cursors a valid poll starts from. */
  ghost function PollBase(p: Plan, s: RuntimeState, now: int): Cursors
    requires |p.config.blocks| == |s.blocks|
  {
    var st, slots := s.schedules, ScheduleSlots(p, s);
    if ClockJumped(st.lastWallClock, now) then
      Updated(st.cursors, st.structuralRevision, slots, |slots|, AnySlot(), RecomputeStep(p.config.site, st.structuralRevision.GetOr(0), now))
    else st.cursors
  }

  ghost function PollSchedules(p: Plan, s: RuntimeState, now: MonotonicMs, utc: Option<int>): (r: (RuntimeState, Result<seq<ScheduleTrigger>, TimeError>))
    requires |p.config.blocks| == |s.blocks|
  {
    var st := s.schedules;
    if Earlier(s, now) then (s, Err(TimeRefused(s, now)))
    else if utc.None? then (Clock(s, now, ScheduleState(FlagAll(st.cursors), st.structuralRevision, None)), Ok([]))
    else
      var slots, base := ScheduleSlots(p, s), PollBase(p, s, utc.value);
      var cursors := Updated(base, st.structuralRevision, slots, |slots|, SlotOn(), PollStep(p.config.site, utc.value));
      (Clock(s, now, ScheduleState(cursors, st.structuralRevision, utc)),
       Ok(SortTriggers(Fired(p.config.site, base, st.structuralRevision, slots, |slots|, utc.value))))
  }

  /** No slot a poll would walk walks for ever. */
  ghost predicate PollReturns(p: Plan, s: RuntimeState, now: MonotonicMs, utc: Option<int>)
    requires |p.config.blocks| == |s.blocks|
  {
    !Earlier(s, now) && utc.Some? ==>
      forall i :: 0 <= i < |ScheduleSlots(p, s)| && ScheduleSlots(p, s)[i].on ==> WalkEnds(ScheduleSlots(p, s)[i].rule, utc.value)
  }

  /** The schedules once the cursors of one block are rebased. */
  ghost function RebasedSlots(site: Site, st: ScheduleState, slots: seq<Slot>, id: BlockId, utc: Option<int>): ScheduleState {
    var cursors := Updated(st.cursors, st.structuralRevision, slots, |slots|, SlotOf(id), RebaseStep(site, st.structuralRevision.GetOr(0), utc));
    ScheduleState(cursors, st.structuralRevision, if utc.None? then None else st.lastWallClock)
  }

  ghost function RebaselineBlock(p: Plan, s: RuntimeState, id: BlockId, now: MonotonicMs, utc: Option<int>): (r: (RuntimeState, Option<TimeError>))
    requires |p.config.blocks| == |s.blocks|
  {
    var st := s.schedules;
    if Earlier(s, now) then (s, Some(TimeRefused(s, now)))
    else if BlockPosition(p.config.blocks, id).None? then (Clock(s, now, st), Some(UnknownScheduleBlock(id)))
    else (Clock(s, now, RebasedSlots(p.config.site, st, ScheduleSlots(p, s), id, utc)), None)
  }

  // ----- the loops over the slots ---------------------------------------------------------------

  method RecomputeCursors(site: Site, cursors: Cursors, revision: Option<nat>, slots: seq<Slot>, now: int) returns (after: Cursors)
    ensures after == Updated(cursors, revision, slots, |slots|, AnySlot(), RecomputeStep(site, revision.GetOr(0), now))
  {
    after := cursors;
    var i := 0;
    while i < |slots|
      invariant 0 <= i <= |slots| && after == Updated(cursors, revision, slots, i, AnySlot(), RecomputeStep(site, revision.GetOr(0), now))
    {
      var slot := slots[i];
      var c := CursorAt(after, slot.Key(), revision);
      var based := RebaselineCursor(slot.rule, site, c.(structuralRevision := revision.GetOr(0)), now);
      after := after[slot.Key() := based];
      i := i + 1;
    }
  }

  method BeginCursors(site: Site, revision: nat, slots: seq<Slot>, utc: Option<int>) returns (after: Cursors)
    ensures after == Updated(map[], Some(revision), slots, |slots|, AnySlot(), BeginStep(site, revision, utc))
  {
    after := map[];
    var i := 0;
    while i < |slots|
      invariant 0 <= i <= |slots| && after == Updated(map[], Some(revision), slots, i, AnySlot(), BeginStep(site, revision, utc))
    {
      var slot := slots[i];
      if utc.None? {
        after := after[slot.Key() := FreshCursor(revision)];
      } else {
        var next := NextOccurrenceAfter(slot.rule, site, utc.value);
        after := after[slot.Key() := Cursor(None, next, revision, false)];
      }
      i := i + 1;
    }
  }

  method RebaseCursors(site: Site, cursors: Cursors, revision: Option<nat>, slots: seq<Slot>, id: BlockId, utc: Option<int>) returns (after: Cursors)
    ensures after == Updated(cursors, revision, slots, |slots|, SlotOf(id), RebaseStep(site, revision.GetOr(0), utc))
  {
    after := cursors;
    var i := 0;
    while i < |slots|
      invariant 0 <= i <= |slots| && after == Updated(cursors, revision, slots, i, SlotOf(id), RebaseStep(site, revision.GetOr(0), utc))
    {
      var slot := slots[i];
      if slot.block == id {
        var c := CursorAt(after, slot.Key(), revision).(structuralRevision := revision.GetOr(0), needsRebaseline := true, next := None);
        if utc.Some? { c := RebaselineCursor(slot.rule, site, c, utc.value); }
        ghost var revised := CursorAt(after, slot.Key(), revision).(structuralRevision := revision.GetOr(0));
        assert c.lastDelivered == revised.lastDelivered && c == RebasedCursor(slot.rule, site, revised, utc);
        after := after[slot.Key() := c];
      }
      i := i + 1;
    }
  }

  method RebaseSchedules(site: Site, st: ScheduleState, slots: seq<Slot>, id: BlockId, utc: Option<int>) returns (r: ScheduleState)
    ensures r == RebasedSlots(site, st, slots, id, utc)
  {
    var cursors := RebaseCursors(site, st.cursors, st.structuralRevision, slots, id, utc);
    r := ScheduleState(cursors, st.structuralRevision, if utc.None? then None else st.lastWallClock);
  }

  method PollCursors(site: Site, cursors: Cursors, revision: Option<nat>, slots: seq<Slot>, now: int) returns (after: Cursors, triggers: seq<ScheduleTrigger>)
    requires forall i :: 0 <= i < |slots| && slots[i].on ==> ValidRule(slots[i].rule) && WalkEnds(slots[i].rule, now)
    ensures after == Updated(cursors, revision, slots, |slots|, SlotOn(), PollStep(site, now))
    ensures triggers == Fired(site, cursors, revision, slots, |slots|, now)
  {
    hide PollCursor;
    after, triggers := cursors, [];
    var i := 0;
    while i < |slots|
      invariant 0 <= i <= |slots| && after == Updated(cursors, revision, slots, i, SlotOn(), PollStep(site, now))
      invariant triggers == Fired(site, cursors, revision, slots, i, now)
    {
      var slot := slots[i];
      if slot.on {
        var c := CursorAt(after, slot.Key(), revision);
        var polled, firing := PollOneCursor(slot.rule, site, c, now);
        if firing.Some? { triggers := triggers + [TriggerOf(slot, c, firing.value, now)]; }
        after := after[slot.Key() := polled];
      }
      i := i + 1;
    }
  }

  // ----- one machine per schedule --------------------------------------------------------------

  function ViewOf(st: ScheduleState, key: Key): View {
    View(if key in st.cursors then Some(st.cursors[key]) else None, st.structuralRevision, st.lastWallClock)
  }

  /** With distinct keys, each touched cursor is stepped once, from where it
      was, and every other cursor is left alone. */
  lemma {:induction false} UpdatedEach(cursors: Cursors, revision: Option<nat>, slots: seq<Slot>, n: nat, touch: Slot -> bool, step: (Slot, Cursor) -> Cursor)
    requires n <= |slots| && DistinctKeys(slots)
    ensures Stepped(cursors, revision, slots, n, touch, step, Updated(cursors, revision, slots, n, touch, step))
  {
    if n > 0 {
      UpdatedEach(cursors, revision, slots, n - 1, touch, step);
      var before, slot := Updated(cursors, revision, slots, n - 1, touch, step), slots[n - 1];
      assert forall i :: 0 <= i < n - 1 && touch(slots[i]) ==> slots[i].Key() != slot.Key();
      assert CursorAt(before, slot.Key(), revision) == CursorAt(cursors, slot.Key(), revision);
    }
  }

  /** Each touched cursor stepped once, every other one as it was. */
  ghost predicate Stepped(cursors: Cursors, revision: Option<nat>, slots: seq<Slot>, n: nat, touch: Slot -> bool, step: (Slot, Cursor) -> Cursor, after: Cursors)
    requires n <= |slots|
  {
    && (forall i :: 0 <= i < n && touch(slots[i]) ==>
          slots[i].Key() in after && after[slots[i].Key()] == step(slots[i], CursorAt(cursors, slots[i].Key(), revision)))
    && (forall key :: (forall i :: 0 <= i < n && touch(slots[i]) ==> slots[i].Key() != key) ==>
          (key in after <==> key in cursors) && (key in after ==> after[key] == cursors[key]))
  }

  /** The effect on slot `i` alone. */
  lemma UpdatedSlot(cursors: Cursors, revision: Option<nat>, slots: seq<Slot>, touch: Slot -> bool, step: (Slot, Cursor) -> Cursor, i: nat)
    requires i < |slots| && DistinctKeys(slots)
    ensures var after, key := Updated(cursors, revision, slots, |slots|, touch, step), slots[i].Key();
            if touch(slots[i]) then key in after && after[key] == step(slots[i], CursorAt(cursors, key, revision))
            else (key in after <==> key in cursors) && (key in after ==> after[key] == cursors[key])
  {
    UpdatedEach(cursors, revision, slots, |slots|, touch, step);
    if !touch(slots[i]) {
      forall k | 0 <= k < |slots| && touch(slots[k]) ensures slots[k].Key() != slots[i].Key() {}
    }
  }

  /** The trigger of slot `i`, if it fires. */
  ghost function FiredBy(site: Site, cursors: Cursors, revision: Option<nat>, slot: Slot, now: int): Option<ScheduleTrigger> {
    var c := CursorAt(cursors, slot.Key(), revision);
    var firing := PollCursor(slot.rule, site, c, now).1;
    if slot.on && firing.Some? then Some(TriggerOf(slot, c, firing.value, now)) else None
  }

  lemma {:induction false} FiredExactly(site: Site, cursors: Cursors, revision: Option<nat>, slots: seq<Slot>, n: nat, now: int, t: ScheduleTrigger)
    requires n <= |slots| && DistinctKeys(slots)
    ensures t in Fired(site, cursors, revision, slots, n, now)
       <==> exists i :: 0 <= i < n && FiredBy(site, cursors, revision, slots[i], now) == Some(t)
  {
    hide FiredBy, Fired;
    if n == 0 {
      FiredNone(site, cursors, revision, slots, now);
    } else {
      FiredExactly(site, cursors, revision, slots, n - 1, now, t);
      FiredNext(site, cursors, revision, slots, n, now);
    }
  }

  lemma FiredNone(site: Site, cursors: Cursors, revision: Option<nat>, slots: seq<Slot>, now: int)
    ensures Fired(site, cursors, revision, slots, 0, now) == []
  {
  }

  lemma FiredNext(site: Site, cursors: Cursors, revision: Option<nat>, slots: seq<Slot>, n: nat, now: int)
    requires 0 < n <= |slots| && DistinctKeys(slots)
    ensures var fired := FiredBy(site, cursors, revision, slots[n - 1], now);
            Fired(site, cursors, revision, slots, n, now)
            == Fired(site, cursors, revision, slots, n - 1, now) + if fired.Some? then [fired.value] else []
  {
    hide PollCursor;
    UpdatedEach(cursors, revision, slots, n - 1, SlotOn(), PollStep(site, now));
    var before := Updated(cursors, revision, slots, n - 1, SlotOn(), PollStep(site, now));
    var key := slots[n - 1].Key();
    assert CursorAt(before, key, revision) == CursorAt(cursors, key, revision);
  }

  // ----- sorting ---------------------------------------------------------------------------------

  ghost predicate SortedTriggers(triggers: seq<ScheduleTrigger>) {
    forall i, j :: 0 <= i < j < |triggers| ==> TriggerBefore(triggers[i], triggers[j])
  }

  lemma {:induction false} InsertTriggerKeeps(sorted: seq<ScheduleTrigger>, t: ScheduleTrigger)
    ensures multiset(InsertTrigger(sorted, t)) == multiset(sorted) + multiset{t}
    decreases |sorted|
  {
    hide TriggerBefore;
    if sorted != [] {
      var front, last := sorted[..|sorted| - 1], sorted[|sorted| - 1];
      assert sorted == front + [last];
      InsertTriggerKeeps(front, t);
    }
  }

  lemma {:induction false} InsertTriggerSorts(sorted: seq<ScheduleTrigger>, t: ScheduleTrigger)
    requires SortedTriggers(sorted)
    ensures SortedTriggers(InsertTrigger(sorted, t))
    decreases |sorted|
  {
    if sorted != [] {
      var front, last := sorted[..|sorted| - 1], sorted[|sorted| - 1];
      if TriggerBefore(last, t) {
        forall i | 0 <= i < |sorted| ensures TriggerBefore(sorted[i], t) {
          assert i < |sorted| - 1 ==> TriggerBefore(sorted[i], last);
        }
      } else {
        InsertTriggerSorts(front, t);
        InsertTriggerKeeps(front, t);
        InsertedBefore(front, t, last);
      }
    }
  }

  lemma InsertedBefore(front: seq<ScheduleTrigger>, t: ScheduleTrigger, last: ScheduleTrigger)
    requires forall i :: 0 <= i < |front| ==> TriggerBefore(front[i], last)
    requires TriggerBefore(t, last) && multiset(InsertTrigger(front, t)) == multiset(front) + multiset{t}
    ensures forall i :: 0 <= i < |InsertTrigger(front, t)| ==> TriggerBefore(InsertTrigger(front, t)[i], last)
  {
    hide TriggerBefore;
    var r := InsertTrigger(front, t);
    forall i | 0 <= i < |r| ensures TriggerBefore(r[i], last) {
      assert r[i] in multiset(r);
      assert r[i] in front || r[i] == t;
    }
  }

  /** Triggers come out in order, each exactly once. */
  lemma {:induction false} SortTriggersSorts(triggers: seq<ScheduleTrigger>)
    ensures SortedTriggers(SortTriggers(triggers)) && multiset(SortTriggers(triggers)) == multiset(triggers)
    decreases |triggers|
  {
    if triggers != [] {
      var front, last := triggers[..|triggers| - 1], triggers[|triggers| - 1];
      assert triggers == front + [last];
      SortTriggersSorts(front);
      InsertTriggerSorts(SortTriggers(front), last);
      InsertTriggerKeeps(SortTriggers(front), last);
    }
  }

  // ----- the runtime runs every machine ------------------------------------------------------------

  ghost predicate ScheduledPlan(p: Plan, s: RuntimeState) {
    && Shaped(p, s) && DistinctBlocks(p.config.blocks) && forall b :: b in p.config.blocks ==> DistinctSchedules(b.schedules)
  }

  lemma InitialiseProjects(p: Plan, s: RuntimeState, now: MonotonicMs, utc: Option<int>, revision: nat, i: nat)
    requires ScheduledPlan(p, s) && !Earlier(s, now) && i < |ScheduleSlots(p, s)|
    ensures var slot := ScheduleSlots(p, s)[i];
            ViewOf(InitialiseSchedules(p, s, now, utc, revision).0.schedules, slot.Key())
            == ViewStep(slot.rule, p.config.site, ViewOf(s.schedules, slot.Key()), Begin(utc, revision)).0
  {
    SlotsDistinct(p.config.blocks, s.blocks, |s.blocks|);
    UpdatedSlot(map[], Some(revision), ScheduleSlots(p, s), AnySlot(), BeginStep(p.config.site, revision, utc), i);
  }

  lemma RebaselineProjects(p: Plan, s: RuntimeState, id: BlockId, now: MonotonicMs, utc: Option<int>, i: nat)
    requires ScheduledPlan(p, s) && !Earlier(s, now) && i < |ScheduleSlots(p, s)| && Known(p, id)
    ensures var slot := ScheduleSlots(p, s)[i];
            ViewOf(RebaselineBlock(p, s, id, now, utc).0.schedules, slot.Key())
            == ViewStep(slot.rule, p.config.site, ViewOf(s.schedules, slot.Key()), Rebase(utc, slot.block == id)).0
  {
    SlotsDistinct(p.config.blocks, s.blocks, |s.blocks|);
    UpdatedSlot(s.schedules.cursors, s.schedules.structuralRevision, ScheduleSlots(p, s), SlotOf(id),
                RebaseStep(p.config.site, s.schedules.structuralRevision.GetOr(0), utc), i);
  }

  lemma PollBaseAt(p: Plan, s: RuntimeState, now: int, i: nat)
    requires ScheduledPlan(p, s) && i < |ScheduleSlots(p, s)|
    ensures var slot, st := ScheduleSlots(p, s)[i], s.schedules;
            var c := CursorAt(st.cursors, slot.Key(), st.structuralRevision);
            && CursorAt(PollBase(p, s, now), slot.Key(), st.structuralRevision)
               == (if ClockJumped(st.lastWallClock, now) then Recomputed(slot.rule, p.config.site, c, st.structuralRevision.GetOr(0), now) else c)
            && (slot.Key() in PollBase(p, s, now) <==> ClockJumped(st.lastWallClock, now) || slot.Key() in st.cursors)
  {
    SlotsDistinct(p.config.blocks, s.blocks, |s.blocks|);
    UpdatedSlot(s.schedules.cursors, s.schedules.structuralRevision, ScheduleSlots(p, s), AnySlot(),
                RecomputeStep(p.config.site, s.schedules.structuralRevision.GetOr(0), now), i);
  }

  /** The trigger a machine that fired hands over. */
  function Handed(slot: Slot, after: View, firing: Firing, now: int): ScheduleTrigger {
    TriggerOf(slot, CursorOr(after.cursor, after.revision), firing, now)
  }

  /** What the poll does to the machine of slot `i`. */
  lemma PollStepsMachine(p: Plan, s: RuntimeState, now: MonotonicMs, utc: Option<int>, i: nat)
    requires ScheduledPlan(p, s) && !Earlier(s, now) && i < |ScheduleSlots(p, s)|
    ensures var slot, after := ScheduleSlots(p, s)[i], PollSchedules(p, s, now, utc).0;
            var (view, firing) := ViewStep(slot.rule, p.config.site, ViewOf(s.schedules, slot.Key()), Poll(utc, slot.on));
            && ViewOf(after.schedules, slot.Key()) == view
            && (utc.Some? ==> FiredBy(p.config.site, PollBase(p, s, utc.value), s.schedules.structuralRevision, slot, utc.value)
                              == if firing.Some? then Some(Handed(slot, view, firing.value, utc.value)) else None)
            && (utc.None? ==> firing.None?)
  {
    hide PollCursor, Rebaselined, PollBase;
    if utc.Some? {
      var slot, st := ScheduleSlots(p, s)[i], s.schedules;
      PollKeepsRevision(slot.rule, p.config.site, CursorAt(PollBase(p, s, utc.value), slot.Key(), st.structuralRevision), utc.value);
      PollBaseAt(p, s, utc.value, i);
      SlotsDistinct(p.config.blocks, s.blocks, |s.blocks|);
      UpdatedSlot(PollBase(p, s, utc.value), s.schedules.structuralRevision, ScheduleSlots(p, s), SlotOn(), PollStep(p.config.site, utc.value), i);
    }
  }

  /** A poll steps every machine once and returns exactly the triggers of those
      that fire, in `(instant, block, name)` order. */
  lemma PollProjects(p: Plan, s: RuntimeState, now: MonotonicMs, utc: Option<int>, i: nat)
    requires ScheduledPlan(p, s) && !Earlier(s, now) && i < |ScheduleSlots(p, s)|
    ensures var slot, (after, triggers) := ScheduleSlots(p, s)[i], PollSchedules(p, s, now, utc);
            var (view, firing) := ViewStep(slot.rule, p.config.site, ViewOf(s.schedules, slot.Key()), Poll(utc, slot.on));
            && ViewOf(after.schedules, slot.Key()) == view
            && triggers.Ok? && SortedTriggers(triggers.value)
            && (firing.Some? ==> utc.Some? && Handed(slot, view, firing.value, utc.value) in triggers.value)
            && forall t: ScheduleTrigger :: t in triggers.value && (t.block, t.name) == slot.Key() ==>
                 firing.Some? && t == Handed(slot, view, firing.value, utc.value)
  {
    hide ViewStep, ViewOf, PollBase, Updated, FiredBy, Fired, ScheduleSlots, Handed;
    PollStepsMachine(p, s, now, utc, i);
    if utc.None? {
      assert PollSchedules(p, s, now, utc).1 == Ok([]);
    } else {
      hide PollSchedules, SortedTriggers;
      assert utc == Some(utc.value);
      TriggersAreFired(p, s, now, utc.value);
      OnlyItsOwn(p, s, now, utc.value, i);
    }
  }

  /** The triggers of a poll come by instant, then block, then name, and each
      names the sample. */
  lemma TriggersInOrder(p: Plan, s: RuntimeState, now: MonotonicMs, utc: int, i: nat, j: nat)
    requires ScheduledPlan(p, s) && !Earlier(s, now)
    ensures PollSchedules(p, s, now, Some(utc)).1.Ok?
    ensures var triggers := PollSchedules(p, s, now, Some(utc)).1.value;
            i < j < |triggers| ==>
              var a, b := triggers[i], triggers[j];
              && a.scheduledFor <= b.scheduledFor
              && (a.scheduledFor == b.scheduledFor ==> a.block <= b.block)
              && (a.scheduledFor == b.scheduledFor && a.block == b.block ==> a.name <= b.name)
              && a.detectedAt == utc
  {
    hide PollBase, Updated, Fired, ScheduleSlots, PollCursor;
    TriggersAreFired(p, s, now, utc);
    var triggers := PollSchedules(p, s, now, Some(utc)).1.value;
    if i < j < |triggers| { assert triggers[i] in triggers; }
  }

  /** The triggers of a poll are those its slots fire, in order. */
  lemma TriggersAreFired(p: Plan, s: RuntimeState, now: MonotonicMs, utc: int)
    requires ScheduledPlan(p, s) && !Earlier(s, now)
    ensures var triggers, slots := PollSchedules(p, s, now, Some(utc)).1, ScheduleSlots(p, s);
            && triggers.Ok? && SortedTriggers(triggers.value)
            && forall t: ScheduleTrigger :: t in triggers.value <==>
                 exists k :: 0 <= k < |slots| && FiredBy(p.config.site, PollBase(p, s, utc), s.schedules.structuralRevision, slots[k], utc) == Some(t)
  {
    hide PollBase, Updated, FiredBy, Fired, SortedTriggers, ScheduleSlots;
    var site, slots, base, revision := p.config.site, ScheduleSlots(p, s), PollBase(p, s, utc), s.schedules.structuralRevision;
    var fired := Fired(site, base, revision, slots, |slots|, utc);
    SlotKeysDiffer(p, s);
    SortTriggersSorts(fired);
    forall t: ScheduleTrigger
      ensures t in SortTriggers(fired) <==> exists k :: 0 <= k < |slots| && FiredBy(site, base, revision, slots[k], utc) == Some(t)
    {
      assert t in multiset(fired) <==> t in multiset(SortTriggers(fired));
      FiredExactly(site, base, revision, slots, |slots|, utc, t);
    }
  }

  /** A trigger that carries the key of slot `i` was fired by slot `i`. */
  lemma OnlyItsOwn(p: Plan, s: RuntimeState, now: MonotonicMs, utc: int, i: nat)
    requires ScheduledPlan(p, s) && !Earlier(s, now) && i < |ScheduleSlots(p, s)|
    requires PollSchedules(p, s, now, Some(utc)).1.Ok?
    ensures var own := FiredBy(p.config.site, PollBase(p, s, utc), s.schedules.structuralRevision, ScheduleSlots(p, s)[i], utc);
            forall t: ScheduleTrigger :: t in PollSchedules(p, s, now, Some(utc)).1.value && (t.block, t.name) == ScheduleSlots(p, s)[i].Key() ==> own == Some(t)
  {
    hide PollBase, Updated, FiredBy, Fired, PollSchedules, ScheduleSlots;
    var site, slots, base, revision := p.config.site, ScheduleSlots(p, s), PollBase(p, s, utc), s.schedules.structuralRevision;
    TriggersAreFired(p, s, now, utc);
    SlotKeysDiffer(p, s);
    forall t: ScheduleTrigger | t in PollSchedules(p, s, now, Some(utc)).1.value && (t.block, t.name) == slots[i].Key()
      ensures FiredBy(site, base, revision, slots[i], utc) == Some(t)
    {
      var k :| 0 <= k < |slots| && FiredBy(site, base, revision, slots[k], utc) == Some(t);
      FiredKey(site, base, revision, slots[k], utc);
    }
  }

  lemma FiredKey(site: Site, cursors: Cursors, revision: Option<nat>, slot: Slot, now: int)
    ensures var t := FiredBy(site, cursors, revision, slot, now); t.Some? ==> (t.value.block, t.value.name) == slot.Key()
  {
  }

  /** Every trigger belongs to a configured schedule. */
  lemma TriggersHaveSlots(p: Plan, s: RuntimeState, now: MonotonicMs, utc: Option<int>, t: ScheduleTrigger) returns (i: nat)
    requires ScheduledPlan(p, s) && PollSchedules(p, s, now, utc).1.Ok? && t in PollSchedules(p, s, now, utc).1.value
    ensures i < |ScheduleSlots(p, s)| && ScheduleSlots(p, s)[i].Key() == (t.block, t.name)
  {
    hide PollBase, Updated, FiredBy;
    var slots, base, revision := ScheduleSlots(p, s), PollBase(p, s, utc.value), s.schedules.structuralRevision;
    var fired := Fired(p.config.site, base, revision, slots, |slots|, utc.value);
    SlotsDistinct(p.config.blocks, s.blocks, |s.blocks|);
    SortTriggersSorts(fired);
    assert t in multiset(SortTriggers(fired));
    FiredExactly(p.config.site, base, revision, slots, |slots|, utc.value, t);
    i :| 0 <= i < |slots| && FiredBy(p.config.site, base, revision, slots[i], utc.value) == Some(t);
    FiredKey(p.config.site, base, revision, slots[i], utc.value);
  }

  // ----- the next deadline ---------------------------------------------------------------------

  /** The next occurrence of an enabled slot, if its cursor has one. */
  function PendingOccurrence(cursors: Cursors, slot: Slot): Option<int> {
    if slot.on && slot.Key() in cursors then cursors[slot.Key()].next else None
  }

  /** `d` is the earliest pending occurrence of the first `n` slots. */
  ghost predicate EarliestPending(cursors: Cursors, slots: seq<Slot>, n: nat, d: Option<int>)
    requires n <= |slots|
  {
    && (d.Some? ==> exists i :: 0 <= i < n && PendingOccurrence(cursors, slots[i]) == d)
    && forall i :: 0 <= i < n && PendingOccurrence(cursors, slots[i]).Some? ==> d.Some? && d.value <= PendingOccurrence(cursors, slots[i]).value
  }

  method NextDeadline(cursors: Cursors, slots: seq<Slot>) returns (earliest: Option<int>)
    ensures EarliestPending(cursors, slots, |slots|, earliest)
  {
    earliest := None;
    var i := 0;
    while i < |slots|
      invariant 0 <= i <= |slots| && EarliestPending(cursors, slots, i, earliest)
    {
      var next := PendingOccurrence(cursors, slots[i]);
      if next.Some? && (earliest.None? || next.value < earliest.value) { earliest := next; }
      i := i + 1;
    }
  }

  /** A cursor that waits for a baseline has no next occurrence, and nothing was
      delivered for the last representable instant. */
  ghost predicate WellKept(c: Cursor) {
    && (c.needsRebaseline ==> c.next.None?)
    && (c.lastDelivered.Some? ==> c.lastDelivered.value < I64_MAX)
  }

  lemma CursorFires(rule: Rule, site: Site, c: Cursor, now: int)
    requires ValidRule(rule) && now < I64_MAX && WellKept(c)
    ensures PollCursor(rule, site, c, now).1.Some? <==> c.next.Some? && c.next.value <= now
  {
    NextProgresses(rule, site, BaselineOf(now, c.lastDelivered));
  }

  /** Without a clock jump, a poll delivers something exactly when the deadline
      the runtime announces has been reached. */
  lemma PollFiresAtDeadline(p: Plan, s: RuntimeState, now: MonotonicMs, utc: int, d: Option<int>)
    requires ScheduledPlan(p, s) && !Earlier(s, now) && utc < I64_MAX && !ClockJumped(s.schedules.lastWallClock, utc)
    requires forall i :: 0 <= i < |ScheduleSlots(p, s)| ==> ValidRule(ScheduleSlots(p, s)[i].rule)
    requires forall i :: 0 <= i < |ScheduleSlots(p, s)| ==> WellKept(CursorAt(s.schedules.cursors, ScheduleSlots(p, s)[i].Key(), s.schedules.structuralRevision))
    requires EarliestPending(s.schedules.cursors, ScheduleSlots(p, s), |ScheduleSlots(p, s)|, d)
    ensures PollSchedules(p, s, now, Some(utc)).1.Ok?
    ensures PollSchedules(p, s, now, Some(utc)).1.value != [] <==> d.Some? && d.value <= utc
  {
    hide PollCursor, ScheduleSlots, Updated, Fired, EarliestPending, WellKept;
    var site, slots, cursors, revision := p.config.site, ScheduleSlots(p, s), s.schedules.cursors, s.schedules.structuralRevision;
    SlotKeysDiffer(p, s);
    SlotsFire(site, cursors, revision, slots, utc, d);
    var fired := Fired(site, cursors, revision, slots, |slots|, utc);
    SortTriggersSorts(fired);
    assert |multiset(SortTriggers(fired))| == |multiset(fired)|;
  }

  lemma SlotsFire(site: Site, cursors: Cursors, revision: Option<nat>, slots: seq<Slot>, utc: int, d: Option<int>)
    requires DistinctKeys(slots) && utc < I64_MAX && EarliestPending(cursors, slots, |slots|, d)
    requires forall i :: 0 <= i < |slots| ==> ValidRule(slots[i].rule) && WellKept(CursorAt(cursors, slots[i].Key(), revision))
    ensures Fired(site, cursors, revision, slots, |slots|, utc) != [] <==> d.Some? && d.value <= utc
  {
    hide FiredBy, Fired, PollCursor;
    forall i | 0 <= i < |slots|
      ensures FiredBy(site, cursors, revision, slots[i], utc).Some? <==>
              PendingOccurrence(cursors, slots[i]).Some? && PendingOccurrence(cursors, slots[i]).value <= utc
    {
      SlotFires(site, cursors, revision, slots[i], utc);
    }
    var fired := Fired(site, cursors, revision, slots, |slots|, utc);
    if fired != [] { FiredExactly(site, cursors, revision, slots, |slots|, utc, fired[0]); }
    forall i | 0 <= i < |slots| && FiredBy(site, cursors, revision, slots[i], utc).Some? ensures fired != [] {
      FiredExactly(site, cursors, revision, slots, |slots|, utc, FiredBy(site, cursors, revision, slots[i], utc).value);
    }
  }

  lemma SlotFires(site: Site, cursors: Cursors, revision: Option<nat>, slot: Slot, utc: int)
    requires ValidRule(slot.rule) && utc < I64_MAX && WellKept(CursorAt(cursors, slot.Key(), revision))
    ensures FiredBy(site, cursors, revision, slot, utc).Some? <==>
            PendingOccurrence(cursors, slot).Some? && PendingOccurrence(cursors, slot).value <= utc
  {
    hide PollCursor;
    CursorFires(slot.rule, site, CursorAt(cursors, slot.Key(), revision), utc);
  }

  lemma SlotKeysDiffer(p: Plan, s: RuntimeState)
    requires ScheduledPlan(p, s)
    ensures DistinctKeys(ScheduleSlots(p, s))
  {
    SlotsDistinct(p.config.blocks, s.blocks, |s.blocks|);
  }

  /** Activation flags the machines of the blocks it switches. */
  lemma FlaggingProjects(st: ScheduleState, id: BlockId, key: Key)
    ensures ViewOf(FlagCursors(st, id), key) == if key.0 == id then ViewStep(Interval(60, 0), Site(None), ViewOf(st, key), Toggle).0 else ViewOf(st, key)
  {
  }
}
