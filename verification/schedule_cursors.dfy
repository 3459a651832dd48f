/** The cursor of one schedule: latest-only delivery, baselines, and what a
    run of polls delivers. */
module ScheduleCursors {
  import opened Values
  import opened ScheduleRules

  datatype Cursor = Cursor(lastDelivered: Option<int>, next: Option<int>, structuralRevision: nat, needsRebaseline: bool)

  /** The schedule part of a runtime. `lastWallClock` is absent when the next
      valid sample must establish a baseline. */
  datatype ScheduleState = ScheduleState(
    cursors: map<(BlockId, ScheduleName), Cursor>,
    structuralRevision: Option<nat>,
    lastWallClock: Option<int>)

  /** One delivery: the occurrence it carries and how many earlier ones it
      stands for. */
  datatype Firing = Firing(scheduledFor: int, coalesced: nat)

  function FreshCursor(revision: nat): Cursor { Cursor(None, None, revision, true) }

  /** The later of a sample and the last delivered occurrence. */
  function BaselineOf(now: int, lastDelivered: Option<int>): int {
    if lastDelivered.Some? && lastDelivered.value > now then lastDelivered.value else now
  }

  ghost function Rebaselined(rule: Rule, site: Site, c: Cursor, now: int): Cursor {
    c.(next := NextOccurrence(rule, site, BaselineOf(now, c.lastDelivered)), needsRebaseline := false)
  }

  /** Walks every occurrence up to `now`. */
  ghost function Coalesce(rule: Rule, site: Site, last: int, count: nat, now: int): (int, nat)
    decreases now - last
  {
    var next := NextOccurrence(rule, site, last);
    if next.Some? && last < next.value <= now then Coalesce(rule, site, next.value, count + 1, now) else (last, count)
  }

  /** One poll of an enabled schedule. */
  ghost function PollCursor(rule: Rule, site: Site, c: Cursor, now: int): (r: (Cursor, Option<Firing>)) {
    var based := if c.needsRebaseline then Rebaselined(rule, site, c, now) else c;
    if based.next.None? || based.next.value > now then (based, None)
    else
      var (last, count) := Coalesce(rule, site, based.next.value, 1, now);
      (based.(lastDelivered := Some(last), next := NextOccurrence(rule, site, now)),
       Some(Firing(last, if count > 0 then count - 1 else 0)))
  }

  /** The search moves strictly forward, for an interval rule from every
      instant but the last representable one. */
  lemma NextProgresses(rule: Rule, site: Site, after: int)
    requires ValidRule(rule) && WalkEnds(rule, after)
    ensures var next := NextOccurrence(rule, site, after); next.Some? ==> next.value > after
  {
    match rule {
      case Interval(every, offset) => IntervalProgressesUntilTheLastInstant(every, offset, after);
      case Fixed(_, _) => FixedIsEarliest(rule, site, after);
      case Astronomical(_, _, _) => AstronomicalIsEarliest(rule, site, after, after);
    }
  }

  /** Whether walking the occurrences up to `now` comes to an end. */
  predicate WalkEnds(rule: Rule, now: int) { rule.Interval? ==> now < I64_MAX }

  /** Where `n` searches lead from an occurrence. */
  ghost function Walked(rule: Rule, site: Site, first: int, n: nat): int {
    if n == 0 then first
    else
      var before := Walked(rule, site, first, n - 1);
      NextOccurrence(rule, site, before).GetOr(before)
  }

  /** The coalescing loop stops at `last`. */
  ghost predicate StopsAt(rule: Rule, site: Site, last: int, now: int) {
    var next := NextOccurrence(rule, site, last);
    next.None? || next.value > now
  }

  ghost predicate LoopStops(rule: Rule, site: Site, first: int, now: int) {
    exists n: nat :: StopsAt(rule, site, Walked(rule, site, first, n), now)
  }

  /** The coalescing loop stops after some number of searches exactly unless an
      interval rule is polled at the last representable instant, which its
      search then finds for ever. */
  lemma CoalescingEndsExactly(rule: Rule, site: Site, first: int, now: int)
    requires ValidRule(rule) && first <= now
    ensures LoopStops(rule, site, first, now) <==> WalkEnds(rule, now)
  {
    if WalkEnds(rule, now) {
      var n := WalkStops(rule, site, first, 0, now);
    } else {
      forall n: nat ensures !StopsAt(rule, site, Walked(rule, site, first, n), now) {}
    }
  }

  lemma {:induction false} WalkStops(rule: Rule, site: Site, first: int, k: nat, now: int) returns (n: nat)
    requires ValidRule(rule) && WalkEnds(rule, now) && Walked(rule, site, first, k) <= now
    ensures StopsAt(rule, site, Walked(rule, site, first, n), now)
    decreases now - Walked(rule, site, first, k)
  {
    var last := Walked(rule, site, first, k);
    if StopsAt(rule, site, last, now) {
      n := k;
    } else {
      NextProgresses(rule, site, last);
      n := WalkStops(rule, site, first, k + 1, now);
    }
  }

  /** The loop as it runs: it tests no progress. */
  method CoalesceOccurrences(rule: Rule, site: Site, first: int, now: int) returns (last: int, count: nat)
    requires ValidRule(rule) && first <= now && WalkEnds(rule, now)
    ensures (last, count) == Coalesce(rule, site, first, 1, now)
  {
    last, count := first, 1;
    var searching := true;
    while searching
      invariant last <= now
      invariant Coalesce(rule, site, last, count, now) == Coalesce(rule, site, first, 1, now)
      invariant !searching ==> Coalesce(rule, site, last, count, now) == (last, count)
      decreases searching, now - last
    {
      NextProgresses(rule, site, last);
      var next := NextOccurrenceAfter(rule, site, last);
      if next.Some? && next.value <= now {
        last := next.value;
        count := count + 1;
      } else {
        searching := false;
      }
    }
  }

  method PollOneCursor(rule: Rule, site: Site, c: Cursor, now: int) returns (after: Cursor, firing: Option<Firing>)
    requires ValidRule(rule) && WalkEnds(rule, now)
    ensures (after, firing) == PollCursor(rule, site, c, now)
  {
    after := c;
    if after.needsRebaseline { after := RebaselineCursor(rule, site, after, now); }
    if after.next.None? || after.next.value > now { return after, None; }
    var last, count := CoalesceOccurrences(rule, site, after.next.value, now);
    CoalesceAdvances(rule, site, after.next.value, 1, now);
    firing := Some(Firing(last, count - 1));
    var next := NextOccurrenceAfter(rule, site, now);
    after := after.(lastDelivered := Some(last), next := next);
  }

  method RebaselineCursor(rule: Rule, site: Site, c: Cursor, now: int) returns (after: Cursor)
    ensures after == Rebaselined(rule, site, c, now)
  {
    var next := NextOccurrenceAfter(rule, site, BaselineOf(now, c.lastDelivered));
    after := c.(next := next, needsRebaseline := false);
  }

  lemma {:induction false} CoalesceAdvances(rule: Rule, site: Site, last: int, count: nat, now: int)
    ensures var (l, n) := Coalesce(rule, site, last, count, now); last <= l && (last <= now ==> l <= now) && n >= count
    decreases now - last
  {
    var next := NextOccurrence(rule, site, last);
    if next.Some? && last < next.value <= now { CoalesceAdvances(rule, site, next.value, count + 1, now); }
  }

  // ----- no replay, future only -----------------------------------------------------------

  /** The next delivery lies after `baseline` and after everything delivered. */
  ghost predicate Forward(c: Cursor, baseline: int) {
    && (c.lastDelivered.Some? ==> c.lastDelivered.value < I64_MAX)
    && (c.next.Some? ==> baseline < c.next.value && (c.lastDelivered.Some? ==> c.lastDelivered.value < c.next.value))
  }

  lemma RebaselinedForward(rule: Rule, site: Site, c: Cursor, now: int, baseline: int)
    requires ValidRule(rule) && now < I64_MAX && Forward(c, baseline)
    ensures Forward(Rebaselined(rule, site, c, now), now)
  {
    NextProgresses(rule, site, BaselineOf(now, c.lastDelivered));
  }

  /** A delivery is never late for its baseline, never early, and never
      repeats; a baseline taken by the poll itself delivers nothing. */
  lemma PollForward(rule: Rule, site: Site, c: Cursor, now: int, baseline: int)
    requires ValidRule(rule) && now < I64_MAX && Forward(c, baseline)
    ensures var (after, firing) := PollCursor(rule, site, c, now);
            && after.structuralRevision == c.structuralRevision && !after.needsRebaseline
            && (firing.None? ==> after.lastDelivered == c.lastDelivered
                                 && Forward(after, if c.needsRebaseline then now else baseline))
            && (firing.Some? ==> !c.needsRebaseline
                                 && baseline < firing.value.scheduledFor <= now
                                 && (c.lastDelivered.Some? ==> c.lastDelivered.value < firing.value.scheduledFor)
                                 && after.lastDelivered == Some(firing.value.scheduledFor)
                                 && Forward(after, now))
  {
    if c.needsRebaseline {
      RebaselinedForward(rule, site, c, now, baseline);
    } else if c.next.Some? && c.next.value <= now {
      CoalesceAdvances(rule, site, c.next.value, 1, now);
      NextProgresses(rule, site, now);
    }
  }

  // ----- the machine of one schedule ------------------------------------------------------

  /** All the runtime keeps for one schedule. */
  datatype View = View(cursor: Option<Cursor>, revision: Option<nat>, lastWallClock: Option<int>)

  /** What can happen to one schedule. `own` tells its own block from others. */
  datatype ClockEvent =
    | Begin(utc: Option<int>, revision: nat)
    | Poll(utc: Option<int>, enabled: bool)
    | Rebase(utc: Option<int>, own: bool)
    | Toggle

  function CursorOr(c: Option<Cursor>, revision: Option<nat>): Cursor { c.GetOr(FreshCursor(revision.GetOr(0))) }

  function Flagged(c: Cursor): Cursor { c.(next := None, needsRebaseline := true) }

  /** A valid poll that cannot trust the previous sample. */
  predicate ClockJumped(lastWallClock: Option<int>, now: int) { lastWallClock.None? || now < lastWallClock.value }

  /** A cursor rebuilt under the current structural revision. */
  ghost function Recomputed(rule: Rule, site: Site, c: Cursor, revision: nat, now: int): Cursor {
    Rebaselined(rule, site, c.(structuralRevision := revision), now)
  }

  ghost function PollView(rule: Rule, site: Site, v: View, now: int, enabled: bool): (View, Option<Firing>) {
    var c := CursorOr(v.cursor, v.revision);
    var jumped := ClockJumped(v.lastWallClock, now);
    var based := if jumped then Recomputed(rule, site, c, v.revision.GetOr(0), now) else c;
    if !enabled then (View(if jumped then Some(based) else v.cursor, v.revision, Some(now)), None)
    else
      var (after, firing) := PollCursor(rule, site, based, now);
      (View(Some(after), v.revision, Some(now)), firing)
  }

  ghost function ViewStep(rule: Rule, site: Site, v: View, e: ClockEvent): (View, Option<Firing>) {
    match e
    case Begin(utc, revision) =>
      var c := if utc.None? then FreshCursor(revision) else Started(rule, site, utc.value, revision);
      (View(Some(c), Some(revision), utc), None)
    case Poll(utc, enabled) =>
      if utc.Some? then PollView(rule, site, v, utc.value, enabled)
      else (View(if v.cursor.None? then None else Some(Flagged(v.cursor.value)), v.revision, None), None)
    case Rebase(utc, own) =>
      var c := CursorOr(v.cursor, v.revision).(structuralRevision := v.revision.GetOr(0));
      (View(if !own then v.cursor else if utc.None? then Some(Flagged(c)) else Some(Rebaselined(rule, site, c, utc.value)),
            v.revision, if utc.None? then None else v.lastWallClock), None)
    case Toggle => (v.(cursor := if v.cursor.None? then None else Some(Flagged(v.cursor.value))), None)
  }

  /** The baseline an event establishes, if it establishes one. */
  function TakenBaseline(v: View, e: ClockEvent): Option<int> {
    match e
    case Begin(utc, _) => utc
    case Poll(utc, enabled) =>
      if utc.Some? && (ClockJumped(v.lastWallClock, utc.value) || (enabled && CursorOr(v.cursor, v.revision).needsRebaseline)) then utc
      else None
    case Rebase(utc, own) => if own then utc else None
    case Toggle => None
  }

  datatype Delivered = Delivered(scheduledFor: int, detectedAt: int, baseline: Option<int>)

  /** What was delivered since the schedules were last initialised, and the
      latest baseline the cursor received. */
  datatype Journal = Journal(delivered: seq<Delivered>, baseline: Option<int>)

  ghost function JournalStep(rule: Rule, site: Site, v: View, j: Journal, e: ClockEvent): Journal {
    var taken := TakenBaseline(v, e);
    var baseline := if taken.Some? then taken else j.baseline;
    var firing := ViewStep(rule, site, v, e).1;
    Journal(if e.Begin? then [] else if firing.None? then j.delivered
            else j.delivered + [Delivered(firing.value.scheduledFor, e.utc.GetOr(0), baseline)],
            baseline)
  }

  ghost function RunView(rule: Rule, site: Site, v: View, j: Journal, events: seq<ClockEvent>): (View, Journal)
    decreases |events|
  {
    if events == [] then (v, j)
    else RunView(rule, site, ViewStep(rule, site, v, events[0]).0, JournalStep(rule, site, v, j, events[0]), events[1..])
  }

  /** No sample is the last representable instant. */
  predicate BeforeTheEnd(e: ClockEvent) { !e.Toggle? && e.utc.Some? ==> e.utc.value < I64_MAX }

  ghost predicate StrictlyForward(delivered: seq<Delivered>) {
    && (forall i, k :: 0 <= i < k < |delivered| ==> delivered[i].scheduledFor < delivered[k].scheduledFor)
    && (forall i :: 0 <= i < |delivered| ==>
          delivered[i].baseline.Some? && delivered[i].baseline.value < delivered[i].scheduledFor <= delivered[i].detectedAt)
  }

  /** Everything delivered is behind the cursor, and what comes next is ahead
      of its latest baseline. */
  ghost predicate Journaled(v: View, j: Journal) {
    && StrictlyForward(j.delivered)
    && (v.cursor.None? ==> j.delivered == [])
    && (v.cursor.Some? ==>
          && (v.cursor.value.needsRebaseline ==> v.cursor.value.next.None?)
          && (v.cursor.value.next.Some? ==> j.baseline.Some?)
          && Forward(v.cursor.value, j.baseline.GetOr(0))
          && (j.delivered != [] ==> v.cursor.value.lastDelivered == Some(j.delivered[|j.delivered| - 1].scheduledFor)))
  }

  /** A valid poll in terms of one cursor step. */
  lemma PollJournaled(rule: Rule, site: Site, v: View, j: Journal, now: int, enabled: bool)
    requires ValidRule(rule) && now < I64_MAX && Journaled(v, j)
    ensures Journaled(ViewStep(rule, site, v, Poll(Some(now), enabled)).0, JournalStep(rule, site, v, j, Poll(Some(now), enabled)))
  {
    hide PollCursor, Rebaselined, StrictlyForward, Forward;
    var c := CursorOr(v.cursor, v.revision);
    RevisedForward(c, v.revision.GetOr(0), j.baseline.GetOr(0));
    FreshForward(v.revision.GetOr(0), j.baseline.GetOr(0));
    var jumped := ClockJumped(v.lastWallClock, now);
    var baseline := if jumped then now else j.baseline.GetOr(0);
    var revised := c.(structuralRevision := v.revision.GetOr(0));
    RebaselinedForward(rule, site, revised, now, j.baseline.GetOr(0));
    RebaselinedKeeps(rule, site, revised, now);
    var based := if jumped then Recomputed(rule, site, c, v.revision.GetOr(0), now) else c;
    PollForward(rule, site, based, now, baseline);
    PollNeedsABaseline(rule, site, based, now);
    var firing := PollCursor(rule, site, based, now).1;
    if enabled && firing.Some? {
      ForwardFromEarlier(PollCursor(rule, site, based, now).0, baseline, now);
      DeliveryExtends(j.delivered, Delivered(firing.value.scheduledFor, now, if jumped then Some(now) else j.baseline));
    }
  }

  lemma RevisedForward(c: Cursor, revision: nat, baseline: int)
    ensures Forward(c.(structuralRevision := revision), baseline) == Forward(c, baseline)
  {
  }

  lemma ForwardFromEarlier(c: Cursor, earlier: int, baseline: int)
    requires earlier <= baseline && Forward(c, baseline)
    ensures Forward(c, earlier)
  {
  }

  lemma FreshForward(revision: nat, baseline: int)
    ensures Forward(FreshCursor(revision), baseline)
  {
  }

  lemma DeliveryExtends(delivered: seq<Delivered>, d: Delivered)
    requires StrictlyForward(delivered)
    requires delivered != [] ==> delivered[|delivered| - 1].scheduledFor < d.scheduledFor
    requires d.baseline.Some? && d.baseline.value < d.scheduledFor <= d.detectedAt
    ensures StrictlyForward(delivered + [d])
  {
  }

  lemma RebaselinedKeeps(rule: Rule, site: Site, c: Cursor, now: int)
    ensures !Rebaselined(rule, site, c, now).needsRebaseline && Rebaselined(rule, site, c, now).lastDelivered == c.lastDelivered
  {
  }

  lemma PollKeepsRevision(rule: Rule, site: Site, c: Cursor, now: int)
    ensures PollCursor(rule, site, c, now).0.structuralRevision == c.structuralRevision
  {
  }

  lemma PollNeedsABaseline(rule: Rule, site: Site, c: Cursor, now: int)
    ensures var (after, firing) := PollCursor(rule, site, c, now);
            after.next.Some? || firing.Some? ==> c.needsRebaseline || c.next.Some?
  {
  }

  lemma StepJournaled(rule: Rule, site: Site, v: View, j: Journal, e: ClockEvent)
    requires ValidRule(rule) && BeforeTheEnd(e) && Journaled(v, j)
    ensures Journaled(ViewStep(rule, site, v, e).0, JournalStep(rule, site, v, j, e))
  {
    match e {
      case Poll(utc, enabled) => if utc.Some? { PollJournaled(rule, site, v, j, utc.value, enabled); }
      case Begin(utc, revision) => if utc.Some? { NextProgresses(rule, site, utc.value); }
      case Rebase(utc, own) =>
        if utc.Some? && own {
          var c := CursorOr(v.cursor, v.revision).(structuralRevision := v.revision.GetOr(0));
          RebaselinedForward(rule, site, c, utc.value, j.baseline.GetOr(0));
        }
      case Toggle =>
    }
  }

  /** Over every run of samples, backward clocks, baselines and enable changes,
      a schedule delivers strictly later occurrences each time, none before its
      time and none from before its latest baseline. */
  lemma {:induction false} NeverReplays(rule: Rule, site: Site, v: View, j: Journal, events: seq<ClockEvent>)
    requires ValidRule(rule) && Journaled(v, j) && forall e :: e in events ==> BeforeTheEnd(e)
    ensures var (_, journal) := RunView(rule, site, v, j, events); StrictlyForward(journal.delivered)
    decreases |events|
  {
    if events != [] {
      StepJournaled(rule, site, v, j, events[0]);
      NeverReplays(rule, site, ViewStep(rule, site, v, events[0]).0, JournalStep(rule, site, v, j, events[0]), events[1..]);
    }
  }

  // ----- conservation -----------------------------------------------------------------------

  ghost function Occurrences(rule: Rule, site: Site, after: int, upTo: int): set<int> {
    set t | after < t <= upTo && IsOccurrence(rule, site, t)
  }

  lemma OccurrencesSplit(rule: Rule, site: Site, a: int, b: int, c: int)
    requires a <= b <= c
    ensures |Occurrences(rule, site, a, c)| == |Occurrences(rule, site, a, b)| + |Occurrences(rule, site, b, c)|
  {
    var left, right := Occurrences(rule, site, a, b), Occurrences(rule, site, b, c);
    assert Occurrences(rule, site, a, c) == left + right && left !! right;
  }

  /** Some day the search looks at holds a candidate after `t`. */
  ghost predicate HitInWindow(rule: Rule, site: Site, t: int) {
    exists day :: DayOf(t) - 1 <= day < DayOf(t) + SEARCH_DAY_LIMIT
                  && Candidates(rule, site)(day).Some? && Candidates(rule, site)(day).value > t
  }

  /** No gap between occurrences is wider than the search window: as long as an
      astronomical rule has an occurrence to come, one is anchored within 370
      days. */
  ghost predicate NoWideGap(rule: Rule, site: Site) {
    rule.Astronomical? ==>
      forall t, u :: t < u < I64_MAX && IsOccurrence(rule, site, u) ==> HitInWindow(rule, site, t)
  }

  lemma SearchFinds(rule: Rule, site: Site, t: int)
    requires rule.Astronomical?
    ensures NextOccurrence(rule, site, t).Some? <==> HitInWindow(rule, site, t)
  {
    if site.crossing.Some? {
      EarliestHitIsLeast(Candidates(rule, site), t, DayOf(t) - 1, DayOf(t) - 1, DayOf(t) + SEARCH_DAY_LIMIT, None);
    }
  }

  /** `next` leads to the first occurrence after `base`, if there is one before
      the last representable instant. */
  ghost predicate Leads(rule: Rule, site: Site, base: int, next: Option<int>) {
    && (next.Some? ==> base < next.value && (next.value < I64_MAX ==> IsOccurrence(rule, site, next.value)))
    && forall u :: base < u < I64_MAX && IsOccurrence(rule, site, u) ==> next.Some? && next.value <= u
  }

  lemma NextLeads(rule: Rule, site: Site, base: int)
    requires ValidRule(rule) && NoWideGap(rule, site) && base < I64_MAX
    ensures Leads(rule, site, base, NextOccurrence(rule, site, base))
  {
    NextIsEarliest(rule, site, base);
    if rule.Astronomical? { SearchFinds(rule, site, base); }
  }

  lemma FirstOccurrenceCounts(rule: Rule, site: Site, base: int, next: int)
    requires Leads(rule, site, base, Some(next)) && next < I64_MAX
    ensures |Occurrences(rule, site, base, next)| == 1
  {
    assert Occurrences(rule, site, base, next) == {next};
  }

  /** Coalescing counts exactly the occurrences it passes, and stops at the
      latest one. */
  lemma {:induction false} CoalesceCounts(rule: Rule, site: Site, last: int, count: nat, now: int)
    requires ValidRule(rule) && NoWideGap(rule, site) && last <= now < I64_MAX && IsOccurrence(rule, site, last)
    ensures var (l, n) := Coalesce(rule, site, last, count, now);
            && last <= l <= now && IsOccurrence(rule, site, l)
            && n == count + |Occurrences(rule, site, last, l)|
            && Occurrences(rule, site, l, now) == {}
    decreases now - last
  {
    NextLeads(rule, site, last);
    var next := NextOccurrence(rule, site, last);
    if next.Some? && next.value <= now {
      CoalesceCounts(rule, site, next.value, count + 1, now);
      var (l, _) := Coalesce(rule, site, next.value, count + 1, now);
      FirstOccurrenceCounts(rule, site, last, next.value);
      OccurrencesSplit(rule, site, last, next.value, l);
    } else {
      assert Occurrences(rule, site, last, last) == {};
    }
  }

  /** One poll delivers the latest occurrence since the baseline, and counts
      them all. */
  lemma PollCounts(rule: Rule, site: Site, c: Cursor, base: int, now: int)
    requires ValidRule(rule) && NoWideGap(rule, site) && base <= now < I64_MAX
    requires !c.needsRebaseline && Leads(rule, site, base, c.next)
    ensures var (after, firing) := PollCursor(rule, site, c, now);
            && !after.needsRebaseline && Leads(rule, site, now, after.next)
            && |Occurrences(rule, site, base, now)| == (if firing.None? then 0 else firing.value.coalesced + 1)
            && (firing.Some? ==> IsOccurrence(rule, site, firing.value.scheduledFor) && firing.value.scheduledFor <= now
                                 && Occurrences(rule, site, firing.value.scheduledFor, now) == {})
  {
    NextLeads(rule, site, now);
    if c.next.None? || c.next.value > now {
      assert Occurrences(rule, site, base, now) == {};
    } else {
      var first := c.next.value;
      CoalesceCounts(rule, site, first, 1, now);
      var (last, count) := Coalesce(rule, site, first, 1, now);
      FirstOccurrenceCounts(rule, site, base, first);
      OccurrencesSplit(rule, site, base, first, now);
      OccurrencesSplit(rule, site, first, last, now);
    }
  }

  ghost function PollAll(rule: Rule, site: Site, c: Cursor, polls: seq<int>): seq<Firing>
    decreases |polls|
  {
    if polls == [] then []
    else
      var (after, firing) := PollCursor(rule, site, c, polls[0]);
      (if firing.None? then [] else [firing.value]) + PollAll(rule, site, after, polls[1..])
  }

  function DeliveredCount(firings: seq<Firing>): nat {
    if firings == [] then 0 else firings[0].coalesced + 1 + DeliveredCount(firings[1..])
  }

  ghost predicate Ascending(base: int, polls: seq<int>)
    decreases |polls|
  {
    polls == [] || (base <= polls[0] < I64_MAX && Ascending(polls[0], polls[1..]))
  }

  function LastPoll(base: int, polls: seq<int>): int {
    if polls == [] then base else polls[|polls| - 1]
  }

  /** The cursor `initialise_schedules` creates from a valid sample. */
  ghost function Started(rule: Rule, site: Site, base: int, revision: nat): Cursor {
    Cursor(None, NextOccurrence(rule, site, base), revision, false)
  }

  lemma {:induction false} PollsConserve(rule: Rule, site: Site, c: Cursor, base: int, polls: seq<int>)
    requires ValidRule(rule) && NoWideGap(rule, site) && Ascending(base, polls)
    requires !c.needsRebaseline && Leads(rule, site, base, c.next)
    ensures base <= LastPoll(base, polls)
    ensures DeliveredCount(PollAll(rule, site, c, polls)) == |Occurrences(rule, site, base, LastPoll(base, polls))|
    decreases |polls|
  {
    if polls == [] {
      assert Occurrences(rule, site, base, base) == {};
    } else {
      PollCounts(rule, site, c, base, polls[0]);
      var (after, firing) := PollCursor(rule, site, c, polls[0]);
      PollsConserve(rule, site, after, polls[0], polls[1..]);
      OccurrencesSplit(rule, site, base, polls[0], LastPoll(base, polls));
      var rest := PollAll(rule, site, after, polls[1..]);
      if firing.Some? { assert ([firing.value] + rest)[1..] == rest; } else { assert [] + rest == rest; }
    }
  }

  /** Every run of non-decreasing polls from a fresh baseline delivers, or
      stands for, each occurrence exactly once. */
  ghost predicate Conserves(rule: Rule, site: Site) {
    forall base, polls :: base < I64_MAX && Ascending(base, polls) ==>
      DeliveredCount(PollAll(rule, site, Started(rule, site, base, 0), polls)) == |Occurrences(rule, site, base, LastPoll(base, polls))|
  }

  /** Conservation holds for every run exactly when the rule leaves no gap wider
      than the search window. */
  lemma ConservedUnlessAGapIsWide(rule: Rule, site: Site)
    requires ValidRule(rule)
    ensures Conserves(rule, site) <==> NoWideGap(rule, site)
  {
    hide IsOccurrence, HitInWindow;
    if NoWideGap(rule, site) {
      forall base, polls | base < I64_MAX && Ascending(base, polls)
        ensures DeliveredCount(PollAll(rule, site, Started(rule, site, base, 0), polls)) == |Occurrences(rule, site, base, LastPoll(base, polls))|
      {
        NextLeads(rule, site, base);
        PollsConserve(rule, site, Started(rule, site, base, 0), base, polls);
      }
    } else {
      var t, u :| t < u < I64_MAX && IsOccurrence(rule, site, u) && !HitInWindow(rule, site, t);
      SearchFinds(rule, site, t);
      var polls := [u];
      assert polls[1..] == [] && Ascending(t, polls);
      assert PollAll(rule, site, Started(rule, site, t, 0), polls) == [];
      assert u in Occurrences(rule, site, t, u);
    }
  }

  /** Interval and fixed rules always conserve. */
  lemma ClockRulesConserve(rule: Rule, site: Site)
    requires ValidRule(rule) && !rule.Astronomical?
    ensures Conserves(rule, site)
  {
    ConservedUnlessAGapIsWide(rule, site);
  }
}
