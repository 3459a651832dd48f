/** Schedule rules and the search for their next occurrence, in a build whose
    only time zone is UTC. A date is the number of days since 1970-01-01 and an
    instant the number of milliseconds since its midnight. */
module ScheduleRules {
  import opened Values

  const MIN_INTERVAL_SECONDS: nat := 60
  const MAX_INTERVAL_SECONDS: nat := 604_800
  const MAX_ASTRONOMICAL_OFFSET_SECONDS: int := 86_400
  const SEARCH_DAY_LIMIT: int := 370
  const DAY_MS: int := 86_400_000
  const I64_MAX: int := 0x7FFF_FFFF_FFFF_FFFF

  datatype LocalTime = LocalTime(hour: nat, minute: nat, second: nat) {
    predicate Valid() { hour <= 23 && minute <= 59 && second <= 59 }
    function Millis(): int { ((hour * 60 + minute) * 60 + second) * 1000 }
  }

  datatype SolarAnchor = Dawn | Sunrise | Sunset | Dusk

  /** Weekdays count from Monday = 0. */
  datatype Rule =
    | Fixed(at: LocalTime, weekdays: set<nat>)
    | Interval(everySeconds: nat, offsetSeconds: nat)
    | Astronomical(anchor: SolarAnchor, offset: int, days: set<nat>)

  datatype BlockSchedule = BlockSchedule(name: ScheduleName, enabled: bool, rule: Rule)

  /** `crossing` is the instant the solar equations give for a UTC date; it is
      absent on polar dates, and the whole function is absent without
      coordinates. */
  datatype Site = Site(crossing: Option<(SolarAnchor, int) -> Option<int>>)

  function DayOf(instant: int): int { instant / DAY_MS }

  /** 1970-01-01 was a Thursday. */
  function WeekdayOf(day: int): nat { (day + 3) % 7 }

  ghost predicate WeekdaySet(days: set<nat>) {
    days != {} && forall d :: d in days ==> d < 7
  }

  /** The bounds rule validation checks, with the non-empty weekday set its
      type guarantees. */
  ghost predicate ValidRule(rule: Rule) {
    match rule
    case Fixed(at, weekdays) => at.Valid() && WeekdaySet(weekdays)
    case Interval(every, offset) => MIN_INTERVAL_SECONDS <= every <= MAX_INTERVAL_SECONDS && offset < every
    case Astronomical(_, offset, days) =>
      -MAX_ASTRONOMICAL_OFFSET_SECONDS <= offset <= MAX_ASTRONOMICAL_OFFSET_SECONDS && WeekdaySet(days)
  }

  predicate RuleInBounds(rule: Rule) {
    match rule
    case Fixed(at, _) => at.Valid()
    case Interval(every, offset) => MIN_INTERVAL_SECONDS <= every <= MAX_INTERVAL_SECONDS && offset < every
    case Astronomical(_, offset, _) =>
      -MAX_ASTRONOMICAL_OFFSET_SECONDS <= offset <= MAX_ASTRONOMICAL_OFFSET_SECONDS
  }

  // ----- what an occurrence is ----------------------------------------------

  function FixedOn(at: LocalTime, weekdays: set<nat>, day: int): Option<int> {
    if WeekdayOf(day) in weekdays then Some(day * DAY_MS + at.Millis()) else None
  }

  /** The crossing whose date is `day`, looked for on that UTC date and on the
      dates beside it. */
  function SolarEventOn(crossing: (SolarAnchor, int) -> Option<int>, anchor: SolarAnchor, day: int): (r: Option<int>)
    ensures r.Some? ==> DayOf(r.value) == day
  {
    var here := crossing(anchor, day);
    if here.Some? && DayOf(here.value) == day then here
    else
      var before := crossing(anchor, day - 1);
      if before.Some? && DayOf(before.value) == day then before
      else
        var after := crossing(anchor, day + 1);
        if after.Some? && DayOf(after.value) == day then after else None
  }

  /** The occurrence anchored on `day`; the weekday filter looks at the date
      the offset leads to. */
  function AstronomicalOn(crossing: (SolarAnchor, int) -> Option<int>, anchor: SolarAnchor, offset: int,
                          days: set<nat>, day: int): Option<int>
  {
    var event := SolarEventOn(crossing, anchor, day);
    if event.None? then None
    else
      var candidate := event.value + offset * 1000;
      if WeekdayOf(DayOf(candidate)) in days then Some(candidate) else None
  }

  function Candidates(rule: Rule, site: Site): (r: int -> Option<int>) {
    match rule
    case Fixed(at, weekdays) => (day: int) => FixedOn(at, weekdays, day)
    case Interval(_, _) => (day: int) => None
    case Astronomical(anchor, offset, days) =>
      if site.crossing.None? then (day: int) => None
      else (day: int) => AstronomicalOn(site.crossing.value, anchor, offset, days, day)
  }

  /** Independent of any search: the instants a rule names. */
  ghost predicate IsOccurrence(rule: Rule, site: Site, t: int) {
    match rule
    case Interval(every, offset) => every > 0 && t % 1000 == 0 && (t / 1000 - offset) % every == 0
    case _ => exists day :: Candidates(rule, site)(day) == Some(t)
  }

  /** A fixed rule names an instant exactly when its time of day and weekday
      match. */
  lemma FixedOccurrenceMeans(at: LocalTime, weekdays: set<nat>, site: Site, t: int)
    requires at.Valid()
    ensures IsOccurrence(Fixed(at, weekdays), site, t) <==> t % DAY_MS == at.Millis() && WeekdayOf(DayOf(t)) in weekdays
  {
    var rule := Fixed(at, weekdays);
    assert t == DayOf(t) * DAY_MS + t % DAY_MS;
    if IsOccurrence(rule, site, t) {
      var day :| Candidates(rule, site)(day) == Some(t);
      assert DayOf(t) == day;
    }
    if t % DAY_MS == at.Millis() && WeekdayOf(DayOf(t)) in weekdays {
      assert Candidates(rule, site)(DayOf(t)) == Some(t);
    }
  }

  /** An astronomical rule names only instants a constant offset away from a
      crossing, on an allowed weekday. */
  lemma AstronomicalOccurrenceMeans(anchor: SolarAnchor, offset: int, days: set<nat>, site: Site, t: int) returns (looked: int)
    requires IsOccurrence(Astronomical(anchor, offset, days), site, t)
    ensures site.crossing.Some? && site.crossing.value(anchor, looked) == Some(t - offset * 1000)
    ensures -1 <= looked - DayOf(t - offset * 1000) <= 1 && WeekdayOf(DayOf(t)) in days
  {
    var rule := Astronomical(anchor, offset, days);
    var day :| Candidates(rule, site)(day) == Some(t);
    var crossing := site.crossing.value;
    var event := SolarEventOn(crossing, anchor, day).value;
    assert event == t - offset * 1000 && DayOf(event) == day;
    looked := if crossing(anchor, day) == Some(event) then day else if crossing(anchor, day - 1) == Some(event) then day - 1 else day + 1;
  }

  // ----- the search -----------------------------------------------------------

  function SaturateI64(x: int): int { if x > I64_MAX then I64_MAX else x }

  function NextInterval(every: nat, offset: nat, after: int): Option<int> {
    if every == 0 then None
    else
      var numerator := after / 1000 + 1 - offset;
      var k := numerator / every + (if numerator % every != 0 then 1 else 0);
      Some(SaturateI64((offset + k * every) * 1000))
  }

  /** The first candidate after `after` among days `lo..hi`. */
  ghost function FirstHit(candidate: int -> Option<int>, after: int, lo: int, hi: int): Option<int>
    decreases hi - lo
  {
    if lo >= hi then None
    else if candidate(lo).Some? && candidate(lo).value > after then candidate(lo)
    else FirstHit(candidate, after, lo + 1, hi)
  }

  /** The earliest candidate after `after` among days `lo..hi`, or `best`. */
  ghost function EarliestHit(candidate: int -> Option<int>, after: int, lo: int, hi: int, best: Option<int>): Option<int>
    decreases hi - lo
  {
    if lo >= hi then best
    else EarliestHit(candidate, after, lo + 1, hi, Better(candidate(lo), after, best))
  }

  function Better(candidate: Option<int>, after: int, best: Option<int>): Option<int> {
    if candidate.Some? && candidate.value > after && (best.None? || candidate.value < best.value) then candidate
    else best
  }

  ghost function NextOccurrence(rule: Rule, site: Site, after: int): Option<int> {
    match rule
    case Fixed(at, weekdays) =>
      if !at.Valid() then None
      else FirstHit(Candidates(rule, site), after, DayOf(after), DayOf(after) + SEARCH_DAY_LIMIT)
    case Interval(every, offset) => NextInterval(every, offset, after)
    case Astronomical(_, _, _) =>
      if site.crossing.None? then None
      else EarliestHit(Candidates(rule, site), after, DayOf(after) - 1, DayOf(after) + SEARCH_DAY_LIMIT, None)
  }

  method FirstCandidateAfter(candidate: int -> Option<int>, after: int) returns (r: Option<int>)
    ensures r == FirstHit(candidate, after, DayOf(after), DayOf(after) + SEARCH_DAY_LIMIT)
  {
    var base := DayOf(after);
    var day := 0;
    while day < SEARCH_DAY_LIMIT
      invariant 0 <= day <= SEARCH_DAY_LIMIT
      invariant FirstHit(candidate, after, base, base + SEARCH_DAY_LIMIT)
             == FirstHit(candidate, after, base + day, base + SEARCH_DAY_LIMIT)
    {
      r := candidate(base + day);
      if r.Some? && r.value > after { return; }
      day := day + 1;
    }
    r := None;
  }

  method EarliestCandidateAfter(candidate: int -> Option<int>, after: int) returns (best: Option<int>)
    ensures best == EarliestHit(candidate, after, DayOf(after) - 1, DayOf(after) + SEARCH_DAY_LIMIT, None)
  {
    var base := DayOf(after);
    best := None;
    var day := -1;
    while day < SEARCH_DAY_LIMIT
      invariant -1 <= day <= SEARCH_DAY_LIMIT
      invariant EarliestHit(candidate, after, base - 1, base + SEARCH_DAY_LIMIT, None)
             == EarliestHit(candidate, after, base + day, base + SEARCH_DAY_LIMIT, best)
    {
      best := Better(candidate(base + day), after, best);
      day := day + 1;
    }
  }

  method NextOccurrenceAfter(rule: Rule, site: Site, after: int) returns (r: Option<int>)
    ensures r == NextOccurrence(rule, site, after)
  {
    match rule {
      case Interval(every, offset) => r := NextInterval(every, offset, after);
      case Fixed(at, _) =>
        if !at.Valid() { return None; }
        r := FirstCandidateAfter(Candidates(rule, site), after);
      case Astronomical(_, _, _) =>
        if site.crossing.None? { return None; }
        r := EarliestCandidateAfter(Candidates(rule, site), after);
    }
  }

  // ----- leastness ------------------------------------------------------------

  /** Later anchors never give earlier occurrences. */
  ghost predicate Increasing(candidate: int -> Option<int>) {
    forall a, b :: a < b && candidate(a).Some? && candidate(b).Some? ==> candidate(a).value < candidate(b).value
  }

  lemma CandidatesIncrease(rule: Rule, site: Site)
    requires ValidRule(rule)
    ensures Increasing(Candidates(rule, site))
  {
    var candidate := Candidates(rule, site);
    forall a, b | a < b && candidate(a).Some? && candidate(b).Some?
      ensures candidate(a).value < candidate(b).value
    {
      match rule {
        case Fixed(at, weekdays) => assert a * DAY_MS + DAY_MS <= b * DAY_MS;
        case Interval(_, _) => assert false;
        case Astronomical(anchor, offset, days) =>
          var ea, eb := SolarEventOn(site.crossing.value, anchor, a), SolarEventOn(site.crossing.value, anchor, b);
          assert DayOf(ea.value) < DayOf(eb.value);
      }
    }
  }

  /** What a hit of the search means. */
  ghost predicate LeastHit(candidate: int -> Option<int>, after: int, lo: int, hi: int, r: Option<int>) {
    && (r.Some? ==> r.value > after && exists d :: lo <= d < hi && candidate(d) == r)
    && (forall d :: lo <= d < hi && candidate(d).Some? && candidate(d).value > after
          ==> r.Some? && r.value <= candidate(d).value)
  }

  lemma {:induction false} FirstHitIsLeast(candidate: int -> Option<int>, after: int, lo: int, hi: int)
    requires Increasing(candidate)
    ensures LeastHit(candidate, after, lo, hi, FirstHit(candidate, after, lo, hi))
    decreases hi - lo
  {
    if lo < hi {
      FirstHitIsLeast(candidate, after, lo + 1, hi);
    }
  }

  lemma {:induction false} EarliestHitIsLeast(candidate: int -> Option<int>, after: int, lo: int, mid: int, hi: int, best: Option<int>)
    requires lo <= mid && LeastHit(candidate, after, lo, mid, best)
    ensures LeastHit(candidate, after, lo, if mid < hi then hi else mid,
                     EarliestHit(candidate, after, mid, hi, best))
    decreases hi - mid
  {
    if mid < hi {
      var next := Better(candidate(mid), after, best);
      assert LeastHit(candidate, after, lo, mid + 1, next);
      EarliestHitIsLeast(candidate, after, lo, mid + 1, hi, next);
    }
  }

  /** `r` is the earliest occurrence after `after`. */
  ghost predicate Earliest(rule: Rule, site: Site, after: int, r: int) {
    && after < r && IsOccurrence(rule, site, r)
    && forall u :: after < u && IsOccurrence(rule, site, u) ==> r <= u
  }

  lemma MultiplesInOrder(a: int, b: int, every: nat)
    requires every > 0
    ensures a < b <==> a * every < b * every
  {
    if a < b { assert (b - a) * every > 0; }
    if b <= a { assert (a - b) * every >= 0; }
  }

  lemma QuotientBounds(n: int, d: nat)
    requires d > 0
    ensures n == (n / d) * d + n % d && 0 <= n % d < d
  {
  }

  lemma MultipleMod(k: int, every: nat)
    requires every > 0
    ensures (k * every) % every == 0
  {
    QuotientBounds(k * every, every);
    var q := (k * every) / every;
    assert (q + 1) * every == q * every + every;
    MultiplesInOrder(k, q + 1, every);
    MultiplesInOrder(k, q, every);
  }

  /** The smallest multiple of `every` that is not below `n`. */
  lemma RoundedUp(n: int, every: nat) returns (k: int)
    requires every > 0
    ensures k == n / every + (if n % every != 0 then 1 else 0)
    ensures n <= k * every < n + every
    ensures forall m: int :: n <= m * every ==> k <= m
  {
    QuotientBounds(n, every);
    k := n / every + (if n % every != 0 then 1 else 0);
    assert (n / every + 1) * every == (n / every) * every + every;
    forall m: int | n <= m * every ensures k <= m {
      assert (k - 1) * every == k * every - every;
      MultiplesInOrder(k - 1, m, every);
    }
  }

  lemma IntervalIsEarliest(every: nat, offset: nat, after: int, site: Site)
    requires 0 < every
    ensures var numerator := after / 1000 + 1 - offset;
            var k := numerator / every + (if numerator % every != 0 then 1 else 0);
            var t := (offset + k * every) * 1000;
            Earliest(Interval(every, offset), site, after, t) && t <= after + 1000 * every
  {
    var numerator := after / 1000 + 1 - offset;
    var k := RoundedUp(numerator, every);
    var t := (offset + k * every) * 1000;
    assert t / 1000 - offset == k * every;
    MultipleMod(k, every);
    forall u | after < u && IsOccurrence(Interval(every, offset), site, u) ensures t <= u {
      var w := u / 1000 - offset;
      QuotientBounds(w, every);
      var m := w / every;
      assert w == m * every && numerator <= m * every;
      MultiplesInOrder(m, k, every);
    }
  }

  lemma WeekCoversEveryWeekday(base: int, weekday: nat) returns (d: int)
    requires weekday < 7
    ensures 1 <= d <= 7 && WeekdayOf(base + d) == weekday
  {
    d := (weekday - (base + 3)) % 7;
    if d == 0 { d := 7; }
  }

  /** Some day of the coming week carries a candidate after the baseline. */
  lemma FixedHitThisWeek(at: LocalTime, weekdays: set<nat>, after: int) returns (day: int)
    requires at.Valid() && WeekdaySet(weekdays)
    ensures DayOf(after) <= day <= DayOf(after) + 7
    ensures FixedOn(at, weekdays, day).Some?
    ensures after < FixedOn(at, weekdays, day).value <= after + 7 * DAY_MS
  {
    var base := DayOf(after);
    var weekday :| weekday in weekdays;
    var d := WeekCoversEveryWeekday(base, weekday);
    day := base + d;
    if d == 7 && base * DAY_MS + at.Millis() > after { day := base; }
  }

  /** A validated fixed rule always fires within a week. */
  lemma FixedWithinAWeek(rule: Rule, site: Site, after: int)
    requires ValidRule(rule) && rule.Fixed?
    ensures NextOccurrence(rule, site, after).Some?
    ensures NextOccurrence(rule, site, after).value <= after + 7 * DAY_MS
  {
    var base := DayOf(after);
    CandidatesIncrease(rule, site);
    FirstHitIsLeast(Candidates(rule, site), after, base, base + SEARCH_DAY_LIMIT);
    var day := FixedHitThisWeek(rule.at, rule.weekdays, after);
    assert Candidates(rule, site)(day).Some?;
  }

  /** The offset moves an event by at most a day, so no anchor before the
      window can matter. */
  lemma AnchorNearOccurrence(rule: Rule, site: Site, day: int, u: int)
    requires ValidRule(rule) && rule.Astronomical? && Candidates(rule, site)(day) == Some(u)
    ensures DayOf(u) - 1 <= day <= DayOf(u) + 1
  {
    var event := SolarEventOn(site.crossing.value, rule.anchor, day);
    assert DayOf(event.value) == day;
  }

  lemma FixedIsEarliest(rule: Rule, site: Site, after: int)
    requires ValidRule(rule) && rule.Fixed?
    ensures NextOccurrence(rule, site, after).Some?
    ensures Earliest(rule, site, after, NextOccurrence(rule, site, after).value)
  {
    var hi := DayOf(after) + SEARCH_DAY_LIMIT;
    var candidate := Candidates(rule, site);
    FixedWithinAWeek(rule, site, after);
    CandidatesIncrease(rule, site);
    FirstHitIsLeast(candidate, after, DayOf(after), hi);
    var next := NextOccurrence(rule, site, after).value;
    forall u | after < u && IsOccurrence(rule, site, u) ensures next <= u {
      var day :| candidate(day) == Some(u);
      assert day == DayOf(u);
      if day >= hi { assert u >= hi * DAY_MS > after + 7 * DAY_MS; }
    }
  }

  lemma AstronomicalIsEarliest(rule: Rule, site: Site, after: int, u: int)
    requires ValidRule(rule) && rule.Astronomical?
    ensures match NextOccurrence(rule, site, after)
            case Some(t) => after < t && IsOccurrence(rule, site, t) && (after < u && IsOccurrence(rule, site, u) ==> t <= u)
            case None => after < u && IsOccurrence(rule, site, u) ==> DayOf(u) >= DayOf(after) + SEARCH_DAY_LIMIT - 1
  {
    var lo, hi := DayOf(after) - 1, DayOf(after) + SEARCH_DAY_LIMIT;
    var candidate := Candidates(rule, site);
    var next := NextOccurrence(rule, site, after);
    if site.crossing.Some? {
      EarliestHitIsLeast(candidate, after, lo, lo, hi, None);
      if after < u && IsOccurrence(rule, site, u) {
        var day :| candidate(day) == Some(u);
        AnchorNearOccurrence(rule, site, day, u);
        if next.Some? && day >= hi {
          CandidatesIncrease(rule, site);
          var d :| lo <= d < hi && candidate(d) == next;
          assert candidate(d).value < candidate(day).value;
        }
      }
    }
  }

  /** The result of an interval search that ran past the representable
      instants; no interval rule names it. */
  predicate Clamped(rule: Rule, t: int) { rule.Interval? && t == I64_MAX }

  lemma ClampedIsNoOccurrence(rule: Rule, site: Site, t: int)
    requires Clamped(rule, t)
    ensures !IsOccurrence(rule, site, t)
  {
    assert I64_MAX % 1000 == 807;
  }

  /** `next_occurrence_after` is the earliest occurrence strictly after its
      baseline. A clamped result says that no representable instant is one; no
      result, which only an astronomical rule can have, that the next one is at
      least 369 days away. */
  lemma NextIsEarliest(rule: Rule, site: Site, after: int)
    requires ValidRule(rule)
    ensures match NextOccurrence(rule, site, after)
            case Some(t) => if Clamped(rule, t) then forall u :: after < u <= I64_MAX ==> !IsOccurrence(rule, site, u)
                            else Earliest(rule, site, after, t)
            case None => rule.Astronomical? &&
                         forall u :: after < u && IsOccurrence(rule, site, u) ==> DayOf(u) >= DayOf(after) + SEARCH_DAY_LIMIT - 1
  {
    match rule {
      case Interval(every, offset) =>
        IntervalIsEarliest(every, offset, after, site);
        ClampedIsNoOccurrence(rule, site, I64_MAX);
      case Fixed(_, _) => FixedIsEarliest(rule, site, after);
      case Astronomical(_, _, _) =>
        AstronomicalIsEarliest(rule, site, after, after);
        forall u | after < u && IsOccurrence(rule, site, u)
          ensures match NextOccurrence(rule, site, after)
                  case Some(t) => t <= u
                  case None => DayOf(u) >= DayOf(after) + SEARCH_DAY_LIMIT - 1
        {
          AstronomicalIsEarliest(rule, site, after, u);
        }
    }
  }

  /** At the end of the 64-bit range an interval result is clamped: it stays
      strictly after its baseline exactly until the baseline is the last
      representable instant, where the search returns that same instant. */
  lemma IntervalProgressesUntilTheLastInstant(every: nat, offset: nat, after: int)
    requires MIN_INTERVAL_SECONDS <= every <= MAX_INTERVAL_SECONDS && offset < every && after <= I64_MAX
    ensures NextOccurrence(Interval(every, offset), Site(None), after).value > after <==> after < I64_MAX
  {
    IntervalIsEarliest(every, offset, after, Site(None));
  }

  /** The membership test used before simulating an occurrence accepts the
      occurrences and, for an interval rule, the last representable instant. */
  lemma OccurrenceTest(rule: Rule, site: Site, t: int)
    requires ValidRule(rule) && t <= I64_MAX
    ensures NextOccurrence(rule, site, t - 1) == Some(t) <==> IsOccurrence(rule, site, t) || Clamped(rule, t)
  {
    NextIsEarliest(rule, site, t - 1);
    if Clamped(rule, t) { ClampedIsNoOccurrence(rule, site, t); }
  }

  // ----- preview --------------------------------------------------------------

  ghost predicate ExactlyTheOccurrences(rule: Rule, site: Site, after: int, found: seq<int>) {
    && (forall i :: 0 <= i < |found| ==> after < found[i] && IsOccurrence(rule, site, found[i]))
    && (forall i, j :: 0 <= i < j < |found| ==> found[i] < found[j])
    && (found != [] ==> forall u :: after < u <= found[|found| - 1] && IsOccurrence(rule, site, u) ==> u in found)
  }

  /** The occurrences in order and without gaps; only once no representable
      instant is left does the list go on, repeating the last one. */
  ghost predicate PreviewOf(rule: Rule, site: Site, after: int, found: seq<int>, genuine: nat) {
    && genuine <= |found| && ExactlyTheOccurrences(rule, site, after, found[..genuine])
    && (forall i :: 0 <= i < |found| ==> (Clamped(rule, found[i]) <==> genuine <= i))
    && (genuine < |found| ==> forall u :: LastOf(after, found[..genuine]) < u <= I64_MAX ==> !IsOccurrence(rule, site, u))
  }

  function LastOf(after: int, found: seq<int>): int { if found == [] then after else found[|found| - 1] }

  /** The next `count` occurrences after an instant; fewer only when an
      astronomical search gives up. */
  method PreviewOccurrences(rule: Rule, site: Site, after: int, count: nat) returns (found: seq<int>)
    requires ValidRule(rule)
    ensures exists genuine :: PreviewOf(rule, site, after, found, genuine)
    ensures |found| <= count
    ensures |found| < count ==> NextOccurrence(rule, site, LastOf(after, found)) == None
  {
    found := [];
    var cursor := after;
    ghost var genuine: nat := 0;
    while |found| < count
      invariant |found| <= count && cursor == LastOf(after, found)
      invariant PreviewOf(rule, site, after, found, genuine)
    {
      var next := NextOccurrenceAfter(rule, site, cursor);
      if next.None? { break; }
      genuine := PreviewGrows(rule, site, after, found, genuine, next.value);
      found := found + [next.value];
      cursor := next.value;
    }
  }

  lemma PreviewGrows(rule: Rule, site: Site, after: int, found: seq<int>, genuine: nat, next: int) returns (grown: nat)
    requires ValidRule(rule) && PreviewOf(rule, site, after, found, genuine)
    requires NextOccurrence(rule, site, LastOf(after, found)) == Some(next)
    ensures PreviewOf(rule, site, after, found + [next], grown)
  {
    hide NextOccurrence, IsOccurrence, ExactlyTheOccurrences, Clamped, Earliest, ValidRule;
    NextIsEarliest(rule, site, LastOf(after, found));
    if genuine == |found| && !Clamped(rule, next) {
      grown := genuine + 1;
      PreviewExtends(rule, site, after, found, next);
    } else {
      grown := genuine;
      if genuine < |found| { ClampedRepeats(rule, site, found[|found| - 1]); }
      PreviewRepeats(rule, site, after, found, genuine, next);
    }
  }

  /** A genuine occurrence extends a list of genuine occurrences. */
  lemma PreviewExtends(rule: Rule, site: Site, after: int, found: seq<int>, next: int)
    requires PreviewOf(rule, site, after, found, |found|) && Earliest(rule, site, LastOf(after, found), next) && !Clamped(rule, next)
    ensures PreviewOf(rule, site, after, found + [next], |found| + 1)
  {
    hide IsOccurrence, ExactlyTheOccurrences, Clamped, Earliest;
    assert found[..|found|] == found && (found + [next])[..|found| + 1] == found + [next];
    PreviewStep(rule, site, after, found, next);
  }

  /** A clamped result goes behind the occurrences. */
  lemma PreviewRepeats(rule: Rule, site: Site, after: int, found: seq<int>, genuine: nat, next: int)
    requires PreviewOf(rule, site, after, found, genuine) && Clamped(rule, next)
    requires genuine == |found| ==> forall u :: LastOf(after, found) < u <= I64_MAX ==> !IsOccurrence(rule, site, u)
    ensures PreviewOf(rule, site, after, found + [next], genuine)
  {
    hide IsOccurrence, ExactlyTheOccurrences, Clamped;
    assert (found + [next])[..genuine] == found[..genuine];
    if genuine == |found| { assert found[..genuine] == found; }
  }

  lemma ClampedRepeats(rule: Rule, site: Site, t: int)
    requires ValidRule(rule) && Clamped(rule, t)
    ensures NextOccurrence(rule, site, t) == Some(t)
  {
    IntervalIsEarliest(rule.everySeconds, rule.offsetSeconds, t, site);
  }

  lemma PreviewStep(rule: Rule, site: Site, after: int, before: seq<int>, next: int)
    requires ExactlyTheOccurrences(rule, site, after, before) && Earliest(rule, site, LastOf(after, before), next)
    ensures ExactlyTheOccurrences(rule, site, after, before + [next])
  {
    var found := before + [next];
    forall u | after < u <= next && IsOccurrence(rule, site, u) ensures u in found {
      if before != [] && u <= before[|before| - 1] {
        assert u in before;
      } else {
        assert u == next == found[|before|];
      }
    }
  }
}
