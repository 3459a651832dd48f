/** Sites as the solar equations give them: a crossing depends on the day of the
    year alone, so a site repeats itself every year. */
module SolarSites {
  import opened Values
  import opened CivilDates
  import opened ScheduleRules
  import opened ScheduleCursors

  const EVERY_DAY: set<nat> := {0, 1, 2, 3, 4, 5, 6}
  const MONDAYS: set<nat> := {0}

  /** When an anchor is crossed on a day of the year, in milliseconds from UTC
      midnight; far from Greenwich that may be a day off. */
  type Times = (SolarAnchor, int) -> Option<int>

  ghost predicate WithinADay(times: Times) {
    forall anchor, n :: times(anchor, n).Some? ==> -DAY_MS <= times(anchor, n).value < 2 * DAY_MS
  }

  function YearDay(day: int): int { DayOfYear(UnboundedDate(day)) }

  function SolarSite(times: Times): Site {
    Site(Some((anchor: SolarAnchor, day: int) => Crossing(times, anchor, day)))
  }

  function Crossing(times: Times, anchor: SolarAnchor, day: int): Option<int> {
    var time := times(anchor, YearDay(day));
    if time.None? then None else Some(day * DAY_MS + time.value)
  }

  // ----- days of the year ----------------------------------------------------------------

  function NewYear(year: int): int { DaysFromCivil(year, 1, 1) }

  function YearDays(year: int): int { if IsLeap(year) then 366 else 365 }

  lemma NextNewYear(year: int)
    ensures NewYear(year + 1) == NewYear(year) + YearDays(year)
  {
    hide Years;
    DaysByYears(Date(year, 1, 1));
    DaysByYears(Date(year + 1, 1, 1));
    YearLength(year - 1);
  }

  lemma {:induction false} NewYearsInOrder(a: int, b: int)
    requires a <= b
    ensures NewYear(a) + 365 * (b - a) <= NewYear(b)
    decreases b - a
  {
    hide NewYear;
    if a < b {
      NewYearsInOrder(a, b - 1);
      NextNewYear(b - 1);
    }
  }

  lemma WithinItsYear(d: Date)
    requires ValidDate(d)
    ensures NewYear(d.year) <= DaysOf(d) < NewYear(d.year + 1)
  {
    hide Years, IsLeap, DaysFromCivil, MonthLength;
    DaysByYears(d);
    DaysByYears(Date(d.year, 1, 1));
    DaysByYears(Date(d.year + 1, 1, 1));
    YearLength(d.year - 1);
    var mp := (d.month + 9) % 12;
    if d.month > 2 { MonthEnds(mp, d.year); } else { WinterMonths(d); }
  }

  lemma WinterMonths(d: Date)
    requires ValidDate(d) && d.month <= 2
    ensures MonthStart(10) == 306 && MonthStart((d.month + 9) % 12) + d.day <= 366
  {
  }

  /** Day `n` of a year is the `n`-th from its new year. */
  lemma YearDayIs(year: int, n: int)
    requires 1 <= n <= YearDays(year)
    ensures YearDay(NewYear(year) + n - 1) == n
  {
    hide DaysFromCivil, UnboundedDate, YearDays;
    var day := NewYear(year) + n - 1;
    var d := UnboundedDate(day);
    DayRoundTrip(day);
    WithinItsYear(d);
    NextNewYear(year);
    if d.year < year { NewYearsInOrder(d.year + 1, year); }
    if year < d.year { NewYearsInOrder(year + 1, d.year); }
    assert d.year == year;
  }

  lemma DayOfSomeYear(day: int) returns (year: int)
    ensures NewYear(year) <= day < NewYear(year + 1) && YearDay(day) == day - NewYear(year) + 1
    ensures 1 <= YearDay(day) <= YearDays(year)
  {
    hide DaysFromCivil, UnboundedDate, YearDays;
    var d := UnboundedDate(day);
    DayRoundTrip(day);
    WithinItsYear(d);
    year := d.year;
    NextNewYear(year);
  }

  /** Any 366 consecutive days hold every day of a common year. */
  lemma EveryYearDayComes(from: int, n: int) returns (day: int)
    requires 1 <= n <= 365
    ensures from <= day <= from + 365 && YearDay(day) == n
  {
    hide YearDay, NewYear;
    var year := DayOfSomeYear(from);
    NextNewYear(year);
    YearDayIs(year, n);
    YearDayIs(year + 1, n);
    day := if NewYear(year) + n - 1 >= from then NewYear(year) + n - 1 else NewYear(year + 1) + n - 1;
  }

  /** A day of a year, placed by the new years around it. */
  lemma YearAt(day: int, first: int, last: int) returns (year: int)
    requires NewYear(first) <= day < NewYear(last + 1)
    ensures first <= year <= last && NewYear(year) <= day < NewYear(year + 1)
    ensures YearDay(day) == day - NewYear(year) + 1 && 1 <= YearDay(day) <= YearDays(year)
  {
    hide YearDay, NewYear;
    year := DayOfSomeYear(day);
    if year < first { NewYearsInOrder(year + 1, first); }
    if year > last { NewYearsInOrder(last + 1, year); }
  }

  lemma SomeNewYears()
    ensures NewYear(2024) == 19_723 && NewYear(2025) == 20_089 && NewYear(2026) == 20_454 && NewYear(2027) == 20_819
    ensures NewYear(2028) == 21_184 && NewYear(2029) == 21_550 && NewYear(2030) == 21_915
  {
  }

  // ----- what the search window covers -------------------------------------------------------

  /** The window covers a full year, whatever the offset: where the anchor is
      crossed on some day of a common year, a rule for all weekdays always has
      an occurrence in the window. */
  lemma AlwaysInWindow(times: Times, anchor: SolarAnchor, offset: int, n: int, t: int)
    requires WithinADay(times) && -MAX_ASTRONOMICAL_OFFSET_SECONDS <= offset <= MAX_ASTRONOMICAL_OFFSET_SECONDS
    requires 1 <= n <= 365 && times(anchor, n).Some?
    ensures HitInWindow(Astronomical(anchor, offset, EVERY_DAY), SolarSite(times), t)
  {
    hide YearDay;
    var rule, site := Astronomical(anchor, offset, EVERY_DAY), SolarSite(times);
    var looked := EveryYearDayComes(DayOf(t) + 3, n);
    var event := Crossing(times, anchor, looked).value;
    var day := DayOf(event);
    assert looked - 1 <= day <= looked + 1;
    assert site.crossing.value(anchor, looked) == Some(event);
    var found := SolarEventOn(site.crossing.value, anchor, day);
    assert found.Some?;
    assert found.value >= day * DAY_MS;
    assert Candidates(rule, site)(day) == Some(found.value + offset * 1000);
  }

  lemma OccurrenceHasACrossing(times: Times, anchor: SolarAnchor, offset: int, days: set<nat>, u: int) returns (looked: int)
    requires IsOccurrence(Astronomical(anchor, offset, days), SolarSite(times), u)
    ensures Crossing(times, anchor, looked) == Some(u - offset * 1000)
    ensures -1 <= looked - DayOf(u - offset * 1000) <= 1 && WeekdayOf(DayOf(u)) in days
  {
    looked := AstronomicalOccurrenceMeans(anchor, offset, days, SolarSite(times), u);
  }

  /** Nothing is found in a window whose only crossings are `last`, which is not
      after `t`, and `wrong`, which leads to another weekday. */
  lemma NothingElseInWindow(times: Times, anchor: SolarAnchor, offset: int, days: set<nat>, t: int, last: int, wrong: int)
    requires WithinADay(times) && -MAX_ASTRONOMICAL_OFFSET_SECONDS <= offset <= MAX_ASTRONOMICAL_OFFSET_SECONDS
    requires forall d :: DayOf(t) - 2 <= d <= DayOf(t) + SEARCH_DAY_LIMIT && times(anchor, YearDay(d)).Some? ==> d == last || d == wrong
    requires Crossing(times, anchor, last).Some? ==> Crossing(times, anchor, last).value + offset * 1000 <= t
    requires wrong != last && Crossing(times, anchor, wrong).Some? ==> WeekdayOf(DayOf(Crossing(times, anchor, wrong).value + offset * 1000)) !in days
    ensures !HitInWindow(Astronomical(anchor, offset, days), SolarSite(times), t)
  {
    hide YearDay, Crossing;
    var rule, site := Astronomical(anchor, offset, days), SolarSite(times);
    forall day | DayOf(t) - 1 <= day < DayOf(t) + SEARCH_DAY_LIMIT && Candidates(rule, site)(day).Some?
      ensures Candidates(rule, site)(day).value <= t
    {
      var u := Candidates(rule, site)(day).value;
      var looked := CandidateHasACrossing(times, anchor, offset, days, day, u);
      assert looked == last || looked == wrong by { CrossingHasATime(times, anchor, looked); }
    }
  }

  lemma CrossingHasATime(times: Times, anchor: SolarAnchor, day: int)
    ensures Crossing(times, anchor, day).Some? <==> times(anchor, YearDay(day)).Some?
  {
  }

  lemma CandidateHasACrossing(times: Times, anchor: SolarAnchor, offset: int, days: set<nat>, day: int, u: int) returns (looked: int)
    requires Candidates(Astronomical(anchor, offset, days), SolarSite(times))(day) == Some(u)
    ensures Crossing(times, anchor, looked) == Some(u - offset * 1000)
    ensures -1 <= looked - day <= 1 && WeekdayOf(DayOf(u)) in days
  {
    hide YearDay, Crossing;
    var rule, site := Astronomical(anchor, offset, days), SolarSite(times);
    assert SolarEventOn(site.crossing.value, anchor, day) == Some(u - offset * 1000);
    assert IsOccurrence(rule, site, u);
    looked := OccurrenceHasACrossing(times, anchor, offset, days, u);
  }

  /** A crossing with none beside it is found on its date. */
  lemma CrossingOccurs(times: Times, anchor: SolarAnchor, offset: int, days: set<nat>, looked: int)
    requires Crossing(times, anchor, looked).Some?
    requires var date := DayOf(Crossing(times, anchor, looked).value);
             -1 <= date - looked <= 1 && forall d :: date - 1 <= d <= date + 1 && d != looked ==> Crossing(times, anchor, d).None?
    requires WeekdayOf(DayOf(Crossing(times, anchor, looked).value + offset * 1000)) in days
    ensures IsOccurrence(Astronomical(anchor, offset, days), SolarSite(times), Crossing(times, anchor, looked).value + offset * 1000)
  {
    hide Crossing;
    var rule, site := Astronomical(anchor, offset, days), SolarSite(times);
    var event := Crossing(times, anchor, looked).value;
    var date := DayOf(event);
    assert site.crossing.value(anchor, date) == Crossing(times, anchor, date);
    assert SolarEventOn(site.crossing.value, anchor, date) == Some(event);
    assert Candidates(rule, site)(date) == Some(event + offset * 1000);
  }

  /** The anchor is crossed on a day that every year has. */
  ghost predicate EveryYear(times: Times, anchor: SolarAnchor) {
    exists n :: 1 <= n <= 365 && times(anchor, n).Some?
  }

  /** A rule for all weekdays conserves exactly unless its anchor is crossed
      only on the last day of leap years: the window covers a full polar year,
      whatever the offset. */
  lemma DailyRulesConserve(times: Times, anchor: SolarAnchor, offset: int)
    requires WithinADay(times) && -MAX_ASTRONOMICAL_OFFSET_SECONDS <= offset <= MAX_ASTRONOMICAL_OFFSET_SECONDS
    ensures Conserves(Astronomical(anchor, offset, EVERY_DAY), SolarSite(times)) <==> (times(anchor, 366).Some? ==> EveryYear(times, anchor))
  {
    hide YearDay, HitInWindow, Conserves, IsOccurrence;
    var rule, site := Astronomical(anchor, offset, EVERY_DAY), SolarSite(times);
    assert ValidRule(rule) by { assert 0 in EVERY_DAY; }
    if times(anchor, 366).Some? ==> EveryYear(times, anchor) {
      forall t, u | t < u < I64_MAX && IsOccurrence(rule, site, u) ensures HitInWindow(rule, site, t) {
        var looked := OccurrenceHasACrossing(times, anchor, offset, EVERY_DAY, u);
        var _ := DayOfSomeYear(looked);
        var n :| 1 <= n <= 365 && times(anchor, n).Some?;
        AlwaysInWindow(times, anchor, offset, n, t);
      }
    } else {
      LeapDaysAreMissed(times, anchor, offset);
    }
    ConservedUnlessAGapIsWide(rule, site);
  }

  /** Around the ends of 2024 and 2028, only those days are day 366. */
  lemma LeapDays()
    ensures YearDay(20_088) == 366 && YearDay(21_549) == 366
    ensures forall d :: 20_080 <= d <= 20_470 && YearDay(d) == 366 ==> d == 20_088
    ensures forall d :: 21_540 <= d <= 21_560 && YearDay(d) == 366 ==> d == 21_549
  {
    hide YearDay, NewYear;
    SomeNewYears();
    YearDayIs(2024, 366);
    YearDayIs(2028, 366);
    forall d | 20_080 <= d <= 20_470 && YearDay(d) == 366 ensures d == 20_088 { var year := YearAt(d, 2024, 2026); }
    forall d | 21_540 <= d <= 21_560 && YearDay(d) == 366 ensures d == 21_549 { var year := YearAt(d, 2028, 2029); }
  }

  lemma LeapDaysAreMissed(times: Times, anchor: SolarAnchor, offset: int)
    requires WithinADay(times) && -MAX_ASTRONOMICAL_OFFSET_SECONDS <= offset <= MAX_ASTRONOMICAL_OFFSET_SECONDS
    requires times(anchor, 366).Some? && !EveryYear(times, anchor)
    ensures !NoWideGap(Astronomical(anchor, offset, EVERY_DAY), SolarSite(times))
  {
    hide YearDay, HitInWindow, IsOccurrence, NewYear;
    var rule, site, m := Astronomical(anchor, offset, EVERY_DAY), SolarSite(times), times(anchor, 366).value;
    LeapDays();
    var t, u := 20_088 * DAY_MS + m + offset * 1000, 21_549 * DAY_MS + m + offset * 1000;
    forall d | times(anchor, YearDay(d)).Some? ensures YearDay(d) == 366 { var _ := DayOfSomeYear(d); }
    NothingElseInWindow(times, anchor, offset, EVERY_DAY, t, 20_088, 20_088);
    CrossingOccurs(times, anchor, offset, EVERY_DAY, 21_549);
    assert t < u < I64_MAX && IsOccurrence(rule, site, u) && !HitInWindow(rule, site, t);
  }

  // ----- a rule whose gap is wider than the window ---------------------------------------------------

  /** At 89.95 degrees north on the prime meridian the sun rises once a year,
      on day 78, between 07:00 and 09:00. */
  const POLAR_SUNRISE: int := 78

  function PolarTimes(time: int): Times {
    (anchor: SolarAnchor, n: int) => if anchor.Sunrise? && n == POLAR_SUNRISE then Some(time) else None
  }

  /** The polar sunrise of 2024 is on a Monday, the next such Monday in 2029. */
  lemma PolarSunrises()
    ensures WeekdayOf(19_800) == 0 && WeekdayOf(20_166) == 2 && WeekdayOf(21_627) == 0
    ensures forall d :: 19_798 <= d <= 20_170 && YearDay(d) == POLAR_SUNRISE ==> d == 19_800 || d == 20_166
    ensures forall d :: 21_620 <= d <= 21_630 && YearDay(d) == POLAR_SUNRISE ==> d == 21_627
    ensures YearDay(19_800) == POLAR_SUNRISE && YearDay(21_627) == POLAR_SUNRISE
  {
    hide YearDay, NewYear;
    SomeNewYears();
    forall d | 19_798 <= d <= 20_170 && YearDay(d) == POLAR_SUNRISE ensures d == 19_800 || d == 20_166 {
      var year := YearAt(d, 2024, 2025);
    }
    forall d | 21_620 <= d <= 21_630 && YearDay(d) == POLAR_SUNRISE ensures d == 21_627 { var year := YearAt(d, 2029, 2029); }
    YearDayIs(2024, POLAR_SUNRISE);
    YearDayIs(2029, POLAR_SUNRISE);
  }

  /** A rule for Mondays at that site does not conserve: once its cursor finds
      no Monday sunrise in the window it stays without a next occurrence, and
      the one of 2029 is never delivered. The same site conserves for all
      weekdays. */
  lemma PolarMondaysAreMissed(time: int)
    requires 0 <= time < DAY_MS
    ensures !Conserves(Astronomical(Sunrise, 0, MONDAYS), SolarSite(PolarTimes(time)))
    ensures Conserves(Astronomical(Sunrise, 0, EVERY_DAY), SolarSite(PolarTimes(time)))
  {
    hide YearDay, NewYear, HitInWindow, Conserves, IsOccurrence;
    var times := PolarTimes(time);
    var rule, site := Astronomical(Sunrise, 0, MONDAYS), SolarSite(times);
    var t, u := 19_800 * DAY_MS + time, 21_627 * DAY_MS + time;
    PolarSunrises();
    assert 1 <= POLAR_SUNRISE <= 365 && times(Sunrise, POLAR_SUNRISE).Some?;
    DailyRulesConserve(times, Sunrise, 0);
    NothingElseInWindow(times, Sunrise, 0, MONDAYS, t, 19_800, 20_166);
    CrossingOccurs(times, Sunrise, 0, MONDAYS, 21_627);
    assert ValidRule(rule) by { assert 0 in MONDAYS; }
    assert t < u < I64_MAX && IsOccurrence(rule, site, u) && !HitInWindow(rule, site, t);
    ConservedUnlessAGapIsWide(rule, site);
  }
}
