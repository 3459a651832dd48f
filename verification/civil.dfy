/** Days since 1970-01-01 and proleptic Gregorian dates. */
module CivilDates {
  import opened Values

  datatype Date = Date(year: int, month: int, day: int)

  /** Division as Rust does it, towards zero. */
  function TruncDiv(a: int, b: int): int
    requires b > 0
  {
    if a >= 0 then a / b else -(-a / b)
  }

  /** A cast to a signed 32-bit integer. */
  function WrapI32(x: int): (r: int)
    ensures I32_MIN <= r <= I32_MAX
    ensures I32_MIN <= x <= I32_MAX <==> r == x
  {
    (x - I32_MIN) % 0x1_0000_0000 + I32_MIN
  }

  // ----- the calendar, by its own rules ------------------------------------------------------------

  predicate IsLeap(year: int) { year % 4 == 0 && (year % 100 != 0 || year % 400 == 0) }

  function MonthLength(year: int, month: int): int {
    if month == 2 then if IsLeap(year) then 29 else 28
    else if month == 4 || month == 6 || month == 9 || month == 11 then 30
    else 31
  }

  predicate ValidDate(d: Date) { 1 <= d.month <= 12 && 1 <= d.day <= MonthLength(d.year, d.month) }

  function NextDate(d: Date): Date {
    if d.day < MonthLength(d.year, d.month) then Date(d.year, d.month, d.day + 1)
    else if d.month < 12 then Date(d.year, d.month + 1, 1)
    else Date(d.year + 1, 1, 1)
  }

  // ----- the conversions -----------------------------------------------------------------------------

  function DaysFromCivil(year: int, month: int, day: int): int {
    var y := if month <= 2 then year - 1 else year;
    var era := TruncDiv(if y >= 0 then y else y - 399, 400);
    var yoe := y - era * 400;
    var mp := (month + 9) % 12;
    var doy := TruncDiv(153 * mp + 2, 5) + day - 1;
    var doe := yoe * 365 + TruncDiv(yoe, 4) - TruncDiv(yoe, 100) + doy;
    era * 146_097 + doe - 719_468
  }

  function DaysOf(d: Date): int { DaysFromCivil(d.year, d.month, d.day) }

  /** The year of an era a day of the era falls in. */
  function YearOfEra(doe: int): int {
    TruncDiv(doe - TruncDiv(doe, 1460) + TruncDiv(doe, 36_524) - TruncDiv(doe, 146_096), 365)
  }

  /** The date of a day, before its year is cast to 32 bits. */
  function UnboundedDate(days: int): Date {
    var z := days + 719_468;
    var era := TruncDiv(if z >= 0 then z else z - 146_096, 146_097);
    var doe := z - era * 146_097;
    var yoe := YearOfEra(doe);
    var doy := doe - (365 * yoe + TruncDiv(yoe, 4) - TruncDiv(yoe, 100));
    var mp := TruncDiv(5 * doy + 2, 153);
    var day := doy - TruncDiv(153 * mp + 2, 5) + 1;
    var month := if mp < 10 then mp + 3 else mp - 9;
    Date(yoe + era * 400 + (if month <= 2 then 1 else 0), month, day)
  }

  function CivilFromDays(days: int): Date {
    var d := UnboundedDate(days);
    d.(year := WrapI32(d.year))
  }

  function DayOfYear(d: Date): int { DaysOf(d) - DaysFromCivil(d.year, 1, 1) + 1 }

  // ----- years that start in March -------------------------------------------------------------------

  /** Truncation with its correction is division rounding down. */
  lemma TruncFloor(a: int, b: int)
    requires b > 0
    ensures a >= 0 ==> TruncDiv(a, b) == a / b
    ensures TruncDiv(if a >= 0 then a else a - (b - 1), b) == a / b
  {
    if a < 0 {
      var n := b - 1 - a;
      assert a == b * (a / b) + a % b;
      assert n == b * (-(a / b)) + (b - 1 - a % b);
      DivisionIs(n, b, -(a / b), b - 1 - a % b);
    }
  }

  lemma DivisionIs(n: int, b: int, q: int, r: int)
    requires b > 0 && n == b * q + r && 0 <= r < b
    ensures n / b == q && n % b == r
  {
    var d := n / b - q;
    assert b * d == r - n % b;
    MultipleBounds(b, d);
  }

  lemma MultipleBounds(b: int, d: int)
    requires b > 0
    ensures (d > 0 ==> b * d >= b) && (d < 0 ==> b * d <= -b)
  {
  }

  /** Days before year `yoe` of an era. */
  function DaysBeforeYear(yoe: int): int { 365 * yoe + yoe / 4 - yoe / 100 }

  /** The March year `y` ends with a leap day. */
  predicate EndsLeap(y: int) { IsLeap(y + 1) }

  lemma EraOfDay(era: int, doe: int)
    requires 0 <= doe < 146_097
    ensures (era * 146_097 + doe) / 146_097 == era && (era * 146_097 + doe) % 146_097 == doe
  {
    DivisionIs(era * 146_097 + doe, 146_097, era, doe);
  }

  /** The quotients in the year formula, for a day given by century, leap
      cycle, year and day. */
  lemma EraQuotients(c: int, q: int, r: int, doy: int)
    requires 0 <= c <= 3 && 0 <= q <= 24 && 0 <= r <= 3 && 0 <= doy <= 365 && (doy == 365 ==> r == 3 && (q < 24 || c == 3))
    ensures var doe := 36_524 * c + 1461 * q + 365 * r + doy;
            && 0 <= doe <= 146_096
            && doe / 1460 == 25 * c + q + (if 24 * c + q + 365 * r + doy >= 1460 then 1 else 0)
            && doe / 36_524 - doe / 146_096 == c
  {
    var doe := 36_524 * c + 1461 * q + 365 * r + doy;
    var t := 24 * c + q + 365 * r + doy;
    var late := if t >= 1460 then 1 else 0;
    DivisionIs(doe, 1460, 25 * c + q + late, t - 1460 * late);
    var century := 1461 * q + 365 * r + doy;
    if century < 36_524 { DivisionIs(doe, 36_524, c, century); }
  }

  /** A leap March year by its place in the century. */
  lemma LeapPlace(yoe: int)
    requires 0 <= yoe < 400 && EndsLeap(yoe)
    ensures yoe % 4 == 3 && (yoe % 100 < 96 || yoe / 100 == 3)
  {
  }

  lemma CenturyParts(yoe: int)
    requires 0 <= yoe < 400
    ensures var c, q, r := yoe / 100, yoe % 100 / 4, yoe % 4;
            0 <= c <= 3 && 0 <= q <= 24 && 0 <= r <= 3 && yoe == 100 * c + 4 * q + r && DaysBeforeYear(yoe) == 36_524 * c + 1461 * q + 365 * r
  {
  }

  /** The year formula inverts `DaysBeforeYear` on every day of every year. */
  lemma YearOfEraIs(yoe: int, doy: int)
    requires 0 <= yoe < 400 && 0 <= doy <= 365 && (doy == 365 ==> EndsLeap(yoe))
    ensures 0 <= DaysBeforeYear(yoe) + doy < 146_097 && YearOfEra(DaysBeforeYear(yoe) + doy) == yoe
  {
    hide EndsLeap, DaysBeforeYear;
    var c, q, r := yoe / 100, yoe % 100 / 4, yoe % 4;
    CenturyParts(yoe);
    if doy == 365 { LeapPlace(yoe); }
    EraQuotients(c, q, r, doy);
    var late := if 24 * c + q + 365 * r + doy >= 1460 then 1 else 0;
    DivisionIs(365 * yoe + doy - late, 365, yoe, doy - late);
  }

  /** Every day of an era belongs to one year of it. */
  lemma YearOfEraExists(doe: int) returns (yoe: int, doy: int)
    requires 0 <= doe < 146_097
    ensures 0 <= yoe < 400 && 0 <= doy <= 365 && (doy == 365 ==> EndsLeap(yoe)) && doe == DaysBeforeYear(yoe) + doy
  {
    var c := if doe == 146_096 then 3 else doe / 36_524;
    var left := doe - 36_524 * c;
    var q := left / 1461;
    var rest := left - 1461 * q;
    var r := if rest == 1460 then 3 else rest / 365;
    yoe := 100 * c + 4 * q + r;
    doy := rest - 365 * r;
    assert yoe / 100 == c && yoe / 4 == 25 * c + q;
  }

  /** The first day of month `mp` of a March year. */
  function MonthStart(mp: int): int { (153 * mp + 2) / 5 }

  function MonthOf(mp: int): int { if mp < 10 then mp + 3 else mp - 9 }

  lemma MonthOfDay(mp: int, day: int, y: int)
    requires 0 <= mp <= 11 && 1 <= day <= MonthLength(if MonthOf(mp) <= 2 then y + 1 else y, MonthOf(mp))
    ensures var doy := MonthStart(mp) + day - 1; 0 <= doy <= 365 && (doy == 365 ==> EndsLeap(y)) && (5 * doy + 2) / 153 == mp
  {
    var doy := MonthStart(mp) + day - 1;
    if mp == 0 {} else if mp == 1 {} else if mp == 2 {} else if mp == 3 {} else if mp == 4 {} else if mp == 5 {}
    else if mp == 6 {} else if mp == 7 {} else if mp == 8 {} else if mp == 9 {} else if mp == 10 {} else {}
  }

  lemma DayHasMonth(doy: int, y: int)
    requires 0 <= doy <= 365 && (doy == 365 ==> EndsLeap(y))
    ensures var mp := (5 * doy + 2) / 153;
            0 <= mp <= 11 && 1 <= doy - MonthStart(mp) + 1 <= MonthLength(if MonthOf(mp) <= 2 then y + 1 else y, MonthOf(mp))
  {
    var mp := (5 * doy + 2) / 153;
    if mp == 0 {} else if mp == 1 {} else if mp == 2 {} else if mp == 3 {} else if mp == 4 {} else if mp == 5 {}
    else if mp == 6 {} else if mp == 7 {} else if mp == 8 {} else if mp == 9 {} else if mp == 10 {} else {}
  }

  /** A date as its era, year of the era and day of the March year. */
  function Split(d: Date): (int, int, int) {
    var y := if d.month <= 2 then d.year - 1 else d.year;
    (y / 400, y % 400, MonthStart((d.month + 9) % 12) + d.day - 1)
  }

  lemma DaysOfSplit(d: Date)
    requires ValidDate(d)
    ensures var (era, yoe, doy) := Split(d);
            && 0 <= yoe < 400 && 0 <= doy <= 365 && (doy == 365 ==> EndsLeap(yoe))
            && DaysOf(d) == era * 146_097 + DaysBeforeYear(yoe) + doy - 719_468
  {
    hide EndsLeap, DaysOf, DaysBeforeYear, MonthStart, IsLeap;
    var y := if d.month <= 2 then d.year - 1 else d.year;
    var mp := (d.month + 9) % 12;
    assert MonthOf(mp) == d.month;
    MonthOfDay(mp, d.day, y);
    DaysByYears(d);
    LeapRepeats(y);
  }

  lemma LeapRepeats(y: int)
    ensures EndsLeap(y) == EndsLeap(y % 400)
  {
    var era := y / 400;
    assert y == 400 * era + y % 400;
    DivisionIs(y + 1, 4, 100 * era + (y % 400 + 1) / 4, (y % 400 + 1) % 4);
    DivisionIs(y + 1, 100, 4 * era + (y % 400 + 1) / 100, (y % 400 + 1) % 100);
    DivisionIs(y + 1, 400, era + (y % 400 + 1) / 400, (y % 400 + 1) % 400);
  }

  /** The date of a day given by its era, year of the era and day of the year. */
  lemma UnboundedDateIs(era: int, yoe: int, doy: int)
    requires 0 <= yoe < 400 && 0 <= doy <= 365 && (doy == 365 ==> EndsLeap(yoe))
    ensures var mp := (5 * doy + 2) / 153;
            UnboundedDate(era * 146_097 + DaysBeforeYear(yoe) + doy - 719_468)
            == Date(yoe + era * 400 + (if MonthOf(mp) <= 2 then 1 else 0), MonthOf(mp), doy - MonthStart(mp) + 1)
  {
    hide EndsLeap, YearOfEra, TruncDiv;
    var doe := DaysBeforeYear(yoe) + doy;
    YearOfEraIs(yoe, doy);
    EraOfDay(era, doe);
    TruncFloor(era * 146_097 + doe, 146_097);
    TruncFloor(yoe, 4);
    TruncFloor(yoe, 100);
    TruncFloor(5 * doy + 2, 153);
    TruncFloor(153 * ((5 * doy + 2) / 153) + 2, 5);
  }

  lemma DateOfSplit(era: int, yoe: int, doy: int)
    requires 0 <= yoe < 400 && 0 <= doy <= 365 && (doy == 365 ==> EndsLeap(yoe))
    ensures var d := UnboundedDate(era * 146_097 + DaysBeforeYear(yoe) + doy - 719_468);
            ValidDate(d) && Split(d) == (era, yoe, doy)
  {
    hide EndsLeap, DaysBeforeYear, UnboundedDate, MonthLength, MonthStart;
    UnboundedDateIs(era, yoe, doy);
    var y := yoe + era * 400;
    DivisionIs(y, 400, era, yoe);
    LeapRepeats(y);
    DayHasMonth(doy, y);
  }

  // ----- the bijection -----------------------------------------------------------------------------------

  lemma SplitIsInjective(a: Date, b: Date)
    requires ValidDate(a) && ValidDate(b) && Split(a) == Split(b)
    ensures a == b
  {
    hide MonthStart, IsLeap;
    var ya, yb := (if a.month <= 2 then a.year - 1 else a.year), (if b.month <= 2 then b.year - 1 else b.year);
    assert ya == yb by { SameParts(ya, yb); }
    var ma, mb := (a.month + 9) % 12, (b.month + 9) % 12;
    assert MonthOf(ma) == a.month && MonthOf(mb) == b.month;
    MonthOfDay(ma, a.day, ya);
    MonthOfDay(mb, b.day, yb);
  }

  lemma SameParts(a: int, b: int)
    requires a / 400 == b / 400 && a % 400 == b % 400
    ensures a == b
  {
    assert a == 400 * (a / 400) + a % 400 && b == 400 * (b / 400) + b % 400;
  }

  /** Every valid date is found again, in every era. */
  lemma DateRoundTrip(d: Date)
    requires ValidDate(d)
    ensures UnboundedDate(DaysOf(d)) == d
    ensures I32_MIN <= d.year <= I32_MAX ==> CivilFromDays(DaysOf(d)) == d
  {
    hide UnboundedDate, Split, ValidDate, DaysOf;
    DaysOfSplit(d);
    var (era, yoe, doy) := Split(d);
    DateOfSplit(era, yoe, doy);
    SplitIsInjective(UnboundedDate(DaysOf(d)), d);
  }

  /** Every day has a valid date, and only one. */
  lemma DayRoundTrip(days: int)
    ensures ValidDate(UnboundedDate(days)) && DaysOf(UnboundedDate(days)) == days
  {
    var z := days + 719_468;
    var era, doe := z / 146_097, z % 146_097;
    var yoe, doy := YearOfEraExists(doe);
    DateOfSplit(era, yoe, doy);
    DaysOfSplit(UnboundedDate(days));
  }

  /** Days before March year `y`, over all eras. */
  function Years(y: int): int { (y / 400) * 146_097 + DaysBeforeYear(y % 400) }

  lemma YearsIncrease(a: int, b: int)
    requires a < b
    ensures Years(a) < Years(b)
  {
    var ea, eb := a / 400, b / 400;
    assert a == 400 * ea + a % 400 && b == 400 * eb + b % 400;
    if ea < eb { assert (eb - ea) * 146_097 >= 146_097; }
  }

  /** Casting the year loses nothing exactly when the year fits 32 bits. */
  lemma CastRoundTrip(days: int)
    ensures DaysOf(CivilFromDays(days)) == days <==> I32_MIN <= UnboundedDate(days).year <= I32_MAX
  {
    var d, cast := UnboundedDate(days), CivilFromDays(days);
    DayRoundTrip(days);
    DaysByYears(d);
    DaysByYears(cast);
    var y, w := (if d.month <= 2 then d.year - 1 else d.year), (if d.month <= 2 then cast.year - 1 else cast.year);
    if y < w { YearsIncrease(y, w); }
    if w < y { YearsIncrease(w, y); }
  }

  lemma DaysByYears(d: Date)
    requires 1 <= d.month <= 12
    ensures DaysOf(d) == Years(if d.month <= 2 then d.year - 1 else d.year) + MonthStart((d.month + 9) % 12) + d.day - 1 - 719_468
  {
    TruncFloor(if d.month <= 2 then d.year - 1 else d.year, 400);
  }

  // ----- consecutive days ----------------------------------------------------------------------------------

  lemma YearLength(y: int)
    ensures Years(y + 1) == Years(y) + if EndsLeap(y) then 366 else 365
  {
    hide EndsLeap;
    var era, yoe := y / 400, y % 400;
    LeapRepeats(y);
    YearOfEraLength(yoe);
    if yoe == 399 {
      DivisionIs(y + 1, 400, era + 1, 0);
    } else {
      DivisionIs(y + 1, 400, era, yoe + 1);
    }
  }

  lemma YearOfEraLength(yoe: int)
    requires 0 <= yoe < 400
    ensures var length := if EndsLeap(yoe) then 366 else 365;
            DaysBeforeYear(yoe) + length == if yoe == 399 then 146_097 else DaysBeforeYear(yoe + 1)
  {
  }

  /** Past the end of a month of a March year comes the next month. */
  lemma MonthEnds(mp: int, y: int)
    requires 0 <= mp < 11
    ensures MonthStart(mp) + MonthLength(if MonthOf(mp) <= 2 then y + 1 else y, MonthOf(mp)) == MonthStart(mp + 1)
  {
    if mp == 0 {} else if mp == 1 {} else if mp == 2 {} else if mp == 3 {} else if mp == 4 {} else if mp == 5 {}
    else if mp == 6 {} else if mp == 7 {} else if mp == 8 {} else if mp == 9 {} else {}
  }

  /** March follows the last day of February. */
  lemma FebruaryEnds(y: int)
    ensures MonthStart(11) + MonthLength(y + 1, 2) == (if EndsLeap(y) then 366 else 365) && MonthStart(0) == 0
  {
  }

  /** The calendar's next date is the next day. */
  lemma NextDateIsNextDay(d: Date)
    requires ValidDate(d)
    ensures ValidDate(NextDate(d)) && DaysOf(NextDate(d)) == DaysOf(d) + 1
  {
    hide DaysOf, Years, IsLeap, MonthStart, EndsLeap;
    DaysByYears(d);
    DaysByYears(NextDate(d));
    if d.day == MonthLength(d.year, d.month) {
      if d.month == 2 {
        YearLength(d.year - 1);
        FebruaryEnds(d.year - 1);
      } else {
        var mp := (d.month + 9) % 12;
        assert MonthOf(mp) == d.month && (NextDate(d).month + 9) % 12 == mp + 1;
        MonthEnds(mp, if d.month == 1 then d.year - 1 else d.year);
      }
    }
  }

  lemma Epoch()
    ensures UnboundedDate(0) == Date(1970, 1, 1)
  {
    hide UnboundedDate;
    var first := Date(1970, 1, 1);
    assert DaysOf(first) == 0;
    DateRoundTrip(first);
  }

  /** Consecutive days are consecutive dates, from 1970-01-01 in both
      directions. */
  lemma ConsecutiveDays(days: int)
    ensures UnboundedDate(days + 1) == NextDate(UnboundedDate(days)) && UnboundedDate(0) == Date(1970, 1, 1)
  {
    hide UnboundedDate, NextDate, DaysOf, ValidDate, WrapI32;
    DayRoundTrip(days);
    NextDateIsNextDay(UnboundedDate(days));
    DateRoundTrip(NextDate(UnboundedDate(days)));
    Epoch();
  }

  // ----- the day of the year ---------------------------------------------------------------------------------

  function DaysBeforeMonth(year: int, month: int): int
    decreases month
  {
    if month <= 1 then 0 else DaysBeforeMonth(year, month - 1) + MonthLength(year, month - 1)
  }

  /** The day of the year counts the months before it by the calendar. */
  lemma {:induction false} DayOfYearCounts(d: Date)
    requires ValidDate(d)
    ensures DayOfYear(d) == DaysBeforeMonth(d.year, d.month) + d.day && 1 <= DayOfYear(d) <= 366
    decreases d.month, d.day
  {
    hide DaysOf, IsLeap, DaysFromCivil;
    FirstOfJanuary(d.year);
    if d.day > 1 {
      var before := d.(day := d.day - 1);
      DayOfYearCounts(before);
      NextDateIsNextDay(before);
    } else if d.month > 1 {
      var before := Date(d.year, d.month - 1, MonthLength(d.year, d.month - 1));
      DayOfYearCounts(before);
      NextDateIsNextDay(before);
    }
    DaysBeforeMonthBound(d.year, d.month);
  }

  lemma FirstOfJanuary(year: int)
    ensures DaysOf(Date(year, 1, 1)) == DaysFromCivil(year, 1, 1)
  {
  }

  lemma DaysBeforeMonthBound(year: int, month: int)
    requires 1 <= month <= 12
    ensures 0 <= DaysBeforeMonth(year, month) && DaysBeforeMonth(year, month) + MonthLength(year, month) <= 366
  {
    var feb := MonthLength(year, 2);
    assert DaysBeforeMonth(year, 2) == 31;
    assert DaysBeforeMonth(year, 3) == 31 + feb;
    assert DaysBeforeMonth(year, 4) == 62 + feb;
    assert DaysBeforeMonth(year, 5) == 92 + feb;
    assert DaysBeforeMonth(year, 6) == 123 + feb;
    assert DaysBeforeMonth(year, 7) == 153 + feb;
    assert DaysBeforeMonth(year, 8) == 184 + feb;
    assert DaysBeforeMonth(year, 9) == 215 + feb;
    assert DaysBeforeMonth(year, 10) == 245 + feb;
    assert DaysBeforeMonth(year, 11) == 276 + feb;
    assert DaysBeforeMonth(year, 12) == 306 + feb;
  }
}
