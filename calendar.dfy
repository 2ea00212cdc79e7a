/** The proleptic Gregorian calendar over day numbers (day 0 is Thursday,
    1 January 1970) and the ISO 8601 week number that `getISOWeek` follows
    (week dates, section 4.1.4 of ISO 8601:2004: weeks run Monday to Sunday
    and week 1 is the week holding 4 January). Days are unbounded, and the
    year is taken as it is, also for the years 0 to 99. */
module Calendar {

  const MsPerDay: int := 86400000

  /** The day a millisecond timestamp falls on, rounding down also before
      1970 (the model reads local time as UTC). */
  function DayNumber(t: int): (day: int)
    ensures MsPerDay * day <= t < MsPerDay * day + MsPerDay
  {
    t / MsPerDay
  }

  predicate IsLeapYear(y: int) {
    y % 4 == 0 && (y % 100 != 0 || y % 400 == 0)
  }

  /** Leap years up to and including year `y`, counted from a fixed origin. */
  function LeapYearsThrough(y: int): int {
    y / 4 - y / 100 + y / 400
  }

  /** Day number of 1 January of year `y`. */
  function YearStart(y: int): int {
    365 * (y - 1970) + LeapYearsThrough(y - 1) - LeapYearsThrough(1969)
  }

  /** Stepping from `y - 1` to `y` adds one to `y / 4` exactly at multiples of 4. */
  lemma Div4Step(y: int)
    ensures y / 4 - (y - 1) / 4 == (if y % 4 == 0 then 1 else 0)
  {
    var q := y / 4;
    if y % 4 == 0 {
      assert 4 * (q - 1) <= y - 1 < 4 * q;
    } else {
      assert 4 * q <= y - 1 < 4 * q + 4;
    }
  }

  lemma Div100Step(y: int)
    ensures y / 100 - (y - 1) / 100 == (if y % 100 == 0 then 1 else 0)
  {
    var q := y / 100;
    if y % 100 == 0 {
      assert 100 * (q - 1) <= y - 1 < 100 * q;
    } else {
      assert 100 * q <= y - 1 < 100 * q + 100;
    }
  }

  lemma Div400Step(y: int)
    ensures y / 400 - (y - 1) / 400 == (if y % 400 == 0 then 1 else 0)
  {
    var q := y / 400;
    if y % 400 == 0 {
      assert 400 * (q - 1) <= y - 1 < 400 * q;
    } else {
      assert 400 * q <= y - 1 < 400 * q + 400;
    }
  }

  /** Multiples of 400 are multiples of 100. */
  lemma MultipleOf400(y: int)
    requires y % 400 == 0
    ensures y % 100 == 0
  {
    var k := 4 * (y / 400);
    assert y == 100 * k;
  }

  /** Multiples of 100 are multiples of 4. */
  lemma MultipleOf100(y: int)
    requires y % 100 == 0
    ensures y % 4 == 0
  {
    var k := 25 * (y / 100);
    assert y == 4 * k;
  }

  /** Year `y` adds one to the leap-year count exactly when it is a leap year. */
  lemma LeapStep(y: int)
    ensures LeapYearsThrough(y) - LeapYearsThrough(y - 1) == if IsLeapYear(y) then 1 else 0
  {
    Div4Step(y);
    Div100Step(y);
    Div400Step(y);
    if y % 400 == 0 {
      MultipleOf400(y);
    }
    if y % 100 == 0 {
      MultipleOf100(y);
    }
  }

  /** A year has 366 days when it is a leap year and 365 otherwise. */
  lemma YearLength(y: int)
    ensures YearStart(y + 1) - YearStart(y) == if IsLeapYear(y) then 366 else 365
  {
    LeapStep(y);
    assert YearStart(y + 1) - YearStart(y) == 365 + LeapYearsThrough(y) - LeapYearsThrough(y - 1);
  }

  lemma {:induction false} YearStartMonotone(a: int, b: int)
    requires a <= b
    ensures YearStart(a) + 365 * (b - a) <= YearStart(b)
    decreases b - a
  {
    if a < b {
      YearLength(a);
      YearStartMonotone(a + 1, b);
    }
  }

  function YearFrom(day: int, y: int): (r: int)
    requires YearStart(y) <= day
    ensures YearStart(r) <= day < YearStart(r + 1)
    decreases day - YearStart(y)
  {
    YearLength(y);
    if day < YearStart(y + 1) then y else YearFrom(day, y + 1)
  }

  function YearBefore(day: int, y: int): (r: int)
    requires day < YearStart(y + 1)
    ensures YearStart(r) <= day < YearStart(r + 1)
    decreases YearStart(y + 1) - day
  {
    YearLength(y);
    if YearStart(y) <= day then y else YearBefore(day, y - 1)
  }

  /** `getFullYear`: the calendar year a day falls in. */
  function YearOf(day: int): (y: int)
    ensures YearStart(y) <= day < YearStart(y + 1)
  {
    if day >= 0 then YearFrom(day, 1970) else YearBefore(day, 1969)
  }

  /** Year spans do not overlap: one day lies in at most one of them. */
  lemma YearSpansDisjoint(day: int, r: int, y: int)
    requires YearStart(r) <= day < YearStart(r + 1)
    requires YearStart(y) <= day < YearStart(y + 1)
    ensures r == y
  {
    if r < y {
      YearStartMonotone(r + 1, y);
    } else if r > y {
      YearStartMonotone(y + 1, r);
    }
  }

  /** The year of a day is the only year whose span holds it. */
  lemma YearOfUnique(day: int, y: int)
    requires YearStart(y) <= day < YearStart(y + 1)
    ensures YearOf(day) == y
  {
    YearSpansDisjoint(day, YearOf(day), y);
  }

  /** `getDay`: 0 for Sunday through 6 for Saturday. */
  function WeekDay(day: int): int {
    (day + 4) % 7
  }

  /** `Math.round(n / 7)`: the nearest integer, halves rounded up. */
  function RoundedWeeks(n: int): int {
    (2 * n + 7) / 14
  }

  /** The week count of `getISOWeek`'s last line, from the Thursday it moved
      to and the day `week1` (4 January of that Thursday's year). */
  function WeeksFrom(thursday: int, week1: int): int {
    1 + RoundedWeeks(thursday - week1 - 3 + (WeekDay(week1) + 6) % 7)
  }

  /** The first step of `getISOWeek`: the Thursday of the Monday-to-Sunday
      week holding `day`. */
  function ThursdayOfWeek(day: int): int {
    day + 3 - (WeekDay(day) + 6) % 7
  }

  /** `getISOWeek`: move to the Thursday of the Monday-based week, then count
      weeks from the week holding 4 January of that Thursday's year. */
  function IsoWeek(day: int): int {
    WeeksFrom(ThursdayOfWeek(day), YearStart(YearOf(ThursdayOfWeek(day))) + 3)
  }

  /** The Thursday `getISOWeek` moves to is a multiple of seven days from day 0. */
  lemma ThursdayOf(day: int)
    ensures ThursdayOfWeek(day) == 7 * ((day + 3) / 7)
  {
  }

  /** Counting weeks between the Thursday `7 * a` and the first Thursday of
      the year that starts on day `start`. */
  lemma WeeksBetween(a: int, start: int, next: int)
    requires start <= 7 * a < next <= start + 366
    ensures 1 <= WeeksFrom(7 * a, start + 3) <= 53
    ensures WeeksFrom(7 * a, start + 3) == 1 + a - (start + 6) / 7
  {
    var b := (start + 6) / 7;
    assert (WeekDay(start + 3) + 6) % 7 == (start + 6) % 7;
    assert 7 * a - (start + 3) - 3 + (start + 6) % 7 == 7 * (a - b);
    assert start <= 7 * b <= start + 6;
    assert RoundedWeeks(7 * (a - b)) == a - b;
  }

  /** `getISOWeek` counts from the Thursday `7 * ((day + 3) / 7)` and the
      year that Thursday falls in. */
  lemma IsoWeekIn(day: int, y: int)
    requires YearStart(y) <= 7 * ((day + 3) / 7) < YearStart(y + 1)
    ensures IsoWeek(day) == WeeksFrom(7 * ((day + 3) / 7), YearStart(y) + 3)
  {
    ThursdayOf(day);
    YearOfUnique(7 * ((day + 3) / 7), y);
  }

  /** The week count of a Thursday `7 * a` within its own year `y`. */
  lemma WeeksInYear(a: int, y: int)
    requires YearStart(y) <= 7 * a < YearStart(y + 1)
    ensures 1 <= WeeksFrom(7 * a, YearStart(y) + 3) <= 53
    ensures WeeksFrom(7 * a, YearStart(y) + 3) == 1 + a - (YearStart(y) + 6) / 7
  {
    YearLength(y);
    WeeksBetween(a, YearStart(y), YearStart(y + 1));
  }

  /** Week numbers run from 1 to 53, and the rounding never changes the count. */
  lemma IsoWeekInRange(day: int)
    ensures 1 <= IsoWeek(day) <= 53
  {
    var a := (day + 3) / 7;
    var y := YearOf(7 * a);
    IsoWeekIn(day, y);
    WeeksInYear(a, y);
  }

  lemma SevenMultipleBelow(x: int)
    ensures x - 6 <= 7 * (x / 7) <= x
  {
  }

  /** The first Thursday of a year, `7 * ((start + 6) / 7)`, lies in that year. */
  lemma FirstThursday(y: int)
    ensures YearStart(y) <= 7 * ((YearStart(y) + 6) / 7) < YearStart(y + 1)
  {
    SevenMultipleBelow(YearStart(y) + 6);
    YearLength(y);
  }

  /** 4 January always lies in week 1. */
  lemma Jan4InWeekOne(y: int)
    ensures IsoWeek(YearStart(y) + 3) == 1
  {
    FirstThursday(y);
    IsoWeekIn(YearStart(y) + 3, y);
    WeeksInYear((YearStart(y) + 6) / 7, y);
  }

  /** Days of one Monday-to-Sunday week share their week number. */
  lemma SameWeekSameNumber(a: int, b: int)
    requires (a + 3) / 7 == (b + 3) / 7
    ensures IsoWeek(a) == IsoWeek(b)
  {
    ThursdayOf(a);
    ThursdayOf(b);
  }
}
