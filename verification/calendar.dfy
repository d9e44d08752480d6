/** Civil dates and instants as the handlers' `Date` arithmetic uses them. Days are
    counted from 1970-01-01 (day 0, a Thursday) in the Gregorian calendar; an instant is
    milliseconds on the server's local timeline, taken to have no daylight-saving jumps,
    so every day is exactly 86 400 000 ms long. Months are numbered from 0 as `getMonth()`
    numbers them. */
module Calendar {

  const DayMs: int := 86_400_000

  predicate IsLeap(y: int) {
    (y % 4 == 0 && y % 100 != 0) || y % 400 == 0
  }

  function YearLength(y: int): (n: int)
    ensures n == 365 || n == 366
  {
    if IsLeap(y) then 366 else 365
  }

  function DaysInMonth(y: int, m: int): (n: int)
    requires 0 <= m < 12
    ensures 28 <= n <= 31
    ensures m == 1 ==> (n == 29 <==> IsLeap(y))
  {
    if m == 1 then (if IsLeap(y) then 29 else 28)
    else if m == 3 || m == 5 || m == 8 || m == 10 then 30
    else 31
  }

  /** Days in the months before month m of year y. */
  function MonthStart(y: int, m: int): (n: int)
    requires 0 <= m <= 12
    ensures 0 <= n
  {
    if m == 0 then 0 else MonthStart(y, m - 1) + DaysInMonth(y, m - 1)
  }

  /** The twelve months make up the year. */
  lemma MonthsFillYear(y: int)
    ensures MonthStart(y, 12) == YearLength(y)
  {
    assert MonthStart(y, 1) == 31;
    assert MonthStart(y, 2) == 31 + DaysInMonth(y, 1);
    assert MonthStart(y, 3) == MonthStart(y, 2) + 31;
    assert MonthStart(y, 4) == MonthStart(y, 2) + 61;
    assert MonthStart(y, 5) == MonthStart(y, 2) + 92;
    assert MonthStart(y, 6) == MonthStart(y, 2) + 122;
    assert MonthStart(y, 7) == MonthStart(y, 2) + 153;
    assert MonthStart(y, 8) == MonthStart(y, 2) + 184;
    assert MonthStart(y, 9) == MonthStart(y, 2) + 214;
    assert MonthStart(y, 10) == MonthStart(y, 2) + 245;
    assert MonthStart(y, 11) == MonthStart(y, 2) + 275;
  }

  lemma {:induction false} MonthStartBelowYear(y: int, m: int)
    requires 0 <= m <= 12
    ensures MonthStart(y, m) <= MonthStart(y, 12)
    decreases 12 - m
  {
    if m < 12 {
      MonthStartBelowYear(y, m + 1);
    }
  }

  /** The day number of January 1 of year y. */
  function YearStart(y: int): int
    decreases if y >= 1970 then y - 1970 else 1970 - y
  {
    if y == 1970 then 0
    else if y > 1970 then YearStart(y - 1) + YearLength(y - 1)
    else YearStart(y + 1) - YearLength(y)
  }

  lemma NextYearStart(y: int)
    ensures YearStart(y + 1) == YearStart(y) + YearLength(y)
  {
  }

  /** ECMAScript's MakeDay: a month outside 0..11 carries into the year (by floor
      division), and a day outside the month simply counts on from day 1, as in
      `new Date(y, m, d)`. */
  function MakeDay(y: int, m: int, d: int): int {
    YearStart(y + m / 12) + MonthStart(y + m / 12, m % 12) + d - 1
  }

  /** "Day 0 of next month" is the last day of this month. */
  lemma LastDayOfMonth(y: int, m: int)
    requires 0 <= m < 12
    ensures MakeDay(y, m + 1, 0) == MakeDay(y, m, DaysInMonth(y, m))
  {
    var last := DaysInMonth(y, m);
    assert m / 12 == 0 && m % 12 == m;
    assert MakeDay(y, m, last) == YearStart(y) + MonthStart(y, m) + last - 1;
    if m == 11 {
      assert MakeDay(y, m + 1, 0) == YearStart(y + 1) + MonthStart(y + 1, 0) - 1;
      MonthsFillYear(y);
      NextYearStart(y);
    } else {
      assert (m + 1) / 12 == 0 && (m + 1) % 12 == m + 1;
      assert MakeDay(y, m + 1, 0) == YearStart(y) + MonthStart(y, m + 1) - 1;
    }
  }

  /** A valid date lies in its own year: between January 1 and the year's last day. */
  lemma DayOfYearBounds(y: int, m: int, d: int)
    requires 0 <= m < 12 && 1 <= d <= DaysInMonth(y, m)
    ensures 0 <= MakeDay(y, m, d) - MakeDay(y, 0, 1) < YearLength(y)
  {
    assert MakeDay(y, m, d) == YearStart(y) + MonthStart(y, m) + d - 1;
    assert MakeDay(y, 0, 1) == YearStart(y);
    assert MonthStart(y, m + 1) == MonthStart(y, m) + DaysInMonth(y, m);
    MonthStartBelowYear(y, m + 1);
    MonthsFillYear(y);
  }

  /** `getDay()` of a day number: 0 is Sunday; 1970-01-01 was a Thursday. */
  function Weekday(day: int): (w: int)
    ensures 0 <= w < 7
  {
    (day + 4) % 7
  }

  /** Stepping back by a day's weekday lands on a Sunday. */
  lemma BackToSunday(day: int)
    ensures Weekday(day - Weekday(day)) == 0
    ensures Weekday(day - Weekday(day) + 6) == 6
  {
    var q := (day + 4) / 7;
    assert day + 4 == 7 * q + Weekday(day);
    assert day - Weekday(day) + 4 == 7 * q;
  }

  /** An instant: a day number and the milliseconds into that day. */
  function MakeTime(day: int, ms: int): int {
    day * DayMs + ms
  }

  /** The day number of an instant. */
  function DayOf(t: int): int {
    t / DayMs
  }

  /** Milliseconds since the start of an instant's day. */
  function TimeOfDay(t: int): (ms: int)
    ensures 0 <= ms < DayMs
    ensures t == MakeTime(DayOf(t), ms)
  {
    t % DayMs
  }

  /** `setHours(h, mi, s, ms)`: the same day at that time. */
  function SetHours(t: int, h: int, mi: int, s: int, ms: int): (r: int)
    ensures 0 <= h < 24 && 0 <= mi < 60 && 0 <= s < 60 && 0 <= ms < 1000 ==>
      DayOf(r) == DayOf(t) && TimeOfDay(r) == ((h * 60 + mi) * 60 + s) * 1000 + ms
  {
    MakeTime(DayOf(t), ((h * 60 + mi) * 60 + s) * 1000 + ms)
  }

  /** `setDate(getDate() + k)`: k days later at the same time of day. */
  function AddDays(t: int, k: int): int {
    t + k * DayMs
  }

  /** `getDay()` of an instant. */
  function WeekdayOf(t: int): int {
    Weekday(DayOf(t))
  }

  /** `setHours(23, 59, 59, 999)` moves an instant to the last millisecond of its day. */
  lemma EndOfDay(day: int, ms: int)
    requires 0 <= ms < DayMs
    ensures DayOf(MakeTime(day, ms)) == day
    ensures SetHours(MakeTime(day, ms), 23, 59, 59, 999) == MakeTime(day + 1, 0) - 1
  {
  }
}
