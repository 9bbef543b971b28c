/**
 * Calendar arithmetic of the weekly generator. A point in time is an integer
 * number of minutes since 1970-01-01T00:00Z; a calendar date is an integer
 * number of days since that epoch. Both may be negative.
 */
module Dates {

  const MinutesPerDay: int := 1440
  const DaysPerWeek: int := 7

  /** The UTC date of a point in time (division rounds down, also before the epoch). */
  function DayOf(t: int): int {
    t / MinutesPerDay
  }

  /** The UTC weekday of a date: 0 is Sunday, 1 Monday, ..., 6 Saturday (1970-01-01 was a Thursday). */
  function Weekday(day: int): (w: int)
    ensures 0 <= w < 7
  {
    (day + 4) % 7
  }

  /** Midnight UTC at the start of a date. */
  function Midnight(day: int): int {
    day * MinutesPerDay
  }

  predicate IsMonday(day: int) {
    Weekday(day) == 1
  }

  /**
   * Midnight of the Monday of the week that holds `t`: on a Sunday go back six
   * days, otherwise go back `weekday - 1` days, then drop the time of day.
   */
  function StartOfWeekMonday(t: int): (r: int)
    ensures r % MinutesPerDay == 0 && IsMonday(r / MinutesPerDay)
    ensures r <= t < r + DaysPerWeek * MinutesPerDay
  {
    var d := DayOf(t);
    var day := Weekday(d);
    var diffToMonday := (if day == 0 then -6 else 1) - day;
    assert (d + diffToMonday + 4) % 7 == 1;
    Midnight(d + diffToMonday)
  }

  /** Shift a point in time by whole days (UTC has no daylight-saving jumps). */
  function AddDays(t: int, days: int): (r: int)
    ensures DayOf(r) == DayOf(t) + days
    ensures r % MinutesPerDay == t % MinutesPerDay
  {
    t + days * MinutesPerDay
  }

  /** The Monday computed above is the only Monday midnight in the seven days up to `t`. */
  lemma MondayIsUnique(t: int, m: int)
    requires m % MinutesPerDay == 0 && IsMonday(m / MinutesPerDay)
    requires m <= t < m + DaysPerWeek * MinutesPerDay
    ensures m == StartOfWeekMonday(t)
  {
    var r := StartOfWeekMonday(t);
    var a, b := m / MinutesPerDay, r / MinutesPerDay;
    assert m == a * MinutesPerDay && r == b * MinutesPerDay;
    assert -7 < a - b < 7;
    assert (a + 4) % 7 == (b + 4) % 7;
  }

  /** Taking the Monday twice changes nothing. */
  lemma StartOfWeekIdempotent(t: int)
    ensures StartOfWeekMonday(StartOfWeekMonday(t)) == StartOfWeekMonday(t)
  {
    var r := StartOfWeekMonday(t);
    MondayIsUnique(r, r);
  }

  /** Moving a date by a whole week keeps its weekday. */
  lemma WeekdayAfterWeek(day: int, weeks: int)
    ensures Weekday(day + DaysPerWeek * weeks) == Weekday(day)
  {
  }
}
