/** time.Time as the reading of a wall clock together with its zone offset.
    Only the parts that this repository stores, compares or serializes. */
module Timestamps {

  /** offset is the zone's distance from UTC in seconds, east positive. */
  datatype Clock = Clock(
    year: int, month: nat, day: nat, hour: nat, minute: nat, second: nat, nanos: nat, offset: int)

  predicate IsLeap(year: int) {
    year % 4 == 0 && (year % 100 != 0 || year % 400 == 0)
  }

  function DaysIn(month: nat, year: int): nat
    requires 1 <= month <= 12
  {
    if month == 2 then (if IsLeap(year) then 29 else 28)
    else if month in {4, 6, 9, 11} then 30
    else 31
  }

  predicate ValidTime(t: Clock) {
    && 1 <= t.month <= 12
    && 1 <= t.day <= DaysIn(t.month, t.year)
    && t.hour < 24 && t.minute < 60 && t.second < 60 && t.nanos < 1_000_000_000
  }

  type Time = t: Clock | ValidTime(t) witness Clock(1, 1, 1, 0, 0, 0, 0, 0)

  /** Days from 0001-01-01 to the first day of the given month. */
  function DaysBeforeMonth(year: int, month: nat): int
    requires 1 <= month <= 12
    decreases month
  {
    if month == 1 then
      var y := year - 1;
      365 * y + y / 4 - y / 100 + y / 400
    else
      DaysBeforeMonth(year, month - 1) + DaysIn(month - 1, year)
  }

  /** Nanoseconds since 0001-01-01T00:00:00Z: the point in time that t names,
      whatever zone it is written in. */
  function Instant(t: Time): int {
    var days := DaysBeforeMonth(t.year, t.month) + t.day - 1;
    (((days * 24 + t.hour) * 60 + t.minute) * 60 + t.second - t.offset) * 1_000_000_000 + t.nanos
  }

  /** Time.IsZero. */
  predicate IsZero(t: Time) { Instant(t) == 0 }

  // ---------------------------------------------------------------------
  // The calendar

  lemma February(year: int)
    ensures DaysIn(2, year) == if year % 400 == 0 || (year % 4 == 0 && year % 100 != 0) then 29 else 28
  {
  }

  lemma OtherMonths(month: nat, year: int)
    requires 1 <= month <= 12 && month != 2
    ensures DaysIn(month, year) == [31, 0, 31, 30, 31, 30, 31, 31, 30, 31, 30, 31][month - 1]
  {
  }

  /** The length of a year, by the count of leap days. */
  lemma NewYear(year: int)
    ensures DaysBeforeMonth(year + 1, 1) == DaysBeforeMonth(year, 1) + 337 + DaysIn(2, year)
  {
    LeapDays(year);
    LeapYears(year);
    YearStart(year);
    YearStart(year + 1);
  }

  lemma YearStart(year: int)
    ensures DaysBeforeMonth(year, 1) == 365 * (year - 1) + (year - 1) / 4 - (year - 1) / 100 + (year - 1) / 400
  {
  }

  lemma LeapYears(year: int)
    ensures DaysIn(2, year) == 28 + (if year % 4 == 0 then 1 else 0)
      - (if year % 100 == 0 then 1 else 0) + (if year % 400 == 0 then 1 else 0)
  {
    Multiples(year);
  }

  lemma Multiples(year: int)
    ensures year % 400 == 0 ==> year % 100 == 0
    ensures year % 100 == 0 ==> year % 4 == 0
  {
  }

  lemma LeapDays(year: int)
    ensures year / 4 - (year - 1) / 4 == if year % 4 == 0 then 1 else 0
    ensures year / 100 - (year - 1) / 100 == if year % 100 == 0 then 1 else 0
    ensures year / 400 - (year - 1) / 400 == if year % 400 == 0 then 1 else 0
  {
  }

  lemma ToMay(year: int)
    ensures DaysBeforeMonth(year, 5) == DaysBeforeMonth(year, 1) + 92 + DaysIn(2, year)
  {
    OtherMonths(1, year);
    OtherMonths(3, year);
    OtherMonths(4, year);
    assert DaysBeforeMonth(year, 3) == DaysBeforeMonth(year, 1) + 31 + DaysIn(2, year);
  }

  lemma ToSeptember(year: int)
    ensures DaysBeforeMonth(year, 9) == DaysBeforeMonth(year, 5) + 123
  {
    assert DaysBeforeMonth(year, 7) == DaysBeforeMonth(year, 5) + 61;
  }

  lemma ToDecember(year: int)
    ensures DaysBeforeMonth(year, 12) == DaysBeforeMonth(year, 9) + 91
  {
    assert DaysBeforeMonth(year, 11) == DaysBeforeMonth(year, 9) + 61;
  }

  lemma YearEnds(year: int)
    ensures DaysBeforeMonth(year, 12) + 31 == DaysBeforeMonth(year + 1, 1)
  {
    ToMay(year);
    ToSeptember(year);
    ToDecember(year);
    NewYear(year);
  }

  /** Each month begins on the day after the last day of the month before it. */
  lemma MonthFollows(year: int, month: nat)
    requires 1 <= month <= 12
    ensures DaysBeforeMonth(year, month) + DaysIn(month, year)
         == if month < 12 then DaysBeforeMonth(year, month + 1) else DaysBeforeMonth(year + 1, 1)
  {
    if month == 12 { YearEnds(year); }
  }

  lemma {:induction false} MonthsAscend(year: int, month: nat, later: int, laterMonth: nat)
    requires 1 <= month <= 12 && 1 <= laterMonth <= 12
    requires year < later || (year == later && month < laterMonth)
    ensures DaysBeforeMonth(year, month) + DaysIn(month, year) <= DaysBeforeMonth(later, laterMonth)
    decreases (later - year) * 12 + laterMonth - month
  {
    MonthFollows(year, month);
    var next, nextMonth := if month < 12 then year else year + 1, if month < 12 then month + 1 else 1;
    if next != later || nextMonth != laterMonth {
      MonthsAscend(next, nextMonth, later, laterMonth);
    }
  }

  /** One reading of the clock comes before another: the first field in which they
      differ, from the year down, is the smaller. */
  predicate ReadsBefore(a: Clock, b: Clock) {
    a.year < b.year || (a.year == b.year &&
    (a.month < b.month || (a.month == b.month &&
    (a.day < b.day || (a.day == b.day &&
    (a.hour < b.hour || (a.hour == b.hour &&
    (a.minute < b.minute || (a.minute == b.minute &&
    (a.second < b.second || (a.second == b.second && a.nanos < b.nanos)))))))))))
  }

  function DayNumber(t: Time): int { DaysBeforeMonth(t.year, t.month) + t.day }

  lemma DaysAscend(a: Time, b: Time)
    requires a.year < b.year || (a.year == b.year && (a.month < b.month || (a.month == b.month && a.day < b.day)))
    ensures DayNumber(a) < DayNumber(b)
  {
    if a.year != b.year || a.month != b.month { MonthsAscend(a.year, a.month, b.year, b.month); }
  }

  lemma EarlierReading(a: Time, b: Time)
    requires a.offset == b.offset && ReadsBefore(a, b)
    ensures Instant(a) < Instant(b)
  {
    if a.year != b.year || a.month != b.month || a.day != b.day { DaysAscend(a, b); }
  }

  /** In one zone, instants are ordered as the readings of the clock are. */
  lemma InstantsFollowTheClock(a: Time, b: Time)
    requires a.offset == b.offset
    ensures Instant(a) < Instant(b) <==> ReadsBefore(a, b)
    ensures Instant(a) == Instant(b) <==> a == b
  {
    if ReadsBefore(a, b) { EarlierReading(a, b); }
    else if a != b { EarlierReading(b, a); }
  }

  /** The same reading further east is an earlier instant, by the difference of the
      offsets; and the scale is that of the calendar. */
  lemma InstantsAreScaled(t: Time)
    ensures Instant(t) == Instant(t.(offset := 0)) - t.offset * 1_000_000_000
    ensures t == Clock(1, 1, 1, 0, 0, 0, 0, 0) ==> Instant(t) == 0
    ensures t == Clock(1970, 1, 1, 0, 0, 0, 0, 0) ==> Instant(t) == 62_135_596_800_000_000_000
  {
  }
}
