/** The retirement check made on every tick: the nested comparison of the
    current date with the stored birthday plus the retirement age. */
module Retirement {
  import opened Common
  import opened Calendar

  const RetirementAge := 65

  datatype Birthday = Birthday(year: u16, month: u8, day: u8)

  /** `birth_year + RETIREMENT_AGE`: `unsigned int` arithmetic, 16 bits wide on AVR. */
  function RetirementYear(b: Birthday): u16 {
    (b.year + RetirementAge) % 0x1_0000
  }

  /** The date the countdown view shows: birth day and month in the retirement year. */
  function RetirementDay(b: Birthday): DateTime {
    DateTime(RetirementYear(b), b.month, b.day, 0, 0, 0)
  }

  /** The alarm condition, nested as in the tick handler: the day is compared
      only when the year is the retirement year and the month is not earlier. */
  function IsRetired(now: DateTime, b: Birthday): (r: bool)
    ensures r <==> now.year > RetirementYear(b)
                   || (now.year == RetirementYear(b) && now.month >= b.month && now.day >= b.day)
  {
    var target := RetirementYear(b);
    if now.year >= target then
      if now.year > target then true
      else if now.month >= b.month then now.day >= b.day
      else false
    else false
  }

  /** (year, month, day) of `now` is on or after the given date in calendar order. */
  predicate OnOrAfter(now: DateTime, y: int, m: int, d: int) {
    now.year > y || (now.year == y && (now.month > m || (now.month == m && now.day >= d)))
  }

  /** The alarm never sounds before the date shown in the countdown view, and
      it does sound on that date when the date exists (see `LeapBirthday`). */
  lemma RetiredNotBeforeRetirementDay(now: DateTime, b: Birthday)
    ensures IsRetired(now, b) ==> OnOrAfter(now, RetirementYear(b), b.month, b.day)
    ensures IsRetired(RetirementDay(b).(hour := now.hour, minute := now.minute, second := now.second), b)
  {
  }

  /** In the retirement year, a later month with an earlier day than the
      birth day is not retired. */
  lemma LaterMonthEarlierDay(now: DateTime, b: Birthday)
    requires now.year == RetirementYear(b) && now.month > b.month && now.day < b.day
    ensures !IsRetired(now, b) && OnOrAfter(now, RetirementYear(b), b.month, b.day)
  {
  }

  /** A 29 February birthday: the retirement year, 65 years on, is never a leap
      year, so the countdown date does not exist. The clock goes from 28.2
      straight to 1.3, and the alarm first sounds on 29 March. */
  lemma LeapBirthday(b: Birthday, now: DateTime)
    requires b.month == 2 && b.day == 29 && IsLeapYear(b.year)
    ensures !IsLeapYear(RetirementYear(b)) && !Valid(RetirementDay(b))
    ensures Next(DateTime(RetirementYear(b), 2, 28, 23, 59, 59)) == DateTime(RetirementYear(b), 3, 1, 0, 0, 0)
    ensures Valid(now) && IsRetired(now, b) ==> OnOrAfter(now, RetirementYear(b), 3, 29)
    ensures IsRetired(DateTime(RetirementYear(b), 3, 29, 0, 0, 0), b)
  {
    var y := RetirementYear(b);
    assert y == b.year + RetirementAge || y == b.year + RetirementAge - 0x1_0000;
    assert y % 4 == 1;
    LeapDay(RetirementYear(b));
  }

  /** The condition does not latch: with birthday 15.6 it holds on 15.6 of the
      retirement year and fails again on 1.7, a valid date that the clock
      reaches later. */
  lemma {:induction false} RetirementNotLatched(birthYear: u16)
    requires birthYear + RetirementAge < 0xFFFF
    ensures var b := Birthday(birthYear, 6, 15);
            var first := DateTime(birthYear + RetirementAge, 6, 15, 0, 0, 0);
            var later := DateTime(birthYear + RetirementAge, 7, 1, 0, 0, 0);
            && Valid(first) && Valid(later)
            && IsRetired(first, b) && !IsRetired(later, b)
            && Ordinal(first) < Ordinal(later)
  {
    var y := birthYear + RetirementAge;
    assert DaysBeforeMonth(7, y) == DaysBeforeMonth(6, y) + 30;
  }

  /** The four dates checked against birthday 31.12.1965. */
  lemma RetirementExamples()
    ensures !IsRetired(DateTime(2030, 12, 30, 0, 0, 0), Birthday(1965, 12, 31))
    ensures IsRetired(DateTime(2030, 12, 31, 0, 0, 0), Birthday(1965, 12, 31))
    ensures IsRetired(DateTime(2031, 1, 1, 0, 0, 0), Birthday(1965, 12, 31))
    ensures !IsRetired(DateTime(2030, 11, 31, 0, 0, 0), Birthday(1965, 12, 31))
  {
  }
}
