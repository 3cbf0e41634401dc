/** The clock's calendar: six time fields advanced one second per tick by a
    carry chain (`increment_time` … `increment_year`), the month table, the
    Gregorian leap-year rule, and an independent count of seconds used to
    show that one step is exactly one second later. */
module Calendar {
  import opened Common

  datatype DateTime = DateTime(year: u16, month: u8, day: u8, hour: u8, minute: u8, second: u8)

  /** `days_in_month`: February is listed with 28 days; leap days are handled in `CarryDay`. */
  const DaysInMonth: seq<int> := [31, 28, 31, 30, 31, 30, 31, 31, 30, 31, 30, 31]

  predicate IsLeapYear(y: int) {
    y % 4 == 0 && (y % 100 != 0 || y % 400 == 0)
  }

  /** Length of month `m` of year `y` in the proleptic Gregorian calendar,
      written without the firmware's table. */
  function MonthLength(m: int, y: int): (n: int)
    requires 1 <= m <= 12
    ensures 28 <= n <= 31
  {
    if m == 2 then (if IsLeapYear(y) then 29 else 28)
    else if m == 4 || m == 6 || m == 9 || m == 11 then 30
    else 31
  }

  /** A structurally valid date and time. */
  predicate Valid(d: DateTime) {
    && 1 <= d.month <= 12
    && 1 <= d.day <= MonthLength(d.month, d.year)
    && d.hour < 24 && d.minute < 60 && d.second < 60
  }

  /** The carry reaches `increment_day`, the only step that reads the
      month table, exactly at 23:59:59. */
  predicate CanAdvance(d: DateTime) {
    d.hour == 23 && d.minute == 59 && d.second == 59 ==> 1 <= d.month <= 12
  }

  /** `increment_year`: the 16-bit counter wraps after 65535. */
  function CarryYear(d: DateTime): DateTime {
    d.(year := (d.year + 1) % 0x1_0000)
  }

  /** `increment_month` */
  function CarryMonth(d: DateTime): DateTime {
    if d.month == 12 then CarryYear(d.(month := 1)) else d.(month := (d.month + 1) % 0x100)
  }

  /** `increment_day`: the table entry decides the last day of the month,
      except that 28 February of a leap year moves on to the 29th. */
  function CarryDay(d: DateTime): DateTime
    requires 1 <= d.month <= 12
  {
    if d.day >= DaysInMonth[d.month - 1] then
      if d.month == 2 && d.day == 28 && IsLeapYear(d.year) then d.(day := d.day + 1)
      else CarryMonth(d.(day := 1))
    else d.(day := d.day + 1)
  }

  /** `increment_hour` */
  function CarryHour(d: DateTime): DateTime
    requires d.hour == 23 ==> 1 <= d.month <= 12
  {
    if d.hour == 23 then CarryDay(d.(hour := 0)) else d.(hour := (d.hour + 1) % 0x100)
  }

  /** `increment_minute` */
  function CarryMinute(d: DateTime): DateTime
    requires d.hour == 23 && d.minute == 59 ==> 1 <= d.month <= 12
  {
    if d.minute == 59 then CarryHour(d.(minute := 0)) else d.(minute := (d.minute + 1) % 0x100)
  }

  /** `increment_time`: the state one tick later. */
  function Next(d: DateTime): DateTime
    requires CanAdvance(d)
  {
    if d.second == 59 then CarryMinute(d.(second := 0)) else d.(second := (d.second + 1) % 0x100)
  }

  // ----- An independent clock: seconds elapsed since 1.1.0000 00:00:00 -----

  function YearLength(y: int): int {
    if IsLeapYear(y) then 366 else 365
  }

  function DaysBeforeYear(y: nat): nat {
    if y == 0 then 0 else DaysBeforeYear(y - 1) + YearLength(y - 1)
  }

  /** Days of year `y` that lie before the first of month `m` (`m == 13` gives the whole year). */
  function DaysBeforeMonth(m: int, y: int): nat
    requires 1 <= m <= 13
  {
    if m == 1 then 0 else DaysBeforeMonth(m - 1, y) + MonthLength(m - 1, y)
  }

  function DayNumber(d: DateTime): nat
    requires Valid(d)
  {
    DaysBeforeYear(d.year) + DaysBeforeMonth(d.month, d.year) + d.day - 1
  }

  function Ordinal(d: DateTime): nat
    requires Valid(d)
  {
    ((DayNumber(d) * 24 + d.hour) * 60 + d.minute) * 60 + d.second
  }

  // ----- Properties -----

  /** The twelve months make up the year. */
  lemma {:induction false} MonthsFillYear(y: int)
    ensures DaysBeforeMonth(13, y) == YearLength(y)
  {
    assert DaysBeforeMonth(2, y) == 31;
    assert DaysBeforeMonth(3, y) == 31 + MonthLength(2, y);
    assert DaysBeforeMonth(4, y) == 62 + MonthLength(2, y);
    assert DaysBeforeMonth(5, y) == 92 + MonthLength(2, y);
    assert DaysBeforeMonth(6, y) == 123 + MonthLength(2, y);
    assert DaysBeforeMonth(7, y) == 153 + MonthLength(2, y);
    assert DaysBeforeMonth(8, y) == 184 + MonthLength(2, y);
    assert DaysBeforeMonth(9, y) == 215 + MonthLength(2, y);
    assert DaysBeforeMonth(10, y) == 245 + MonthLength(2, y);
    assert DaysBeforeMonth(11, y) == 276 + MonthLength(2, y);
    assert DaysBeforeMonth(12, y) == 306 + MonthLength(2, y);
  }

  /** The firmware's table agrees with `MonthLength` except in February of a leap year. */
  lemma TableAgrees(m: int, y: int)
    requires 1 <= m <= 12
    ensures DaysInMonth[m - 1] == if m == 2 then 28 else MonthLength(m, y)
  {
  }

  /** One day step on a valid date gives the following valid date. */
  lemma DayStep(d: DateTime)
    requires Valid(d) && d.year < 0xFFFF
    ensures Valid(CarryDay(d)) && DayNumber(CarryDay(d)) == DayNumber(d) + 1
  {
    TableAgrees(d.month, d.year);
    if d.day < MonthLength(d.month, d.year) {
      assert CarryDay(d) == d.(day := d.day + 1);
    } else if d.month < 12 {
      MonthEnd(d);
    } else {
      YearEnd(d);
    }
  }

  /** The last day of January … November is followed by the first of the next month. */
  lemma MonthEnd(d: DateTime)
    requires Valid(d) && d.month < 12 && d.day == MonthLength(d.month, d.year)
    ensures CarryDay(d) == d.(day := 1, month := d.month + 1)
    ensures Valid(CarryDay(d)) && DayNumber(CarryDay(d)) == DayNumber(d) + 1
  {
    TableAgrees(d.month, d.year);
    assert (d.month + 1) % 0x100 == d.month + 1;
    assert DaysBeforeMonth(d.month + 1, d.year) == DaysBeforeMonth(d.month, d.year) + MonthLength(d.month, d.year);
  }

  /** 31 December is followed by 1 January of the next year. */
  lemma YearEnd(d: DateTime)
    requires Valid(d) && d.month == 12 && d.day == 31 && d.year < 0xFFFF
    ensures CarryDay(d) == d.(day := 1, month := 1, year := d.year + 1)
    ensures Valid(CarryDay(d)) && DayNumber(CarryDay(d)) == DayNumber(d) + 1
  {
    assert (d.year + 1) % 0x1_0000 == d.year + 1;
    MonthsFillYear(d.year);
    assert DaysBeforeYear(d.year + 1) == DaysBeforeYear(d.year) + YearLength(d.year);
  }

  /** A tick on a valid date below year 65535 yields a valid date exactly one second later. */
  lemma NextIsSuccessor(d: DateTime)
    requires Valid(d) && d.year < 0xFFFF
    ensures Valid(Next(d)) && Ordinal(Next(d)) == Ordinal(d) + 1
  {
    if d.second < 59 {
      assert Next(d) == d.(second := d.second + 1);
    } else if d.minute < 59 {
      assert Next(d) == d.(second := 0, minute := d.minute + 1);
    } else if d.hour < 23 {
      assert Next(d) == d.(second := 0, minute := 0, hour := d.hour + 1);
    } else {
      var midnight := d.(hour := 0, minute := 0, second := 0);
      assert Next(d) == CarryDay(midnight);
      DayStep(midnight);
      assert DayNumber(midnight) == DayNumber(d);
    }
  }

  /** Validity is kept on every tick, including the wrap of year 65535 to 0. */
  lemma NextPreservesValid(d: DateTime)
    requires Valid(d)
    ensures Valid(Next(d))
  {
    if d.year < 0xFFFF {
      NextIsSuccessor(d);
    } else {
      TableAgrees(d.month, d.year);
    }
  }

  /** Below 59 seconds a tick touches only the seconds. */
  lemma TickWithinMinute(d: DateTime)
    requires d.second < 59
    ensures Next(d) == d.(second := d.second + 1)
  {
  }

  /** 23:59:59 on 31.12.Y becomes 00:00:00 on 1.1.(Y+1), modulo the 16-bit year. */
  lemma NewYear(y: u16)
    ensures Next(DateTime(y, 12, 31, 23, 59, 59)) == DateTime((y + 1) % 0x1_0000, 1, 1, 0, 0, 0)
  {
  }

  /** The three leap-day cases of `increment_day`. */
  lemma LeapDay(y: u16)
    ensures IsLeapYear(y) ==> Next(DateTime(y, 2, 28, 23, 59, 59)) == DateTime(y, 2, 29, 0, 0, 0)
    ensures !IsLeapYear(y) ==> Next(DateTime(y, 2, 28, 23, 59, 59)) == DateTime(y, 3, 1, 0, 0, 0)
    ensures Next(DateTime(y, 2, 29, 23, 59, 59)) == DateTime(y, 3, 1, 0, 0, 0)
  {
  }
}
