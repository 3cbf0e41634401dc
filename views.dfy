/** The LCD views rendered on a tick, the retirement message, and the
    display-mode cycle driven by the button. LCD driver calls are recorded
    as a sequence of operations. */
module Views {
  import opened Common
  import opened Calendar
  import opened Retirement
  import opened Format

  /** One call into the LCD driver: `lcd_clrscr`, `lcd_gotoxy` or `lcd_puts`. */
  datatype LcdOp = Clear | GotoXY(col: int, row: int) | Puts(text: string)

  /** The text the operations write, in order. */
  function Written(ops: seq<LcdOp>): string {
    if ops == [] then ""
    else (if ops[0].Puts? then ops[0].text else "") + Written(ops[1..])
  }

  lemma {:induction false} WrittenAppend(a: seq<LcdOp>, b: seq<LcdOp>)
    ensures Written(a + b) == Written(a) + Written(b)
    decreases |a|
  {
    if a != [] {
      var head := if a[0].Puts? then a[0].text else "";
      assert (a + b)[0] == a[0];
      assert (a + b)[1..] == a[1..] + b;
      WrittenAppend(a[1..], b);
      calc {
        Written(a + b);
        head + Written(a[1..] + b);
        head + (Written(a[1..]) + Written(b));
        (head + Written(a[1..])) + Written(b);
        Written(a) + Written(b);
      }
    } else {
      assert a + b == b;
    }
  }

  // ----- Display mode controller -----

  const ClockMode := 0
  const CountdownMode := 1
  const RuntimeMode := 2

  /** The button handler: `lcd_mode = (lcd_mode + 1) % 3`. */
  function NextMode(m: u8): (r: u8)
    ensures r < 3
    ensures m < 3 ==> r != m
  {
    (m + 1) % 3
  }

  /** Three presses bring every mode back to itself. */
  lemma ModeCycle(m: u8)
    requires m < 3
    ensures NextMode(NextMode(NextMode(m))) == m
    ensures m == ClockMode ==> NextMode(m) == CountdownMode && NextMode(NextMode(m)) == RuntimeMode
  {
  }

  // ----- Clock view -----

  /** `padding`: the string "0" put before a one-digit field. */
  function PadIfSingle(n: int): seq<LcdOp> {
    if n < 10 then [Puts("0")] else []
  }

  function DateText(d: DateTime): string {
    FormatInt(d.day) + "." + FormatInt(d.month) + "." + FormatInt(AsInt16(d.year))
  }

  /** One padded field of the top line, followed by its separator. */
  function Field(n: int, separator: string): seq<LcdOp> {
    PadIfSingle(n) + [Puts(FormatInt(n) + separator)]
  }

  /** The top line: hour, minute and second, each padded to two digits when below 10. */
  function TopLine(d: DateTime): seq<LcdOp> {
    Field(d.hour, ":") + Field(d.minute, ":") + Field(d.second, "\n")
  }

  /** `display_clock`: the padded time, then the unpadded date. */
  function ClockView(d: DateTime): seq<LcdOp> {
    [Clear] + TopLine(d) + [Puts(DateText(d))]
  }

  lemma OneDigit(n: int)
    requires 0 <= n < 10
    ensures "0" + FormatInt(n) == TwoDigits(n)
  {
  }

  lemma TwoDigitNumber(n: int)
    requires 10 <= n < 100
    ensures FormatInt(n) == TwoDigits(n)
  {
    assert Digits(n) == Digits(n / 10) + [DigitChar(n % 10)];
  }

  lemma {:induction false} PaddedField(n: int, separator: string)
    requires 0 <= n < 100
    ensures Written(Field(n, separator)) == TwoDigits(n) + separator
  {
    var pad := PadIfSingle(n);
    var text := FormatInt(n) + separator;
    WrittenAppend(pad, [Puts(text)]);
    assert Written([Puts(text)]) == text;
    if n >= 10 {
      assert Written(pad) == "";
      TwoDigitNumber(n);
    } else {
      assert Written(pad) == "0";
      OneDigit(n);
    }
  }

  lemma {:induction false} TopLineText(d: DateTime)
    requires d.hour < 100 && d.minute < 100 && d.second < 100
    ensures Written(TopLine(d))
            == (TwoDigits(d.hour) + ":") + (TwoDigits(d.minute) + ":") + (TwoDigits(d.second) + "\n")
  {
    var h, m, s := Field(d.hour, ":"), Field(d.minute, ":"), Field(d.second, "\n");
    WrittenAppend(h + m, s);
    WrittenAppend(h, m);
    PaddedField(d.hour, ":");
    PaddedField(d.minute, ":");
    PaddedField(d.second, "\n");
  }

  /** The clock's top line is "HH:MM:SS" with two digits per field, followed by the unpadded date. */
  lemma {:induction false} ClockViewText(d: DateTime)
    requires d.hour < 100 && d.minute < 100 && d.second < 100
    ensures ClockView(d)[0] == Clear
    ensures Written(ClockView(d))
            == (TwoDigits(d.hour) + ":") + (TwoDigits(d.minute) + ":") + (TwoDigits(d.second) + "\n") + DateText(d)
  {
    var top := TopLine(d);
    var date := [Puts(DateText(d))];
    WrittenAppend([Clear] + top, date);
    WrittenAppend([Clear], top);
    assert Written([Clear]) == "";
    assert Written(date) == DateText(d);
    TopLineText(d);
  }

  // ----- Countdown view -----

  /** `display_countdown`: the birth day and month in the retirement year. */
  function CountdownView(b: Birthday): seq<LcdOp> {
    [Clear,
     Puts(FormatInt(b.day) + "." + FormatInt(b.month) + "." + FormatInt(AsInt16(b.year + RetirementAge))),
     Puts("\nRetirement date")]
  }

  /** The countdown view shows the first date on which the alarm sounds, when that
      date exists (a 29 February birthday is the exception, see `LeapBirthday`). */
  lemma CountdownShowsRetirementDay(b: Birthday)
    ensures Written(CountdownView(b)) == DateText(RetirementDay(b)) + "\nRetirement date"
    ensures IsRetired(RetirementDay(b), b)
    ensures forall now: DateTime :: IsRetired(now, b) ==> OnOrAfter(now, RetirementYear(b), b.month, b.day)
  {
    forall now: DateTime {
      RetiredNotBeforeRetirementDay(now, b);
    }
    var v := CountdownView(b);
    assert Written(v[2..]) == "\nRetirement date";
    assert Written(v[1..]) == v[1].text + Written(v[2..]);
    assert AsInt16(b.year + RetirementAge) == AsInt16(RetirementYear(b));
  }

  // ----- Runtime view -----

  datatype Duration = Duration(days: nat, hours: nat, minutes: nat, seconds: nat)

  /** The split `display_runtime` makes with 86400, 3600 and 60. */
  function RuntimeParts(t: nat): (p: Duration)
    ensures p.hours < 24 && p.minutes < 60 && p.seconds < 60
    ensures p.days * 86400 + p.hours * 3600 + p.minutes * 60 + p.seconds == t
  {
    var inDay := t % 86400;
    Duration(t / 86400, inDay / 3600, inDay % 3600 / 60, inDay % 3600 % 60)
  }

  /** No other split into days, hours, minutes and seconds gives the same total. */
  lemma RuntimePartsUnique(t: nat, p: Duration)
    requires p.hours < 24 && p.minutes < 60 && p.seconds < 60
    requires p.days * 86400 + p.hours * 3600 + p.minutes * 60 + p.seconds == t
    ensures p == RuntimeParts(t)
  {
    var q := RuntimeParts(t);
    var r := p.hours * 3600 + p.minutes * 60 + p.seconds;
    assert 0 <= r < 86400;
    assert p.days == t / 86400;
    assert p.hours == r / 3600;
  }

  /** `display_runtime` */
  function RuntimeView(runtime: u32): seq<LcdOp> {
    var p := RuntimeParts(runtime);
    [Clear,
     Puts(FormatInt(p.days) + ":"),
     Puts(FormatInt(p.hours) + ":"),
     Puts(FormatInt(p.minutes) + ":"),
     Puts(FormatInt(p.seconds)),
     Puts("\nSystem runtime")]
  }

  /** "D:H:M:S" */
  function DurationText(p: Duration): string {
    (FormatInt(p.days) + ":") + (FormatInt(p.hours) + ":") + (FormatInt(p.minutes) + ":") + FormatInt(p.seconds)
  }

  lemma RuntimeViewText(runtime: u32)
    ensures RuntimeView(runtime)[0] == Clear
    ensures Written(RuntimeView(runtime)) == DurationText(RuntimeParts(runtime)) + "\nSystem runtime"
  {
    var q := RuntimeParts(runtime);
    WrittenFive(RuntimeView(runtime), FormatInt(q.days) + ":", FormatInt(q.hours) + ":",
                FormatInt(q.minutes) + ":", FormatInt(q.seconds), "\nSystem runtime");
  }

  /** The text of a cleared screen followed by five writes. */
  lemma WrittenFive(v: seq<LcdOp>, a: string, b: string, c: string, d: string, e: string)
    requires v == [Clear, Puts(a), Puts(b), Puts(c), Puts(d), Puts(e)]
    ensures Written(v) == a + b + c + d + e
  {
    assert Written(v[5..]) == e;
    assert Written(v[4..]) == d + Written(v[5..]);
    assert Written(v[3..]) == c + Written(v[4..]);
    assert Written(v[2..]) == b + Written(v[3..]);
    assert Written(v[1..]) == a + Written(v[2..]);
  }

  /** 90061 seconds are one day, one hour, one minute and one second: the
      runtime view shows "1:1:1:1". */
  lemma RuntimeExample()
    ensures DurationText(RuntimeParts(90061)) == "1:1:1:1"
  {
    assert RuntimeParts(90061) == Duration(1, 1, 1, 1);
    assert FormatInt(1) == "1";
  }

  // ----- Tick output -----

  /** `retire`: the two-line message. */
  const RetireScreen: seq<LcdOp> :=
    [Clear, GotoXY(4, 0), Puts("Go home,"), GotoXY(3, 1), Puts("old timer!")]

  /** The `switch (lcd_mode)` of the tick handler; an out-of-range mode draws nothing. */
  function View(mode: u8, now: DateTime, b: Birthday, runtime: u32): seq<LcdOp> {
    if mode == ClockMode then ClockView(now)
    else if mode == CountdownMode then CountdownView(b)
    else if mode == RuntimeMode then RuntimeView(runtime)
    else []
  }
}
