/** The firmware's global state and its three interrupt handlers: the
    once-a-second RTC tick, the button press and the serial receive, with
    the calendar carry chain and `execute_command` that they call. */
module RetirementClock {
  import opened Common
  import opened Calendar
  import opened Retirement
  import opened Views
  import opened Protocol

  class Clock {
    // Time keeping
    var year: u16
    var month: u8
    var day: u8
    var hour: u8
    var minute: u8
    var second: u8
    // Birthday
    var birthYear: u16
    var birthMonth: u8
    var birthDay: u8
    /** Seconds since power-on. */
    var runtime: u32
    /** 0 clock, 1 retirement date, 2 runtime. */
    var lcdMode: u8
    /** Write position in the command line, and the bytes stored before it. */
    var pos: u8
    var command: string
    /** The backlight and buzzer output pins. */
    var backlight: bool
    var buzzer: bool

    predicate Valid()
      reads this
    {
      pos as int == |command| && |command| <= MaxCommandLen
    }

    function Now(): DateTime
      reads this
    {
      DateTime(year, month, day, hour, minute, second)
    }

    function Birth(): Birthday
      reads this
    {
      Birthday(birthYear, birthMonth, birthDay)
    }

    /** What a serial command can read or change. */
    function Current(): Settings
      reads this
    {
      Settings(Now(), Birth(), backlight)
    }

    /** The initial values of the globals and `main`'s set-up: backlight on, buzzer off. */
    constructor ()
      ensures Valid() && command == []
      ensures Now() == DateTime(2020, 12, 31, 23, 59, 55) && Calendar.Valid(Now())
      ensures Birth() == Birthday(1965, 12, 31)
      ensures runtime == 0 && lcdMode == ClockMode
      ensures backlight && !buzzer
    {
      year, month, day, hour, minute, second := 2020, 12, 31, 23, 59, 55;
      birthYear, birthMonth, birthDay := 1965, 12, 31;
      runtime := 0;
      lcdMode := 0;
      pos := 0;
      command := [];
      backlight := true;
      buzzer := false;
    }

    // ----- The carry chain -----

    method IncrementYear()
      modifies this`year
      ensures Now() == CarryYear(old(Now()))
    {
      year := (year + 1) % 0x1_0000;
    }

    method IncrementMonth()
      modifies this`month, this`year
      ensures Now() == CarryMonth(old(Now()))
    {
      if month == 12 {
        month := 1;
        IncrementYear();
      } else {
        month := (month + 1) % 0x100;
      }
    }

    method IncrementDay()
      requires 1 <= month <= 12
      modifies this`day, this`month, this`year
      ensures Now() == CarryDay(old(Now()))
    {
      if day as int >= DaysInMonth[month - 1] {
        if month == 2 && day == 28 && (year % 400 == 0 || year % 100 != 0) && year % 4 == 0 {
          day := day + 1;
        } else {
          day := 1;
          IncrementMonth();
        }
      } else {
        day := day + 1;
      }
    }

    method IncrementHour()
      requires hour == 23 ==> 1 <= month <= 12
      modifies this`hour, this`day, this`month, this`year
      ensures Now() == CarryHour(old(Now()))
    {
      if hour == 23 {
        hour := 0;
        IncrementDay();
      } else {
        hour := (hour + 1) % 0x100;
      }
    }

    method IncrementMinute()
      requires hour == 23 && minute == 59 ==> 1 <= month <= 12
      modifies this`minute, this`hour, this`day, this`month, this`year
      ensures Now() == CarryMinute(old(Now()))
    {
      if minute == 59 {
        minute := 0;
        IncrementHour();
      } else {
        minute := (minute + 1) % 0x100;
      }
    }

    /** `increment_time`: on a valid date the clock moves exactly one second on. */
    method IncrementTime()
      requires CanAdvance(Now())
      modifies this`second, this`minute, this`hour, this`day, this`month, this`year
      ensures Now() == Next(old(Now()))
      ensures Calendar.Valid(old(Now())) ==> Calendar.Valid(Now())
      ensures Calendar.Valid(old(Now())) && old(year) < 0xFFFF ==> Ordinal(Now()) == Ordinal(old(Now())) + 1
    {
      if Calendar.Valid(Now()) {
        NextPreservesValid(Now());
        if year < 0xFFFF {
          NextIsSuccessor(Now());
        }
      }
      if second == 59 {
        second := 0;
        IncrementMinute();
      } else {
        second := (second + 1) % 0x100;
      }
    }

    // ----- Interrupt handlers -----

    /** `retire`: the message, and the buzzer on. */
    method Retire() returns (ops: seq<LcdOp>)
      modifies this`buzzer
      ensures buzzer && ops == RetireScreen
    {
      buzzer := true;
      ops := RetireScreen;
    }

    /** The RTC interrupt: count the second, advance the clock, then either
        sound the alarm or switch the buzzer off and draw the current view. */
    method Tick() returns (ops: seq<LcdOp>)
      requires CanAdvance(Now())
      modifies this`runtime, this`second, this`minute, this`hour, this`day, this`month, this`year, this`buzzer
      ensures runtime == (old(runtime) + 1) % 0x1_0000_0000
      ensures Now() == Next(old(Now()))
      ensures Calendar.Valid(old(Now())) ==> Calendar.Valid(Now())
      ensures Calendar.Valid(old(Now())) && old(year) < 0xFFFF ==> Ordinal(Now()) == Ordinal(old(Now())) + 1
      ensures buzzer == IsRetired(Now(), Birth())
      ensures ops == if buzzer then RetireScreen else View(lcdMode, Now(), Birth(), runtime)
    {
      runtime := (runtime + 1) % 0x1_0000_0000;
      IncrementTime();
      var target := (birthYear + RetirementAge) % 0x1_0000;
      if year >= target {
        if year > target {
          ops := Retire();
          return;
        } else if month >= birthMonth {
          if day >= birthDay {
            ops := Retire();
            return;
          }
        }
      }
      ops := Display();
    }

    /** The end of the RTC interrupt when not retired: buzzer off, then the
        `switch (lcd_mode)`. */
    method Display() returns (ops: seq<LcdOp>)
      modifies this`buzzer
      ensures !buzzer && ops == View(lcdMode, Now(), Birth(), runtime)
    {
      buzzer := false;
      if lcdMode == 0 {
        ops := ClockView(Now());
      } else if lcdMode == 1 {
        ops := CountdownView(Birth());
      } else if lcdMode == 2 {
        ops := RuntimeView(runtime);
      } else {
        ops := [];
      }
    }

    /** The button interrupt: the next of the three views. */
    method PressButton()
      modifies this`lcdMode
      ensures lcdMode == NextMode(old(lcdMode))
    {
      lcdMode := (lcdMode + 1) % 3;
    }

    /** `execute_command`: the `SET` branches store word 2, 3, … into the
        fields one word at a time, counting words in an 8-bit counter. */
    method ExecuteCommand(cmd: string) returns (reply: string)
      requires ArgumentsScan(cmd)
      modifies this`year, this`month, this`day, this`hour, this`minute, this`second
      modifies this`birthYear, this`birthMonth, this`birthDay, this`backlight
      ensures Current() == Execute(old(Current()), cmd).settings
      ensures reply == Execute(old(Current()), cmd).reply
    {
      if IsSetDateTime(cmd) {
        var d := SetDateTimeLoop(Tokens(cmd), Now());
        year, month, day, hour, minute, second := d.year, d.month, d.day, d.hour, d.minute, d.second;
        reply := "";
      } else if cmd == "GET DATETIME" {
        reply := DateTimeReply(Now());
      } else if IsSetBirthday(cmd) {
        var b := SetBirthdayLoop(Tokens(cmd), Birth());
        birthYear, birthMonth, birthDay := b.year, b.month, b.day;
        reply := "";
      } else if cmd == "GET BIRTHDAY" {
        reply := BirthdayReply(Birth());
      } else if cmd == "TGL BACKLIGHT" {
        backlight := !backlight;
        reply := BacklightReply;
      } else {
        reply := IncorrectReply;
      }
    }

    /** The serial receive interrupt: store the byte, drop the line when the
        33rd byte arrives, and run the line on '\r'. */
    method ReceiveByte(c: char) returns (reply: string)
      requires Valid()
      requires c == '\r' ==> ArgumentsScan(CString(command))
      modifies this`pos, this`command
      modifies this`year, this`month, this`day, this`hour, this`minute, this`second
      modifies this`birthYear, this`birthMonth, this`birthDay, this`backlight
      ensures Valid()
      ensures command == Feed(old(command), c).line
      ensures c == '\n' ==> command == old(command) && pos == old(pos)
      ensures c == '\r' ==> pos == 0 && command == []
      ensures c != '\r' ==> Current() == old(Current()) && reply == ""
      ensures c == '\r' ==> && Current() == Execute(old(Current()), CString(old(command))).settings
                            && reply == Execute(old(Current()), CString(old(command))).reply
    {
      reply := "";
      if c != '\n' && c != '\r' {
        command := command + [c];
        pos := pos + 1;
        if pos as int > MaxCommandLen {
          pos := 0;
          command := [];
        }
      }
      if c == '\r' {
        var line := CString(command);
        pos := 0;
        command := [];
        reply := ExecuteCommand(line);
      }
    }
  }
}
