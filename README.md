# Retirement clock — a Dafny model

The firmware in `RetirementClock.X/main.c` runs a retirement countdown clock on an
ATmega4809. Three interrupt handlers drive it:

- **The RTC tick, once a second.** It counts the seconds since power-on and advances
  the date and time by one second through the carry chain `increment_time` →
  `increment_minute` → `increment_hour` → `increment_day` → `increment_month` →
  `increment_year`. It then checks whether the owner has reached the age of 65.
  - If they have, it shows "Go home, old timer!" and switches the buzzer on.
  - Otherwise it switches the buzzer off and draws one of three LCD views:
    the clock, the retirement date or the runtime.
- **The button.** It cycles through the three views.
- **The serial receive.** It collects bytes into a command line. On `'\r'` it hands the
  line to `execute_command`, which understands:
  - `SET DATETIME d m y h mi s` and `SET BIRTHDAY d m y`;
  - `GET DATETIME` and `GET BIRTHDAY`;
  - `TGL BACKLIGHT`.

  Any other line is answered with `Incorrect command.`

The model has seven modules:

- `Common` — the 8-, 16- and 32-bit widths of the AVR target, where `int` is 16 bits.
- `Calendar` — the carry chain as pure functions (`Next`), the validity predicate, and
  an independent count of seconds (`Ordinal`) against which a tick is shown to be
  exactly one second.
- `Retirement` — the nested retirement comparison and its consequences.
- `Format` — `printf("%d")` and `sscanf("%d")` on decimal text.
- `Views` — the LCD views as sequences of driver calls (`LcdOp`), and the mode cycle.
- `Protocol` — line assembly, the space tokenizer, the word-counting `SET` loops and
  `execute_command` as a function on the settings a command can see.
- `RetirementClock` — class `Clock`, whose fields are the firmware's globals.
  - Its methods are the handlers and the carry-chain routines, each updating the
    fields in place.
  - Each method is proved against the pure functions above.

Integer widths are written out:
- `uint8_t` fields keep `% 0x100` of what is stored in them.
- The year keeps `% 0x1_0000`.
- The runtime wraps at 2^32.
- `birth_year + RETIREMENT_AGE` is 16-bit `unsigned int` arithmetic.
- `%d` of a 16-bit unsigned value prints its signed reading (`AsInt16`).

The `SET` loops count words in an 8-bit `count`. The model defines that counter by
repeated 8-bit increments (`Counter`, `Succ8`) and proves that it numbers the words
0, 1, 2, … below 256.

Three behaviours of the code are kept as written:
- **Retirement does not latch.** The day is compared only inside the
  "same year, month not earlier" branch. So, with birthday 15 June, the condition holds
  on 15 June of the retirement year and fails again on 1 July, a date the clock reaches
  later. `Retirement.RetirementNotLatched` proves this. `Retirement.LaterMonthEarlierDay`
  proves the asymmetric case that causes it.
- **A 29 February birthday retires on 29 March.** The retirement year, 65 years after a
  leap year, is never a leap year, so the date the countdown view shows does not exist.
  The clock goes from 28 February to 1 March, and the day test then fails until 29 March.
  `Retirement.LeapBirthday` proves this.
- **The command buffer is modelled as persistent.** In the source the buffer is a
  local array of the receive handler (line 138), so earlier bytes are not actually kept
  between interrupts. The model keeps the line in the field `command`, whose length is
  always `pos`.

## Model

| member | source | states |
|---|---|---|
| Common.AsInt16 | RetirementClock.X/main.c:501-502 | `%d` of a 16-bit value prints a number in [-32768, 32768) congruent to it mod 2^16, and the value itself below 32768 |
| Format.FormatInt | RetirementClock.X/main.c:296 | the defining function of `printf("%d")`: a minus sign for negatives, then the digits without leading zeros; its meaning is given by `Format.ScanFormat` |
| Format.ScanInt | RetirementClock.X/main.c:466-467 | the defining function of `sscanf(ptr, "%d", &num)`: leading white space, an optional sign and at least one digit, `None` where nothing converts; its meaning is given by `Format.ScanFormat`, `Format.ScanPadded` and `Format.ScanTwoDigits` |
| Calendar.TableAgrees | RetirementClock.X/main.c:74 | the `days_in_month` table gives the Gregorian month length for every month except February of a leap year |
| Calendar.Next | RetirementClock.X/main.c:350-361 | the defining function of `increment_time`: seconds roll over into `CarryMinute`; its meaning is given by `Calendar.NextIsSuccessor`, `Calendar.NextPreservesValid` and `Calendar.TickWithinMinute` |
| Calendar.CarryMinute | RetirementClock.X/main.c:363-374 | the defining function of `increment_minute`: 59 rolls over into `CarryHour`; characterised through `Calendar.NextIsSuccessor` |
| Calendar.CarryHour | RetirementClock.X/main.c:376-387 | the defining function of `increment_hour`: 23 rolls over into `CarryDay`; characterised through `Calendar.NextIsSuccessor` |
| Calendar.CarryDay | RetirementClock.X/main.c:389-411 | the defining function of `increment_day`, with the table test and the 28 February leap-year exception; its meaning is given by `Calendar.DayStep` and `Calendar.LeapDay` |
| Calendar.CarryMonth | RetirementClock.X/main.c:413-424 | the defining function of `increment_month`: December rolls over into `CarryYear`; characterised by `Calendar.MonthEnd` and `Calendar.YearEnd` |
| Calendar.CarryYear | RetirementClock.X/main.c:426-429 | the defining function of `increment_year`: the 16-bit year moves on by one; characterised by `Calendar.YearEnd` and `Calendar.NewYear` |
| Calendar.DayStep | RetirementClock.X/main.c:389-411 | on a valid date below year 65535, `increment_day` yields a valid date whose day number is exactly one more |
| Calendar.MonthEnd | RetirementClock.X/main.c:389-424 | the last day of January … November is followed by the first of the next month, one day later |
| Calendar.YearEnd | RetirementClock.X/main.c:389-429 | below year 65535, 31 December is followed by 1 January of the next year, one day later |
| Calendar.NextIsSuccessor | RetirementClock.X/main.c:350-429 | a tick on a valid date below year 65535 gives a valid date whose count of seconds since 1.1.0000 is exactly one more |
| Calendar.NextPreservesValid | RetirementClock.X/main.c:350-429 | month 1–12, day within the month's length, hour < 24, minute < 60 and second < 60 are kept by every tick, including the 16-bit year wrap |
| Calendar.TickWithinMinute | RetirementClock.X/main.c:350-361 | below 59 seconds a tick increments only the seconds and leaves the other five fields unchanged |
| Calendar.NewYear | RetirementClock.X/main.c:350-429 | 23:59:59 on 31.12.Y becomes 00:00:00 on 1.1.(Y+1), with the year modulo 2^16 |
| Calendar.LeapDay | RetirementClock.X/main.c:389-411 | 28 February goes to the 29th in a leap year and to 1 March otherwise; 29 February goes to 1 March |
| Retirement.IsRetired | RetirementClock.X/main.c:182-197 | retired iff year > birth year + 65 (16-bit), or the year is equal and month ≥ birth month and day ≥ birth day |
| Retirement.RetiredNotBeforeRetirementDay | RetirementClock.X/main.c:182-197 | the alarm never sounds before the birth day and month in the retirement year, and it sounds on that day when that date exists |
| Retirement.LaterMonthEarlierDay | RetirementClock.X/main.c:189-196 | in the retirement year, a later month with an earlier day than the birth day is not retired, although it is after the birthday |
| Retirement.LeapBirthday | RetirementClock.X/main.c:182-197 | for a 29 February birthday in a leap year, the retirement year is not a leap year, so the countdown date is not a valid date; 28.2 23:59:59 ticks to 1.3; every valid retired date is on or after 29 March of the retirement year, and 29 March is retired |
| Retirement.RetirementNotLatched | RetirementClock.X/main.c:182-197 | the condition can be true on a valid date and false on a later valid date |
| Retirement.RetirementExamples | RetirementClock.X/main.c:182-197 | with birthday 31.12.1965: 30.12.2030 and 31.11.2030 are not retired; 31.12.2030 and 1.1.2031 are |
| Format.ScanFormat | RetirementClock.X/main.c:467 | `sscanf("%d")` reads back exactly the number `printf("%d")` wrote, negative numbers included |
| Format.ScanPadded | RetirementClock.X/main.c:467 | a leading zero does not change the number `sscanf("%d")` reads |
| Format.ScanTwoDigits | RetirementClock.X/main.c:467 | a zero-padded two-digit field is read back as its number |
| Format.TwoDigitsValue | RetirementClock.X/main.c:270-293 | a two-digit field denotes the number it was made from |
| Views.NextMode | RetirementClock.X/main.c:167 | a button press leaves the view number in {0, 1, 2} and, from a valid view, always changes it |
| Views.ModeCycle | RetirementClock.X/main.c:167 | three presses bring every view back; from the clock the order is clock, retirement date, runtime |
| Views.PaddedField | RetirementClock.X/main.c:270-277 | an hour, minute or second below 100 appears as exactly two digits followed by its separator |
| Views.TopLineText | RetirementClock.X/main.c:268-293 | for fields below 100, the top line reads HH:MM:SS with two digits per field |
| Views.ClockViewText | RetirementClock.X/main.c:263-298 | for fields below 100, the clock view clears the screen, then writes HH:MM:SS, a newline and the unpadded date d.m.y |
| Views.ClockView | RetirementClock.X/main.c:263-298 | the defining function of `display_clock` as LCD calls; its text is given by `Views.ClockViewText` |
| Views.CountdownShowsRetirementDay | RetirementClock.X/main.c:301-311 | the countdown view shows the retirement day, which, when that date exists, is the first date on or after which the alarm can sound |
| Views.CountdownView | RetirementClock.X/main.c:301-311 | the defining function of `display_countdown`; its meaning is given by `Views.CountdownShowsRetirementDay` |
| Views.RuntimeParts | RetirementClock.X/main.c:319-340 | days·86400 + hours·3600 + minutes·60 + seconds equals the runtime, with hours < 24 and minutes, seconds < 60 |
| Views.RuntimePartsUnique | RetirementClock.X/main.c:319-340 | no other split into days, hours < 24, minutes < 60 and seconds < 60 gives the same runtime |
| Views.RuntimeViewText | RetirementClock.X/main.c:314-343 | the runtime view clears the screen and writes D:H:M:S, then "System runtime" on the second line |
| Views.RuntimeView | RetirementClock.X/main.c:314-343 | the defining function of `display_runtime`; its text is given by `Views.RuntimeViewText` and its numbers by `Views.RuntimeParts` and `Views.RuntimePartsUnique` |
| Views.View | RetirementClock.X/main.c:201-212 | the defining function of the `switch (lcd_mode)`: the clock, countdown or runtime view for modes 0, 1 and 2, nothing for any other mode; used by `RetirementClock.Clock.Tick` and `RetirementClock.Clock.Display` |
| Views.RuntimeExample | RetirementClock.X/main.c:319-342 | 90061 seconds are shown as 1:1:1:1 |
| Protocol.Word | RetirementClock.X/main.c:455 | the first word is the longest space-free prefix of the line |
| Protocol.Tokens | RetirementClock.X/main.c:455-494 | the words `strtok_r` yields are non-empty and contain no space; runs of spaces yield no empty word |
| Protocol.TokensOfJoin | RetirementClock.X/main.c:455-494 | splitting words joined by single spaces gives back exactly those words |
| Protocol.TokenCountBound | RetirementClock.X/main.c:457-492 | a line of n bytes has at most (n + 1) / 2 words, so the 8-bit word counter never wraps on a 32-byte line |
| Protocol.CounterBelow | RetirementClock.X/main.c:457-492 | below 256 words the 8-bit `count` equals the number of words seen |
| Protocol.CounterWraps | RetirementClock.X/main.c:457-492 | `count` repeats with period 256 |
| Protocol.StoreDateTimeWord | RetirementClock.X/main.c:470-490 | the `switch (count)` changes only the field word number `count` names (2…7: day, month, year, hour, minute, second), which receives the converted number cut to 16 bits for the year and 8 bits otherwise; other counts change nothing |
| Protocol.StoreBirthdayWord | RetirementClock.X/main.c:525-536 | the `switch (count)` changes only the birthday field word number `count` names (2…4: day, month, year), which receives the converted number cut to the field's width; other counts change nothing |
| Protocol.SetDateTimeLoop | RetirementClock.X/main.c:453-495 | the `SET DATETIME` loop leaves the date and time that the positional assignment of all its words defines |
| Protocol.SetBirthdayLoop | RetirementClock.X/main.c:514-539 | the `SET BIRTHDAY` loop leaves the birthday that the positional assignment of all its words defines |
| Protocol.SetDateTimeSlot | RetirementClock.X/main.c:466-492 | after n words (at most 256, which every 32-byte line is), field i holds word i's number when n > i and its old value otherwise |
| Protocol.SetDateTimeFields | RetirementClock.X/main.c:457-495 | on at most 256 words (which every 32-byte line is), words 2…7 set day, month, year, hour, minute, second (8-bit fields keep the low byte); a missing word leaves its field unchanged; words after the eighth change nothing |
| Protocol.SetBirthdayFields | RetirementClock.X/main.c:518-539 | on at most 256 words (which every 32-byte line is), words 2…4 set birth day, month and year; missing words leave their fields unchanged; later words change nothing |
| Protocol.Execute | RetirementClock.X/main.c:444-560 | the defining function of `execute_command`, with its branches in the source's order; its meaning is given by `Protocol.SetDateTimeStores`, `Protocol.SetBirthdayStores`, `Protocol.GetDateTime`, `Protocol.GetBirthday`, `Protocol.ToggleBacklight` and `Protocol.UnknownCommand` |
| Protocol.DateTimeReply | RetirementClock.X/main.c:501-502 | the defining function of the `GET DATETIME` reply `"%d.%d.%d %d:%d:%d\r\n"`; its meaning is given by `Protocol.SetThenGetDateTime` and `Protocol.DateTimeReplyExample` |
| Protocol.BirthdayReply | RetirementClock.X/main.c:545-546 | the defining function of the `GET BIRTHDAY` reply `"%d.%d.%d\r\n"`; its meaning is given by `Protocol.SetThenGetBirthday` |
| Protocol.SetDateTimeParsed | RetirementClock.X/main.c:451-455 | a `SET DATETIME` line written with `%d` numbers matches the 12-byte prefix and splits into its eight words |
| Protocol.SetBirthdayParsed | RetirementClock.X/main.c:451-516 | a `SET BIRTHDAY` line is not taken for `SET DATETIME`, matches its own prefix and splits into its five words |
| Protocol.StoreDateTime | RetirementClock.X/main.c:466-492 | eight words whose arguments convert to the fields of d store exactly d |
| Protocol.SetDateTimeStores | RetirementClock.X/main.c:451-496 | `SET DATETIME` with the numbers of any date and time sets the clock to exactly that date and time and sends nothing |
| Protocol.SetBirthdayStores | RetirementClock.X/main.c:512-540 | `SET BIRTHDAY` with the numbers of any birthday sets exactly that birthday and sends nothing |
| Protocol.SetDateTimeOfWords | RetirementClock.X/main.c:451-496 | any eight words SET, DATETIME and six words that convert to the fields of d set the clock to d, however the numbers are written |
| Protocol.SetDateTimePadded | RetirementClock.X/main.c:451-496 | `SET DATETIME` with zero-padded two-digit day, month, hour, minute and second sets exactly those values |
| Protocol.GetDateTime | RetirementClock.X/main.c:498-505 | `GET DATETIME` changes nothing and answers with d.m.y h:mi:s and CR LF |
| Protocol.DateTimeReplyExample | RetirementClock.X/main.c:501-502 | the reply for 1 February 2030 03:04:05 is "1.2.2030 3:4:5\r\n", with no zero padding |
| Protocol.SetGetExample | RetirementClock.X/main.c:451-505 | `SET DATETIME 01 02 2030 03 04 05` sets day 1, month 2, year 2030, hour 3, minute 4, second 5, and a following `GET DATETIME` answers "1.2.2030 3:4:5\r\n" |
| Protocol.GetBirthday | RetirementClock.X/main.c:542-549 | `GET BIRTHDAY` changes nothing and answers with d.m.y and CR LF |
| Protocol.SetThenGetDateTime | RetirementClock.X/main.c:451-505 | `GET DATETIME` after `SET DATETIME` prints back the numbers that were set (years below 32768) |
| Protocol.SetThenGetBirthday | RetirementClock.X/main.c:512-549 | `GET BIRTHDAY` after `SET BIRTHDAY` prints back the numbers that were set (years below 32768) |
| Protocol.ToggleBacklight | RetirementClock.X/main.c:551-555 | `TGL BACKLIGHT` flips the backlight and confirms; a second one restores the settings |
| Protocol.UnknownCommand | RetirementClock.X/main.c:556-559 | a line matching no branch is answered "Incorrect command.\r\n" and changes nothing |
| Protocol.CString | RetirementClock.X/main.c:155 | the command handed on is the buffer up to its first NUL byte |
| Protocol.Feed | RetirementClock.X/main.c:144-158 | after any byte the buffered line holds at most 32 bytes |
| Protocol.FeedPlain | RetirementClock.X/main.c:144-151 | bytes other than CR and LF are appended while the line has room |
| Protocol.FeedAll | RetirementClock.X/main.c:133-158 | the receive handler run over a sequence of bytes: the buffered line stays within 32 bytes and the lines handed on are collected in order; its meaning is given by `Protocol.AssembleCommand`, `Protocol.OverlongLineDropped` and `Protocol.FeedPlain` |
| Protocol.AssembleCommand | RetirementClock.X/main.c:144-158 | a line of at most 32 bytes with no CR, LF or NUL byte, followed by CR, is dispatched whole, once, and the buffer is empty again |
| Protocol.OverlongLineDropped | RetirementClock.X/main.c:146-158 | the 33rd byte drops the line, and the CR after it dispatches an empty command |
| RetirementClock.Clock.constructor | RetirementClock.X/main.c:61-83 | the initial globals (31.12.2020 23:59:55, birthday 31.12.1965, view 0, runtime 0, empty command line), a valid date, backlight on and buzzer off |
| RetirementClock.Clock.IncrementYear | RetirementClock.X/main.c:426-429 | the year field moves on by one modulo 2^16 and nothing else changes |
| RetirementClock.Clock.IncrementMonth | RetirementClock.X/main.c:413-424 | the fields become `CarryMonth` of the old date and time |
| RetirementClock.Clock.IncrementDay | RetirementClock.X/main.c:389-411 | the fields become `CarryDay` of the old date and time |
| RetirementClock.Clock.IncrementHour | RetirementClock.X/main.c:376-387 | the fields become `CarryHour` of the old date and time |
| RetirementClock.Clock.IncrementMinute | RetirementClock.X/main.c:363-374 | the fields become `CarryMinute` of the old date and time |
| RetirementClock.Clock.IncrementTime | RetirementClock.X/main.c:350-361 | the fields become `Next` of the old date and time; a valid clock stays valid and, below year 65535, is exactly one second later |
| RetirementClock.Clock.Retire | RetirementClock.X/main.c:431-441 | the buzzer is on and the screen is `RetireScreen`: clear, "Go home," at column 4 of row 0, "old timer!" at column 3 of row 1 |
| RetirementClock.Clock.Tick | RetirementClock.X/main.c:172-213 | runtime + 1 (mod 2^32); the clock advances by `Next`, and a valid clock stays valid and, below year 65535, moves exactly one second on; buzzer = retired; if retired the message is shown instead of a view, otherwise the view for the current mode; the mode and birthday are outside its frame |
| RetirementClock.Clock.Display | RetirementClock.X/main.c:198-212 | the buzzer is off and the view for the current mode is drawn; an out-of-range mode draws nothing |
| RetirementClock.Clock.PressButton | RetirementClock.X/main.c:162-168 | the mode becomes the next one of the three-view cycle and nothing else changes |
| RetirementClock.Clock.ExecuteCommand | RetirementClock.X/main.c:444-560 | the clock, birthday and backlight, and the reply, are those `Protocol.Execute` gives for the command |
| RetirementClock.Clock.ReceiveByte | RetirementClock.X/main.c:133-158 | the buffer follows `Feed`; LF changes nothing; CR empties the buffer and sets pos to 0, then runs the buffered command; pos ≤ 32 after every byte |

## Left out

- Hardware set-up is not modelled: `main`'s pin configuration and sleep loop
  (`RetirementClock.X/main.c:88-130`) and `RTC_init` (`RetirementClock.X/main.c:215-260`)
  only program registers. The initial backlight-on write (line 114) is kept in the
  constructor.
- The LCD and USART drivers (`lcd_*`, `USART0_*`) are external. LCD output is modelled as
  a sequence of `LcdOp` calls, and a serial reply as the string sent. The received byte
  is a parameter of `ReceiveByte`.
- Interrupt concurrency is not modelled: each handler is one atomic method.
- The `PORTA` and `PORTB` writes are modelled only as the `buzzer` and `backlight` booleans.
- `floor()` in `display_runtime` is applied to an integer quotient. It is modelled as
  integer division, without floating point.
- `display_runtime`'s `(int)` cast of the day count is not modelled. The cast only
  matters past 32767 days, which is about 90 years of runtime. The model shows the
  true quotient.
- The `strtok_r` NUL writes into the command line are not modelled. The model splits an
  immutable string.
- The `SET` loops update a local copy of the fields that is written back after the last
  word. The firmware writes the globals word by word. Nothing can observe the difference
  while the handler runs.
- `sprintf` buffer sizes are not modelled. Every text the model produces fits its buffer.
- Protocol.Execute: requires that every word the `SET` loops store converts as a number
  (`ArgumentsScan`). When `sscanf` fails, the firmware stores an uninitialised `num`,
  which has no defined value to model.
- RetirementClock.Clock.ExecuteCommand: requires `ArgumentsScan`, for the same reason.
- RetirementClock.Clock.ReceiveByte: requires `ArgumentsScan` of the buffered line on CR,
  for the same reason.
- RetirementClock.Clock.Tick: requires `CanAdvance`. At 23:59:59 a month outside 1–12 makes
  `increment_day` index outside `days_in_month`, which is undefined behaviour.
- RetirementClock.Clock.IncrementTime: requires `CanAdvance`, for the same reason.
- RetirementClock.Clock.ReceiveByte: keeps the line in a persistent field. The source
  declares the buffer as a local of the handler, so earlier bytes are not kept.
  - When `pos` reaches 32, the source writes one byte past its 32-byte array: at
    line 146, and at line 155 on CR. The model stores a 32-byte line without modelling
    that out-of-bounds write.
- The NUL byte handling of `strncmp` and `strcmp` is simplified. The line given to
  `execute_command` never contains a NUL byte (`CString`), so prefix and equality tests
  on strings are exact.
- The other projects in the repository (W00E00_TestProgram, W01E01_PushLED,
  W02E01_SoftBlink, W02E02_LEDdimmer, W03E02_EcoLameLight) are not part of this model.
  They are GPIO and PWM demonstrations built on busy-wait delays.
