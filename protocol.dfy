/** The serial console: bytes are assembled into a line, the line is split
    into space-separated words, and `execute_command` reads or writes the
    clock, the birthday or the backlight and answers with one line. */
module Protocol {
  import opened Common
  import opened Calendar
  import opened Retirement
  import opened Format

  const MaxCommandLen := 32

  // ----- Splitting on spaces, as repeated `strtok_r(…, " ", …)` does -----

  /** The word at the start of `s`: everything up to the first space. */
  function Word(s: string): (w: string)
    ensures |w| <= |s| && w == s[..|w|]
    ensures ' ' !in w
    ensures |w| < |s| ==> s[|w|] == ' '
  {
    if s == [] || s[0] == ' ' then [] else [s[0]] + Word(s[1..])
  }

  /** The words of `s`; runs of spaces separate words and produce no empty word. */
  function Tokens(s: string): (ts: seq<string>)
    ensures forall i :: 0 <= i < |ts| ==> ts[i] != [] && ' ' !in ts[i]
    decreases |s|
  {
    if s == [] then []
    else if s[0] == ' ' then Tokens(s[1..])
    else
      var w := Word(s);
      [w] + Tokens(s[|w|..])
  }

  /** Words separated by single spaces. */
  function JoinWords(ws: seq<string>): string {
    if ws == [] then "" else if |ws| == 1 then ws[0] else ws[0] + " " + JoinWords(ws[1..])
  }

  predicate IsWord(w: string) {
    w != [] && ' ' !in w
  }

  /** A word followed by a space, or by nothing, is the first word. */
  lemma {:induction false} WordBeforeSpace(w: string, rest: string)
    requires IsWord(w) && (rest == [] || rest[0] == ' ')
    ensures Word(w + rest) == w
    decreases |w|
  {
    var s := w + rest;
    assert s[0] == w[0] && s[1..] == w[1..] + rest;
    if |w| == 1 {
      assert w[1..] + rest == rest;
      assert w == [w[0]];
    } else {
      assert w[1..][0] == w[1];
      WordBeforeSpace(w[1..], rest);
      assert w == [w[0]] + w[1..];
    }
  }

  /** Splitting a word, a space and a remainder gives the word, then the remainder's words. */
  lemma {:induction false} TokensCons(w: string, rest: string)
    requires IsWord(w)
    ensures Tokens(w + " " + rest) == [w] + Tokens(rest)
  {
    var s := w + " " + rest;
    assert s == w + (" " + rest);
    WordBeforeSpace(w, " " + rest);
    assert s[|w|..] == " " + rest;
    assert (" " + rest)[1..] == rest;
  }

  /** Splitting single-space-joined words gives the words back. */
  lemma {:induction false} TokensOfJoin(ws: seq<string>)
    requires forall i :: 0 <= i < |ws| ==> IsWord(ws[i])
    ensures Tokens(JoinWords(ws)) == ws
    decreases |ws|
  {
    if |ws| == 1 {
      WordBeforeSpace(ws[0], []);
      assert ws[0] + [] == ws[0];
      assert ws[0][|ws[0]|..] == [];
    } else if |ws| > 1 {
      TokensCons(ws[0], JoinWords(ws[1..]));
      TokensOfJoin(ws[1..]);
      assert ws == [ws[0]] + ws[1..];
    }
  }

  /** A line of n characters holds at most (n + 1) / 2 words, so the 8-bit
      word counter of `execute_command` cannot wrap on a 32-byte line. */
  lemma {:induction false} TokenCountBound(s: string)
    ensures |Tokens(s)| <= (|s| + 1) / 2
    decreases |s|
  {
    if s == [] {
    } else if s[0] == ' ' {
      TokenCountBound(s[1..]);
    } else {
      var w := Word(s);
      var rest := s[|w|..];
      if rest != [] {
        assert rest[0] == ' ';
        assert Tokens(rest) == Tokens(rest[1..]);
        TokenCountBound(rest[1..]);
      }
    }
  }

  // ----- execute_command -----

  /** The state a command can read or change. */
  datatype Settings = Settings(now: DateTime, birth: Birthday, backlight: bool)

  /** The new settings and the text sent back ("" when nothing is sent). */
  datatype Outcome = Outcome(settings: Settings, reply: string)

  const IncorrectReply := "Incorrect command.\r\n"
  const BacklightReply := "BACKLIGHT TOGGLED.\r\n"

  /** `strncmp(s, p, |p|) == 0` for a string without NUL bytes. */
  predicate HasPrefix(s: string, p: string) {
    |p| <= |s| && s[..|p|] == p
  }

  predicate IsSetDateTime(cmd: string) {
    HasPrefix(cmd, "SET DATETIME")
  }

  /** The `strncmp(command, "SET BIRTHDAY", 12)` branch. The first two conjuncts
      follow from the prefix; they spell out that the two earlier branches
      were not taken. */
  predicate IsSetBirthday(cmd: string) {
    !IsSetDateTime(cmd) && cmd != "GET DATETIME" && HasPrefix(cmd, "SET BIRTHDAY")
  }

  /** The conversion of every word, as the loop's `sscanf(ptr, "%d", &num)` does it. */
  function Scans(toks: seq<string>): seq<Option<int>> {
    seq(|toks|, i requires 0 <= i < |toks| => ScanInt(toks[i]))
  }

  /** `num` is 16 bits wide: the low 16 bits of the converted value are kept. */
  function Num(v: int): u16 {
    v % 0x1_0000
  }

  /** A value that already fits in the field it is stored into is kept as is. */
  lemma NumKeeps(v: int)
    requires 0 <= v < 0x1_0000
    ensures Num(v) == v
    ensures v < 0x100 ==> Num(v) % 0x100 == v
  {
  }

  /** The 8-bit `count` after `i` increments: `count++` wraps from 255 to 0. */
  function Counter(i: nat): u8 {
    if i == 0 then 0 else Succ8(Counter(i - 1))
  }

  /** `++` on an 8-bit unsigned value. */
  function Succ8(c: u8): u8 {
    if c == 0xFF then 0 else c + 1
  }

  /** Below 256 increments the counter is the word index. */
  lemma {:induction false} CounterBelow(i: nat)
    requires i < 0x100
    ensures Counter(i) as int == i
  {
    if i > 0 {
      CounterBelow(i - 1);
    }
  }

  /** After 256 increments the counter is back where it was. */
  lemma {:induction false} CounterWraps(i: nat)
    ensures Counter(i + 0x100) == Counter(i)
  {
    if i == 0 {
      CounterBelow(0xFF);
    } else {
      CounterWraps(i - 1);
    }
  }

  /** Every word the 8-bit counter maps to a slot in 2..last converts as a number. */
  predicate SlotsScan(vals: seq<Option<int>>, last: int) {
    forall i :: 0 <= i < |vals| && 2 <= Counter(i) <= last ==> vals[i].Some?
  }

  /** What `execute_command` needs of its argument: the words it stores are numbers.
      (A failed conversion leaves the stored value uninitialised in the firmware.) */
  predicate ArgumentsScan(cmd: string) {
    && (IsSetDateTime(cmd) ==> SlotsScan(Scans(Tokens(cmd)), 7))
    && (IsSetBirthday(cmd) ==> SlotsScan(Scans(Tokens(cmd)), 4))
  }

  /** One step of the `SET DATETIME` loop: word number `count` goes to its field;
      the 8-bit fields keep the low 8 bits. */
  function AssignDateTime(d: DateTime, count: u8, v: Option<int>): DateTime
    requires 2 <= count <= 7 ==> v.Some?
  {
    if count == 2 then d.(day := Num(v.value) % 0x100)
    else if count == 3 then d.(month := Num(v.value) % 0x100)
    else if count == 4 then d.(year := Num(v.value))
    else if count == 5 then d.(hour := Num(v.value) % 0x100)
    else if count == 6 then d.(minute := Num(v.value) % 0x100)
    else if count == 7 then d.(second := Num(v.value) % 0x100)
    else d
  }

  /** The date and time after the `SET DATETIME` loop has seen the first `n` words. */
  function SetDateTimeWords(d: DateTime, vals: seq<Option<int>>, n: nat): DateTime
    requires n <= |vals| && SlotsScan(vals, 7)
  {
    if n == 0 then d else AssignDateTime(SetDateTimeWords(d, vals, n - 1), Counter(n - 1), vals[n - 1])
  }

  /** The loop's step: word `i` goes to the slot its 8-bit counter names. */
  lemma SetDateTimeStep(d: DateTime, vals: seq<Option<int>>, i: nat, count: u8)
    requires i < |vals| && SlotsScan(vals, 7) && count == Counter(i)
    ensures 2 <= count <= 7 ==> vals[i].Some?
    ensures SetDateTimeWords(d, vals, i + 1) == AssignDateTime(SetDateTimeWords(d, vals, i), count, vals[i])
  {
  }

  /** One step of the `SET BIRTHDAY` loop. */
  function AssignBirthday(b: Birthday, count: u8, v: Option<int>): Birthday
    requires 2 <= count <= 4 ==> v.Some?
  {
    if count == 2 then b.(day := Num(v.value) % 0x100)
    else if count == 3 then b.(month := Num(v.value) % 0x100)
    else if count == 4 then b.(year := Num(v.value))
    else b
  }

  function SetBirthdayWords(b: Birthday, vals: seq<Option<int>>, n: nat): Birthday
    requires n <= |vals| && SlotsScan(vals, 4)
  {
    if n == 0 then b else AssignBirthday(SetBirthdayWords(b, vals, n - 1), Counter(n - 1), vals[n - 1])
  }

  lemma SetBirthdayStep(b: Birthday, vals: seq<Option<int>>, i: nat, count: u8)
    requires i < |vals| && SlotsScan(vals, 4) && count == Counter(i)
    ensures 2 <= count <= 4 ==> vals[i].Some?
    ensures SetBirthdayWords(b, vals, i + 1) == AssignBirthday(SetBirthdayWords(b, vals, i), count, vals[i])
  {
  }

  /** The `switch (count)` in the `SET DATETIME` loop: only the field that word
      number `count` names changes, and it receives the converted number cut to
      the field's width. */
  method StoreDateTimeWord(d: DateTime, count: u8, scanned: Option<int>) returns (r: DateTime)
    requires 2 <= count <= 7 ==> scanned.Some?
    ensures forall i :: 2 <= i <= 7 ==> Slot(r, i) == if count as int == i then Stored(i, scanned.value) else Slot(d, i)
  {
    r := d;
    if count == 2 {
      r := r.(day := Num(scanned.value) % 0x100);
    } else if count == 3 {
      r := r.(month := Num(scanned.value) % 0x100);
    } else if count == 4 {
      r := r.(year := Num(scanned.value));
    } else if count == 5 {
      r := r.(hour := Num(scanned.value) % 0x100);
    } else if count == 6 {
      r := r.(minute := Num(scanned.value) % 0x100);
    } else if count == 7 {
      r := r.(second := Num(scanned.value) % 0x100);
    }
  }

  /** The `switch (count)` in the `SET BIRTHDAY` loop: only the field word
      number `count` names changes. */
  method StoreBirthdayWord(b: Birthday, count: u8, scanned: Option<int>) returns (r: Birthday)
    requires 2 <= count <= 4 ==> scanned.Some?
    ensures forall i :: 2 <= i <= 4 ==> BirthSlot(r, i) == if count as int == i then Stored(i, scanned.value) else BirthSlot(b, i)
  {
    r := b;
    if count == 2 {
      r := r.(day := Num(scanned.value) % 0x100);
    } else if count == 3 {
      r := r.(month := Num(scanned.value) % 0x100);
    } else if count == 4 {
      r := r.(year := Num(scanned.value));
    }
  }

  /** The `SET DATETIME` loop of `execute_command`: every word is converted
      with `sscanf`, and the one the 8-bit counter numbers 2 … 7 is stored
      in day, month, year, hour, minute or second. */
  method SetDateTimeLoop(toks: seq<string>, d: DateTime) returns (r: DateTime)
    requires SlotsScan(Scans(toks), 7)
    ensures r == SetDateTimeWords(d, Scans(toks), |toks|)
  {
    ghost var vals := Scans(toks);
    r := d;
    var i := 0;
    var count: u8 := 0;
    while i < |toks|
      invariant 0 <= i <= |toks|
      invariant count == Counter(i)
      invariant r == SetDateTimeWords(d, vals, i)
    {
      var scanned := ScanInt(toks[i]);
      assert scanned == vals[i];
      SetDateTimeStep(d, vals, i, count);
      var next := StoreDateTimeWord(r, count, scanned);
      SlotsMatchAssign(r, count, scanned, next);
      r := next;
      count := Succ8(count);
      i := i + 1;
    }
  }

  /** The `SET BIRTHDAY` loop: words 2, 3 and 4 go to day, month and year. */
  method SetBirthdayLoop(toks: seq<string>, b: Birthday) returns (r: Birthday)
    requires SlotsScan(Scans(toks), 4)
    ensures r == SetBirthdayWords(b, Scans(toks), |toks|)
  {
    ghost var vals := Scans(toks);
    r := b;
    var i := 0;
    var count: u8 := 0;
    while i < |toks|
      invariant 0 <= i <= |toks|
      invariant count == Counter(i)
      invariant r == SetBirthdayWords(b, vals, i)
    {
      var scanned := ScanInt(toks[i]);
      assert scanned == vals[i];
      SetBirthdayStep(b, vals, i, count);
      var next := StoreBirthdayWord(r, count, scanned);
      BirthSlotsMatchAssign(r, count, scanned, next);
      r := next;
      count := Succ8(count);
      i := i + 1;
    }
  }

  /** `GET DATETIME`: "%d.%d.%d %d:%d:%d\r\n" of day, month, year, hour, minute, second. */
  function DateTimeReply(d: DateTime): string {
    FormatInt(d.day) + "." + FormatInt(d.month) + "." + FormatInt(AsInt16(d.year)) + " "
    + FormatInt(d.hour) + ":" + FormatInt(d.minute) + ":" + FormatInt(d.second) + "\r\n"
  }

  /** `GET BIRTHDAY`: "%d.%d.%d\r\n" of day, month, year. */
  function BirthdayReply(b: Birthday): string {
    FormatInt(b.day) + "." + FormatInt(b.month) + "." + FormatInt(AsInt16(b.year)) + "\r\n"
  }

  /** `execute_command`: the branches in the firmware's order. */
  function Execute(s: Settings, cmd: string): Outcome
    requires ArgumentsScan(cmd)
  {
    if IsSetDateTime(cmd) then
      var vals := Scans(Tokens(cmd));
      Outcome(s.(now := SetDateTimeWords(s.now, vals, |vals|)), "")
    else if cmd == "GET DATETIME" then Outcome(s, DateTimeReply(s.now))
    else if IsSetBirthday(cmd) then
      var vals := Scans(Tokens(cmd));
      Outcome(s.(birth := SetBirthdayWords(s.birth, vals, |vals|)), "")
    else if cmd == "GET BIRTHDAY" then Outcome(s, BirthdayReply(s.birth))
    else if cmd == "TGL BACKLIGHT" then Outcome(s.(backlight := !s.backlight), BacklightReply)
    else Outcome(s, IncorrectReply)
  }

  // ----- What SET does to each field -----

  /** The field word number `i` (2 = day … 7 = second) of `SET DATETIME` goes to. */
  function Slot(d: DateTime, i: int): int {
    if i == 2 then d.day else if i == 3 then d.month else if i == 4 then d.year
    else if i == 5 then d.hour else if i == 6 then d.minute else d.second
  }

  /** The value a converted word leaves in field `i`: 16 bits for the year, 8 for the rest. */
  function Stored(i: int, v: int): int {
    if i == 4 then Num(v) else Num(v) % 0x100
  }

  lemma AssignSlot(p: DateTime, k: u8, v: Option<int>, i: int)
    requires 2 <= k <= 7 ==> v.Some?
    requires 2 <= i <= 7
    ensures Slot(AssignDateTime(p, k, v), i) == if k == i then Stored(i, v.value) else Slot(p, i)
  {
  }

  /** A date and time whose six slots agree with one assignment step is that step. */
  lemma SlotsMatchAssign(p: DateTime, k: u8, v: Option<int>, r: DateTime)
    requires 2 <= k <= 7 ==> v.Some?
    requires forall i :: 2 <= i <= 7 ==> Slot(r, i) == if k as int == i then Stored(i, v.value) else Slot(p, i)
    ensures r == AssignDateTime(p, k, v)
  {
    var q := AssignDateTime(p, k, v);
    AssignSlot(p, k, v, 2); AssignSlot(p, k, v, 3); AssignSlot(p, k, v, 4);
    AssignSlot(p, k, v, 5); AssignSlot(p, k, v, 6); AssignSlot(p, k, v, 7);
    assert Slot(r, 2) == Slot(q, 2) && Slot(r, 3) == Slot(q, 3) && Slot(r, 4) == Slot(q, 4);
    assert Slot(r, 5) == Slot(q, 5) && Slot(r, 6) == Slot(q, 6) && Slot(r, 7) == Slot(q, 7);
  }

  lemma {:induction false} SetDateTimeSlot(d: DateTime, vals: seq<Option<int>>, n: nat, i: int)
    requires n <= |vals| <= 0x100 && SlotsScan(vals, 7) && 2 <= i <= 7
    ensures n > i ==> vals[i].Some?
    ensures Slot(SetDateTimeWords(d, vals, n), i) == if n > i then Stored(i, vals[i].value) else Slot(d, i)
  {
    CounterBelow(i);
    if n > 0 {
      var k := n - 1;
      CounterBelow(k);
      SetDateTimeSlot(d, vals, k, i);
      AssignSlot(SetDateTimeWords(d, vals, k), k, vals[k], i);
    }
  }

  /** Word 2..7 sets day, month, year, hour, minute, second; a missing word
      leaves its field alone and words after the eighth change nothing. */
  lemma SetDateTimeFields(d: DateTime, vals: seq<Option<int>>, n: nat)
    requires n <= |vals| <= 0x100 && SlotsScan(vals, 7)
    ensures forall i :: 2 <= i < n && i <= 7 ==> vals[i].Some?
    ensures var r := SetDateTimeWords(d, vals, n);
            && r.day == (if n > 2 then Num(vals[2].value) % 0x100 else d.day)
            && r.month == (if n > 3 then Num(vals[3].value) % 0x100 else d.month)
            && r.year == (if n > 4 then Num(vals[4].value) else d.year)
            && r.hour == (if n > 5 then Num(vals[5].value) % 0x100 else d.hour)
            && r.minute == (if n > 6 then Num(vals[6].value) % 0x100 else d.minute)
            && r.second == (if n > 7 then Num(vals[7].value) % 0x100 else d.second)
  {
    SetDateTimeSlot(d, vals, n, 2);
    SetDateTimeSlot(d, vals, n, 3);
    SetDateTimeSlot(d, vals, n, 4);
    SetDateTimeSlot(d, vals, n, 5);
    SetDateTimeSlot(d, vals, n, 6);
    SetDateTimeSlot(d, vals, n, 7);
  }

  /** The field word number `i` (2 = day, 3 = month, 4 = year) of `SET BIRTHDAY` goes to. */
  function BirthSlot(b: Birthday, i: int): int {
    if i == 2 then b.day else if i == 3 then b.month else b.year
  }

  lemma AssignBirthSlot(p: Birthday, k: u8, v: Option<int>, i: int)
    requires 2 <= k <= 4 ==> v.Some?
    requires 2 <= i <= 4
    ensures BirthSlot(AssignBirthday(p, k, v), i) == if k == i then Stored(i, v.value) else BirthSlot(p, i)
  {
  }

  lemma BirthSlotsMatchAssign(p: Birthday, k: u8, v: Option<int>, r: Birthday)
    requires 2 <= k <= 4 ==> v.Some?
    requires forall i :: 2 <= i <= 4 ==> BirthSlot(r, i) == if k as int == i then Stored(i, v.value) else BirthSlot(p, i)
    ensures r == AssignBirthday(p, k, v)
  {
    var q := AssignBirthday(p, k, v);
    AssignBirthSlot(p, k, v, 2); AssignBirthSlot(p, k, v, 3); AssignBirthSlot(p, k, v, 4);
    assert BirthSlot(r, 2) == BirthSlot(q, 2) && BirthSlot(r, 3) == BirthSlot(q, 3) && BirthSlot(r, 4) == BirthSlot(q, 4);
  }

  lemma {:induction false} SetBirthdaySlot(b: Birthday, vals: seq<Option<int>>, n: nat, i: int)
    requires n <= |vals| <= 0x100 && SlotsScan(vals, 4) && 2 <= i <= 4
    ensures n > i ==> vals[i].Some?
    ensures BirthSlot(SetBirthdayWords(b, vals, n), i) == if n > i then Stored(i, vals[i].value) else BirthSlot(b, i)
  {
    CounterBelow(i);
    if n > 0 {
      var k := n - 1;
      CounterBelow(k);
      SetBirthdaySlot(b, vals, k, i);
      AssignBirthSlot(SetBirthdayWords(b, vals, k), k, vals[k], i);
    }
  }

  /** Word 2..4 sets birth day, month and year. */
  lemma SetBirthdayFields(b: Birthday, vals: seq<Option<int>>, n: nat)
    requires n <= |vals| <= 0x100 && SlotsScan(vals, 4)
    ensures forall i :: 2 <= i < n && i <= 4 ==> vals[i].Some?
    ensures var r := SetBirthdayWords(b, vals, n);
            && r.day == (if n > 2 then Num(vals[2].value) % 0x100 else b.day)
            && r.month == (if n > 3 then Num(vals[3].value) % 0x100 else b.month)
            && r.year == (if n > 4 then Num(vals[4].value) else b.year)
  {
    SetBirthdaySlot(b, vals, n, 2);
    SetBirthdaySlot(b, vals, n, 3);
    SetBirthdaySlot(b, vals, n, 4);
  }

  // ----- SET followed by GET -----

  /** The six numbers of `SET DATETIME`, as `%d` writes them. */
  function DateTimeArgs(d: DateTime): seq<string> {
    [FormatInt(d.day), FormatInt(d.month), FormatInt(d.year),
     FormatInt(d.hour), FormatInt(d.minute), FormatInt(d.second)]
  }

  function BirthdayArgs(b: Birthday): seq<string> {
    [FormatInt(b.day), FormatInt(b.month), FormatInt(b.year)]
  }

  function SetDateTimeCommand(d: DateTime): string {
    JoinWords(["SET", "DATETIME"] + DateTimeArgs(d))
  }

  function SetBirthdayCommand(b: Birthday): string {
    JoinWords(["SET", "BIRTHDAY"] + BirthdayArgs(b))
  }

  lemma FormattedIsWord(n: int)
    ensures IsWord(FormatInt(n))
  {
  }

  /** Words joined after two leading words start with those two words and a space between. */
  lemma {:induction false} JoinedHead(ws: seq<string>)
    requires |ws| >= 3
    ensures HasPrefix(JoinWords(ws), ws[0] + " " + ws[1])
  {
    var a, b, j := ws[0], ws[1], JoinWords(ws[2..]);
    assert ws[1..][0] == b && ws[1..][1..] == ws[2..];
    var s := a + " " + (b + " " + j);
    assert JoinWords(ws) == s;
    var p := a + " " + b;
    forall i | 0 <= i < |p|
      ensures s[i] == p[i]
    {
      if i > |a| {
        assert s[i] == (b + " " + j)[i - |a| - 1];
      }
    }
  }

  /** `SET DATETIME d m y h mi s` splits into its eight words. */
  lemma SetDateTimeParsed(d: DateTime)
    ensures IsSetDateTime(SetDateTimeCommand(d))
    ensures Tokens(SetDateTimeCommand(d)) == ["SET", "DATETIME"] + DateTimeArgs(d)
  {
    var ws := ["SET", "DATETIME"] + DateTimeArgs(d);
    FormattedIsWord(d.day); FormattedIsWord(d.month); FormattedIsWord(d.year);
    FormattedIsWord(d.hour); FormattedIsWord(d.minute); FormattedIsWord(d.second);
    TokensOfJoin(ws);
    JoinedHead(ws);
    SetDateTimeHead(ws[0], ws[1]);
  }

  lemma SetBirthdayParsed(b: Birthday)
    ensures !IsSetDateTime(SetBirthdayCommand(b)) && IsSetBirthday(SetBirthdayCommand(b))
    ensures Tokens(SetBirthdayCommand(b)) == ["SET", "BIRTHDAY"] + BirthdayArgs(b)
  {
    var ws := ["SET", "BIRTHDAY"] + BirthdayArgs(b);
    FormattedIsWord(b.day); FormattedIsWord(b.month); FormattedIsWord(b.year);
    TokensOfJoin(ws);
    JoinedHead(ws);
    var cmd := SetBirthdayCommand(b);
    SetBirthdayHead(ws[0], ws[1]);
    assert cmd[..12] == "SET BIRTHDAY";
    assert cmd[0] == 'S' && cmd[4] == 'B';
  }

  /** On fewer than 256 words the counter does not wrap, so the slots are words 2..last. */
  lemma SlotsScanShort(vals: seq<Option<int>>, last: int)
    requires |vals| <= 0x100
    requires forall i :: 2 <= i <= last && i < |vals| ==> vals[i].Some?
    ensures SlotsScan(vals, last)
  {
    forall i | 0 <= i < |vals| && 2 <= Counter(i) <= last
      ensures vals[i].Some?
    {
      CounterBelow(i);
    }
  }

  /** A word written by `%d` converts back to its number. */
  lemma ScannedArg(ws: seq<string>, i: nat, x: int)
    requires i < |ws| && ws[i] == FormatInt(x)
    ensures Scans(ws)[i] == Some(x)
  {
    ScanFormat(x);
  }

  lemma DateTimeArgValues(d: DateTime, ws: seq<string>)
    requires ws == ["SET", "DATETIME"] + DateTimeArgs(d)
    ensures var vals := Scans(ws);
            && |vals| == 8
            && vals[2] == Some(d.day as int) && vals[3] == Some(d.month as int)
            && vals[4] == Some(d.year as int) && vals[5] == Some(d.hour as int)
            && vals[6] == Some(d.minute as int) && vals[7] == Some(d.second as int)
  {
    assert |ws| == 8;
    assert ws[2] == FormatInt(d.day) && ws[3] == FormatInt(d.month) && ws[4] == FormatInt(d.year);
    assert ws[5] == FormatInt(d.hour) && ws[6] == FormatInt(d.minute) && ws[7] == FormatInt(d.second);
    ScannedArg(ws, 2, d.day); ScannedArg(ws, 3, d.month); ScannedArg(ws, 4, d.year);
    ScannedArg(ws, 5, d.hour); ScannedArg(ws, 6, d.minute); ScannedArg(ws, 7, d.second);
  }

  lemma BirthdayArgValues(b: Birthday, ws: seq<string>)
    requires ws == ["SET", "BIRTHDAY"] + BirthdayArgs(b)
    ensures var vals := Scans(ws);
            && |vals| == 5
            && vals[2] == Some(b.day as int) && vals[3] == Some(b.month as int) && vals[4] == Some(b.year as int)
  {
    assert |ws| == 5;
    assert ws[2] == FormatInt(b.day) && ws[3] == FormatInt(b.month) && ws[4] == FormatInt(b.year);
    ScannedArg(ws, 2, b.day); ScannedArg(ws, 3, b.month); ScannedArg(ws, 4, b.year);
  }

  /** Eight words whose six arguments convert store exactly those six values. */
  lemma StoreDateTime(vals: seq<Option<int>>, d0: DateTime, d: DateTime)
    requires |vals| == 8
    requires && vals[2] == Some(d.day as int) && vals[3] == Some(d.month as int)
             && vals[4] == Some(d.year as int) && vals[5] == Some(d.hour as int)
             && vals[6] == Some(d.minute as int) && vals[7] == Some(d.second as int)
    ensures SlotsScan(vals, 7)
    ensures SetDateTimeWords(d0, vals, 8) == d
  {
    forall i | 2 <= i <= 7 && i < |vals|
      ensures vals[i].Some?
    {
      if i == 2 {} else if i == 3 {} else if i == 4 {} else if i == 5 {} else if i == 6 {} else {}
    }
    SlotsScanShort(vals, 7);
    var r := SetDateTimeWords(d0, vals, 8);
    SetDateTimeFields(d0, vals, 8);
    NumKeeps(d.day); NumKeeps(d.month); NumKeeps(d.year);
    NumKeeps(d.hour); NumKeeps(d.minute); NumKeeps(d.second);
    assert r.day == d.day && r.month == d.month && r.year == d.year;
    assert r.hour == d.hour && r.minute == d.minute && r.second == d.second;
  }

  lemma StoreBirthday(vals: seq<Option<int>>, b0: Birthday, b: Birthday)
    requires |vals| == 5
    requires vals[2] == Some(b.day as int) && vals[3] == Some(b.month as int) && vals[4] == Some(b.year as int)
    ensures SlotsScan(vals, 4)
    ensures SetBirthdayWords(b0, vals, 5) == b
  {
    forall i | 2 <= i <= 4 && i < |vals|
      ensures vals[i].Some?
    {
      if i == 2 {} else if i == 3 {} else {}
    }
    SlotsScanShort(vals, 4);
    var r := SetBirthdayWords(b0, vals, 5);
    SetBirthdayFields(b0, vals, 5);
    NumKeeps(b.day); NumKeeps(b.month); NumKeeps(b.year);
    assert r.day == b.day && r.month == b.month && r.year == b.year;
  }

  /** `SET DATETIME d m y h mi s` stores exactly the values written. */
  lemma SetDateTimeStores(s: Settings, d: DateTime)
    ensures ArgumentsScan(SetDateTimeCommand(d))
    ensures Execute(s, SetDateTimeCommand(d)) == Outcome(s.(now := d), "")
  {
    SetDateTimeParsed(d);
    var ws := ["SET", "DATETIME"] + DateTimeArgs(d);
    DateTimeArgValues(d, ws);
    StoreDateTime(Scans(ws), s.now, d);
  }

  /** `SET BIRTHDAY d m y` stores exactly the values written. */
  lemma SetBirthdayStores(s: Settings, b: Birthday)
    ensures ArgumentsScan(SetBirthdayCommand(b))
    ensures Execute(s, SetBirthdayCommand(b)) == Outcome(s.(birth := b), "")
  {
    SetBirthdayParsed(b);
    var ws := ["SET", "BIRTHDAY"] + BirthdayArgs(b);
    BirthdayArgValues(b, ws);
    StoreBirthday(Scans(ws), s.birth, b);
  }

  /** A line that does not start with 'S' is neither `SET` command. */
  lemma NotSet(cmd: string)
    requires cmd != [] && cmd[0] != 'S'
    ensures !IsSetDateTime(cmd) && !IsSetBirthday(cmd) && ArgumentsScan(cmd)
  {
    if |cmd| >= 12 {
      assert cmd[..12][0] == cmd[0];
    }
  }

  /** `GET DATETIME` changes nothing and prints the clock. */
  lemma GetDateTime(s: Settings, cmd: string)
    requires cmd == "GET DATETIME"
    ensures ArgumentsScan(cmd)
    ensures Execute(s, cmd) == Outcome(s, DateTimeReply(s.now))
  {
    NotSet(cmd);
  }

  /** The reply for 1.2.2030 03:04:05, "1.2.2030 3:4:5\r\n": no zero padding anywhere.
      It is written as one piece per `%d` and separator because the solver needs
      over half its budget to match the single literal. */
  lemma DateTimeReplyExample(d: DateTime)
    requires d == DateTime(2030, 2, 1, 3, 4, 5)
    ensures DateTimeReply(d) == "1" + "." + "2" + "." + "2030" + " " + "3" + ":" + "4" + ":" + "5" + "\r\n"
  {
    FormatYear2030();
    assert FormatInt(1) == "1" && FormatInt(2) == "2" && FormatInt(3) == "3";
    assert FormatInt(4) == "4" && FormatInt(5) == "5";
  }

  /** `SET DATETIME 01 02 2030 03 04 05` followed by `GET DATETIME`, which replies
      "1.2.2030 3:4:5\r\n" (written in pieces, as in `DateTimeReplyExample`). */
  lemma SetGetExample(s: Settings, ws: seq<string>, get: string)
    requires |ws| == 8 && ws[0] == "SET" && ws[1] == "DATETIME"
    requires && ws[2] == "01" && ws[3] == "02" && ws[4] == "2030"
             && ws[5] == "03" && ws[6] == "04" && ws[7] == "05"
    requires get == "GET DATETIME"
    ensures ArgumentsScan(JoinWords(ws)) && ArgumentsScan(get)
    ensures Execute(s, JoinWords(ws)).settings == s.(now := DateTime(2030, 2, 1, 3, 4, 5))
    ensures Execute(Execute(s, JoinWords(ws)).settings, get)
            == Outcome(s.(now := DateTime(2030, 2, 1, 3, 4, 5)),
                       "1" + "." + "2" + "." + "2030" + " " + "3" + ":" + "4" + ":" + "5" + "\r\n")
  {
    var d := DateTime(2030, 2, 1, 3, 4, 5);
    PaddedOneToFive();
    FormatYear2030();
    SetDateTimePadded(s, d, ws);
    GetDateTime(s.(now := d), get);
    DateTimeReplyExample(d);
  }

  lemma PaddedOneToFive()
    ensures TwoDigits(1) == "01" && TwoDigits(2) == "02" && TwoDigits(3) == "03"
    ensures TwoDigits(4) == "04" && TwoDigits(5) == "05"
  {
  }

  lemma FormatYear2030()
    ensures FormatInt(AsInt16(2030)) == "2030"
  {
    assert Digits(2030) == Digits(203) + ['0'];
    assert Digits(203) == "203";
  }

  /** `GET BIRTHDAY` changes nothing and prints the birthday. */
  lemma GetBirthday(s: Settings, cmd: string)
    requires cmd == "GET BIRTHDAY"
    ensures ArgumentsScan(cmd)
    ensures Execute(s, cmd) == Outcome(s, BirthdayReply(s.birth))
  {
    assert cmd[4] == 'B';
    NotSet(cmd);
  }

  /** `GET DATETIME` after `SET DATETIME` prints the numbers that were set
      (for years below 32768, which `%d` prints without a sign). */
  lemma SetThenGetDateTime(s: Settings, d: DateTime, get: string)
    requires d.year < 0x8000 && get == "GET DATETIME"
    ensures ArgumentsScan(SetDateTimeCommand(d)) && ArgumentsScan(get)
    ensures Execute(Execute(s, SetDateTimeCommand(d)).settings, get).reply
            == FormatInt(d.day) + "." + FormatInt(d.month) + "." + FormatInt(d.year) + " "
               + FormatInt(d.hour) + ":" + FormatInt(d.minute) + ":" + FormatInt(d.second) + "\r\n"
  {
    SetDateTimeStores(s, d);
    GetDateTime(s.(now := d), get);
  }

  /** `GET BIRTHDAY` after `SET BIRTHDAY` prints the numbers that were set. */
  lemma SetThenGetBirthday(s: Settings, b: Birthday, get: string)
    requires b.year < 0x8000 && get == "GET BIRTHDAY"
    ensures ArgumentsScan(SetBirthdayCommand(b)) && ArgumentsScan(get)
    ensures Execute(Execute(s, SetBirthdayCommand(b)).settings, get).reply
            == FormatInt(b.day) + "." + FormatInt(b.month) + "." + FormatInt(b.year) + "\r\n"
  {
    SetBirthdayStores(s, b);
    GetBirthday(s.(birth := b), get);
  }

  lemma SetDateTimeHead(a: string, b: string)
    requires a == "SET" && b == "DATETIME"
    ensures a + " " + b == "SET DATETIME"
  {
    assert |a + " " + b| == 12;
    forall i | 0 <= i < 12 ensures (a + " " + b)[i] == "SET DATETIME"[i] {
      if i < 3 {} else if i == 3 {} else {}
    }
  }

  lemma SetBirthdayHead(a: string, b: string)
    requires a == "SET" && b == "BIRTHDAY"
    ensures a + " " + b == "SET BIRTHDAY"
  {
    assert |a + " " + b| == 12;
    forall i | 0 <= i < 12 ensures (a + " " + b)[i] == "SET BIRTHDAY"[i] {
      if i < 3 {} else if i == 3 {} else {}
    }
  }

  /** Any eight words `SET DATETIME` d m y h mi s whose last six convert to
      the fields of `d` set the clock to `d`, however the numbers are written. */
  lemma SetDateTimeOfWords(s: Settings, ws: seq<string>, d: DateTime)
    requires |ws| == 8 && ws[0] == "SET" && ws[1] == "DATETIME"
    requires forall i :: 0 <= i < |ws| ==> IsWord(ws[i])
    requires && ScanInt(ws[2]) == Some(d.day as int) && ScanInt(ws[3]) == Some(d.month as int)
             && ScanInt(ws[4]) == Some(d.year as int) && ScanInt(ws[5]) == Some(d.hour as int)
             && ScanInt(ws[6]) == Some(d.minute as int) && ScanInt(ws[7]) == Some(d.second as int)
    ensures ArgumentsScan(JoinWords(ws))
    ensures Execute(s, JoinWords(ws)) == Outcome(s.(now := d), "")
  {
    TokensOfJoin(ws);
    JoinedHead(ws);
    SetDateTimeHead(ws[0], ws[1]);
    var vals := Scans(ws);
    assert vals[2] == ScanInt(ws[2]) && vals[3] == ScanInt(ws[3]) && vals[4] == ScanInt(ws[4]);
    assert vals[5] == ScanInt(ws[5]) && vals[6] == ScanInt(ws[6]) && vals[7] == ScanInt(ws[7]);
    StoreDateTime(vals, s.now, d);
  }

  /** A string of digits has no space in it. */
  lemma DigitsAreWord(w: string)
    requires w != [] && AllDigits(w)
    ensures IsWord(w)
  {
    assert forall i :: 0 <= i < |w| ==> w[i] != ' ';
  }

  /** `SET DATETIME dd mm yyyy hh mm ss` with two-digit, zero-padded fields,
      as typed at the console (`SET DATETIME 01 02 2030 03 04 05`), sets exactly those values. */
  lemma SetDateTimePadded(s: Settings, d: DateTime, ws: seq<string>)
    requires d.day < 100 && d.month < 100 && d.hour < 100 && d.minute < 100 && d.second < 100
    requires |ws| == 8 && ws[0] == "SET" && ws[1] == "DATETIME"
    requires && ws[2] == TwoDigits(d.day) && ws[3] == TwoDigits(d.month) && ws[4] == FormatInt(d.year)
             && ws[5] == TwoDigits(d.hour) && ws[6] == TwoDigits(d.minute) && ws[7] == TwoDigits(d.second)
    ensures ArgumentsScan(JoinWords(ws))
    ensures Execute(s, JoinWords(ws)) == Outcome(s.(now := d), "")
  {
    ScanTwoDigits(d.day); ScanTwoDigits(d.month); ScanFormat(d.year);
    ScanTwoDigits(d.hour); ScanTwoDigits(d.minute); ScanTwoDigits(d.second);
    PaddedWords(d, ws);
    SetDateTimeOfWords(s, ws, d);
  }

  lemma PaddedWords(d: DateTime, ws: seq<string>)
    requires d.day < 100 && d.month < 100 && d.hour < 100 && d.minute < 100 && d.second < 100
    requires |ws| == 8 && ws[0] == "SET" && ws[1] == "DATETIME"
    requires && ws[2] == TwoDigits(d.day) && ws[3] == TwoDigits(d.month) && ws[4] == FormatInt(d.year)
             && ws[5] == TwoDigits(d.hour) && ws[6] == TwoDigits(d.minute) && ws[7] == TwoDigits(d.second)
    ensures forall i :: 0 <= i < |ws| ==> IsWord(ws[i])
  {
    assert IsWord(ws[0]) && IsWord(ws[1]);
    DigitsAreWord(ws[2]); DigitsAreWord(ws[3]); FormattedIsWord(d.year);
    DigitsAreWord(ws[5]); DigitsAreWord(ws[6]); DigitsAreWord(ws[7]);
  }

  /** `TGL BACKLIGHT` flips the backlight, says so, and a second one restores it. */
  lemma ToggleBacklight(s: Settings, cmd: string)
    requires cmd == "TGL BACKLIGHT"
    ensures ArgumentsScan(cmd)
    ensures Execute(s, cmd) == Outcome(s.(backlight := !s.backlight), BacklightReply)
    ensures Execute(Execute(s, cmd).settings, cmd).settings == s
  {
    assert cmd[0] == 'T';
    NotSet(cmd);
  }

  /** A line that matches no command is answered with the error line and changes nothing. */
  lemma UnknownCommand(s: Settings, cmd: string)
    requires !HasPrefix(cmd, "SET DATETIME") && !HasPrefix(cmd, "SET BIRTHDAY")
    requires cmd != "GET DATETIME" && cmd != "GET BIRTHDAY" && cmd != "TGL BACKLIGHT"
    ensures ArgumentsScan(cmd)
    ensures Execute(s, cmd) == Outcome(s, IncorrectReply)
  {
  }

  // ----- Line assembly in the receive handler -----

  /** The C string a buffer holds: everything before the first NUL byte. */
  function CString(s: string): (r: string)
    ensures |r| <= |s| && r == s[..|r|] && '\0' !in r
    ensures |r| < |s| ==> s[|r|] == '\0'
  {
    if s == [] || s[0] == '\0' then [] else [s[0]] + CString(s[1..])
  }

  /** The buffered line after one byte, and the line handed to `execute_command`, if any. */
  datatype Step = Step(line: string, dispatched: Option<string>)

  /** One byte of the receive handler: '\r' ends the line, '\n' is ignored,
      any other byte is stored, and storing the 33rd byte drops the line. */
  function Feed(line: string, c: char): (st: Step)
    requires |line| <= MaxCommandLen
    ensures |st.line| <= MaxCommandLen
  {
    if c == '\r' then Step([], Some(CString(line)))
    else if c == '\n' then Step(line, None)
    else if |line| + 1 > MaxCommandLen then Step([], None)
    else Step(line + [c], None)
  }

  /** The buffered line after a run of bytes, and the lines dispatched on the way. */
  function FeedAll(line: string, bytes: string): (r: (string, seq<string>))
    requires |line| <= MaxCommandLen
    ensures |r.0| <= MaxCommandLen
    decreases |bytes|
  {
    if bytes == [] then (line, [])
    else
      var st := Feed(line, bytes[0]);
      var rest := FeedAll(st.line, bytes[1..]);
      (rest.0, (if st.dispatched.Some? then [st.dispatched.value] else []) + rest.1)
  }

  lemma {:induction false} CStringWhole(s: string)
    requires '\0' !in s
    ensures CString(s) == s
    decreases |s|
  {
    if s != [] {
      assert s[0] in s;
      assert forall c :: c in s[1..] ==> c in s;
      CStringWhole(s[1..]);
      assert s == [s[0]] + s[1..];
    }
  }

  predicate PlainBytes(bytes: string) {
    forall i :: 0 <= i < |bytes| ==> bytes[i] != '\r' && bytes[i] != '\n'
  }

  /** Bytes other than '\r' and '\n' are appended while the line has room. */
  lemma {:induction false} FeedPlain(line: string, bytes: string)
    requires PlainBytes(bytes) && |line| + |bytes| <= MaxCommandLen
    ensures FeedAll(line, bytes) == (line + bytes, [])
    decreases |bytes|
  {
    if bytes == [] {
      assert line + bytes == line;
    } else {
      var b, tail := bytes[0], bytes[1..];
      assert bytes == [b] + tail;
      assert PlainBytes(tail) by {
        forall i | 0 <= i < |tail| ensures tail[i] != '\r' && tail[i] != '\n' {
          assert tail[i] == bytes[i + 1];
        }
      }
      assert Feed(line, b) == Step(line + [b], None);
      FeedPlain(line + [b], tail);
      var rest := FeedAll(line + [b], tail);
      var none: seq<string> := [];
      assert FeedAll(line, bytes) == (rest.0, none + rest.1);
      assert rest.1 == none && none + none == none;
      assert line + [b] + tail == line + bytes;
    }
  }

  /** A command of at most 32 bytes with no CR, LF or NUL byte, followed by '\r', is dispatched whole.
      At 32 bytes the firmware already writes one past its 32-byte array. */
  lemma AssembleCommand(cmd: string)
    requires PlainBytes(cmd) && '\0' !in cmd && |cmd| <= MaxCommandLen
    ensures FeedAll([], cmd + "\r") == ([], [cmd])
  {
    var empty: string := [];
    var none: seq<string> := [];
    FeedPlain(empty, cmd);
    assert empty + cmd == cmd;
    CStringWhole(cmd);
    assert Feed(cmd, '\r') == Step([], Some(cmd));
    FeedTail(empty, cmd, '\r');
    assert none + [cmd] == [cmd];
  }

  /** A 33-byte line is dropped, and the '\r' after it dispatches an empty command. */
  lemma OverlongLineDropped(cmd: string)
    requires PlainBytes(cmd) && |cmd| == MaxCommandLen + 1
    ensures FeedAll([], cmd) == ([], [])
    ensures FeedAll([], cmd + "\r") == ([], [""])
  {
    var empty: string := [];
    var none: seq<string> := [];
    var head, last := cmd[..MaxCommandLen], cmd[MaxCommandLen];
    assert cmd == head + [last];
    assert last != '\r' && last != '\n';
    assert PlainBytes(head) by {
      forall i | 0 <= i < |head| ensures head[i] != '\r' && head[i] != '\n' {
        assert head[i] == cmd[i];
      }
    }
    FeedPlain(empty, head);
    assert empty + head == head;
    assert Feed(head, last) == Step([], None);
    FeedTail(empty, head, last);
    assert none + none == none;
    assert Feed(empty, '\r') == Step([], Some(""));
    FeedTail(empty, cmd, '\r');
    assert none + [""] == [""];
  }

  /** Feeding a run and then one byte. */
  lemma {:induction false} FeedTail(line: string, bytes: string, c: char)
    requires |line| <= MaxCommandLen
    ensures var before := FeedAll(line, bytes);
            var st := Feed(before.0, c);
            FeedAll(line, bytes + [c])
            == (st.line, before.1 + (if st.dispatched.Some? then [st.dispatched.value] else []))
    decreases |bytes|
  {
    if bytes == [] {
      var st := Feed(line, c);
      var d := if st.dispatched.Some? then [st.dispatched.value] else [];
      assert [] + [c] == [c] && [c][1..] == [];
      assert FeedAll(line, [c]) == (st.line, d + []);
      assert d + [] == [] + d;
    } else {
      var first := Feed(line, bytes[0]);
      var d0 := if first.dispatched.Some? then [first.dispatched.value] else [];
      assert (bytes + [c])[0] == bytes[0];
      assert (bytes + [c])[1..] == bytes[1..] + [c];
      FeedTail(first.line, bytes[1..], c);
      var inner := FeedAll(first.line, bytes[1..]);
      var st := Feed(inner.0, c);
      var tail := if st.dispatched.Some? then [st.dispatched.value] else [];
      assert FeedAll(line, bytes) == (inner.0, d0 + inner.1);
      assert FeedAll(line, bytes + [c]) == (st.line, d0 + (inner.1 + tail));
      assert d0 + (inner.1 + tail) == (d0 + inner.1) + tail;
    }
  }
}
