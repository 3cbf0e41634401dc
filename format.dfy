/** Decimal text as the firmware produces and reads it: `printf("%d")` and
    `sscanf("%d")`. */
module Format {
  import opened Common

  predicate IsDigit(c: char) {
    '0' <= c <= '9'
  }

  predicate AllDigits(s: string) {
    forall i :: 0 <= i < |s| ==> IsDigit(s[i])
  }

  function DigitChar(n: int): char
    requires 0 <= n < 10
  {
    ('0' as int + n) as char
  }

  /** Decimal digits of `n` without leading zeros. */
  function Digits(n: nat): (s: string)
    ensures 1 <= |s| && AllDigits(s)
    decreases n
  {
    if n < 10 then [DigitChar(n)] else Digits(n / 10) + [DigitChar(n % 10)]
  }

  /** `printf("%d", n)` */
  function FormatInt(n: int): string {
    if n < 0 then "-" + Digits(-n) else Digits(n)
  }

  /** The number a string of digits denotes. */
  function DigitsValue(s: string): nat
    requires AllDigits(s)
  {
    if s == [] then 0 else DigitsValue(s[..|s| - 1]) * 10 + (s[|s| - 1] as int - '0' as int)
  }

  /** The longest run of digits at the start of `s`. */
  function DigitRun(s: string): (r: string)
    ensures AllDigits(r) && |r| <= |s| && r == s[..|r|]
    ensures |r| < |s| ==> !IsDigit(s[|r|])
  {
    if s == [] || !IsDigit(s[0]) then [] else [s[0]] + DigitRun(s[1..])
  }

  /** White space as `isspace` in the C locale. */
  predicate IsSpace(c: char) {
    c == ' ' || c == '\t' || c == '\n' || c == '\r' || c as int == 11 || c as int == 12
  }

  function SkipSpace(s: string): (r: string)
    ensures |r| <= |s| && r == s[|s| - |r|..]
    ensures r != [] ==> !IsSpace(r[0])
  {
    if s != [] && IsSpace(s[0]) then SkipSpace(s[1..]) else s
  }

  /** The digits after the sign: at least one is needed. */
  function ScanUnsigned(t: string): Option<nat> {
    var run := DigitRun(t);
    if run == [] then None else Some(DigitsValue(run))
  }

  /** `sscanf(s, "%d", &n)`: leading white space, an optional sign, then at
      least one digit; `None` where the conversion fails and `n` is left unset. */
  function ScanInt(s: string): Option<int> {
    ScanSigned(SkipSpace(s))
  }

  function ScanSigned(t: string): Option<int> {
    if t != [] && t[0] == '-' then Negated(ScanUnsigned(t[1..]))
    else if t != [] && t[0] == '+' then Widened(ScanUnsigned(t[1..]))
    else Widened(ScanUnsigned(t))
  }

  function Widened(v: Option<nat>): Option<int> {
    if v.None? then None else Some(v.value)
  }

  function Negated(v: Option<nat>): Option<int> {
    if v.None? then None else Some(-(v.value as int))
  }

  lemma {:induction false} DigitsValueOfDigits(n: nat)
    ensures DigitsValue(Digits(n)) == n
    decreases n
  {
    if n >= 10 {
      var s := Digits(n);
      assert s[..|s| - 1] == Digits(n / 10);
      DigitsValueOfDigits(n / 10);
    }
  }

  lemma {:induction false} RunOfDigits(s: string)
    requires s != [] && AllDigits(s)
    ensures DigitRun(s) == s && SkipSpace(s) == s
  {
    assert IsDigit(s[0]);
  }

  lemma {:induction false} ScanUnsignedDigits(s: string)
    requires s != [] && AllDigits(s)
    ensures ScanUnsigned(s) == Some(DigitsValue(s))
  {
    RunOfDigits(s);
  }

  lemma {:induction false} ScanDigitString(s: string)
    requires s != [] && AllDigits(s)
    ensures ScanInt(s) == Some(DigitsValue(s) as int)
  {
    RunOfDigits(s);
    ScanUnsignedDigits(s);
    assert !(s[0] == '-' || s[0] == '+');
  }

  lemma {:induction false} ScanNegative(n: nat)
    ensures ScanInt("-" + Digits(n)) == Some(-(n as int))
  {
    var s := Digits(n);
    ScanUnsignedDigits(s);
    DigitsValueOfDigits(n);
    var m := "-" + s;
    assert SkipSpace(m) == m;
    assert m[1..] == s;
  }

  lemma {:induction false} ScanNonNegative(n: nat)
    ensures ScanInt(Digits(n)) == Some(n as int)
  {
    ScanDigitString(Digits(n));
    DigitsValueOfDigits(n);
  }

  /** What `%d` prints, `%d` reads back. */
  lemma {:induction false} ScanFormat(n: int)
    ensures ScanInt(FormatInt(n)) == Some(n)
  {
    if n < 0 {
      ScanNegative(-n);
    } else {
      ScanNonNegative(n);
    }
  }

  /** `sscanf` accepts a zero-padded number, as typed in `SET DATETIME 01 02 …`. */
  lemma {:induction false} ScanPadded(n: nat)
    ensures ScanInt("0" + Digits(n)) == Some(n)
  {
    var s := "0" + Digits(n);
    ScanDigitString(s);
    DigitsValueOfDigits(n);
    LeadingZero(Digits(n));
  }

  lemma {:induction false} LeadingZero(s: string)
    requires AllDigits(s)
    ensures DigitsValue("0" + s) == DigitsValue(s)
    decreases |s|
  {
    if s != [] {
      assert ("0" + s)[..|s|] == "0" + s[..|s| - 1];
      LeadingZero(s[..|s| - 1]);
    }
  }

  /** Exactly two decimal digits. */
  function TwoDigits(n: int): (s: string)
    requires 0 <= n < 100
    ensures |s| == 2 && AllDigits(s)
  {
    [DigitChar(n / 10), DigitChar(n % 10)]
  }

  /** Two digits denote the number they were made from. */
  lemma TwoDigitsValue(n: int)
    requires 0 <= n < 100
    ensures DigitsValue(TwoDigits(n)) == n
  {
    var s := TwoDigits(n);
    assert s[..1] == [DigitChar(n / 10)];
    assert s[..1][..0] == [];
    assert DigitsValue(s[..1]) == n / 10;
  }

  /** `sscanf("%d")` reads a zero-padded two-digit field back. */
  lemma {:induction false} ScanTwoDigits(n: int)
    requires 0 <= n < 100
    ensures ScanInt(TwoDigits(n)) == Some(n)
  {
    ScanDigitString(TwoDigits(n));
    TwoDigitsValue(n);
  }
}
