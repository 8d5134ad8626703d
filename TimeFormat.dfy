/**
 * `formatTime` of the editor hook: seconds to "M:SS.mmm".
 * Time is an exact `real`; the source computes on floating-point numbers.
 */
module TimeFormat {
  import opened Wrappers

  // ---------------------------------------------------------------------
  // Decimal digits: Number#toString for non-negative integers, and its inverse

  predicate IsDigit(c: char) { '0' <= c <= '9' }

  predicate AllDigits(s: string) { forall i :: 0 <= i < |s| ==> IsDigit(s[i]) }

  function DigitChar(d: nat): (c: char)
    requires d < 10
    ensures IsDigit(c)
  {
    ('0' as int + d) as char
  }

  function DigitValue(c: char): nat
    requires IsDigit(c)
  {
    c as int - '0' as int
  }

  function Pow10(k: nat): nat
  {
    if k == 0 then 1 else 10 * Pow10(k - 1)
  }

  /** The decimal numeral of `n`: only digits, and no leading zero except for "0" itself. */
  function DecimalString(n: nat): (r: string)
    ensures 1 <= |r| && AllDigits(r)
    ensures r[0] == '0' <==> n == 0
  {
    if n < 10 then [DigitChar(n)] else DecimalString(n / 10) + [DigitChar(n % 10)]
  }

  /** The value of a digit string, most significant digit first. */
  function ParseDecimal(s: string): nat
    requires AllDigits(s)
  {
    if s == [] then 0 else 10 * ParseDecimal(s[..|s| - 1]) + DigitValue(s[|s| - 1])
  }

  lemma {:induction false} ParseDecimalString(n: nat)
    ensures ParseDecimal(DecimalString(n)) == n
  {
    if n < 10 {
      assert DecimalString(n)[..0] == [];
    } else {
      var r := DecimalString(n);
      assert r[..|r| - 1] == DecimalString(n / 10);
      ParseDecimalString(n / 10);
    }
  }

  /** A number below 10^k has at most k digits. */
  lemma {:induction false} DecimalStringFits(n: nat, k: nat)
    requires 1 <= k && n < Pow10(k)
    ensures |DecimalString(n)| <= k
  {
    if n >= 10 {
      assert k >= 2;
      DecimalStringFits(n / 10, k - 1);
    }
  }

  // ---------------------------------------------------------------------
  // String.prototype.padStart with a one-character filler

  function Repeat(c: char, k: nat): (r: string)
    ensures |r| == k && forall i :: 0 <= i < k ==> r[i] == c
  {
    if k == 0 then [] else Repeat(c, k - 1) + [c]
  }

  /** `s.padStart(width, c)`: left-fills `s` with `c` up to `width`; a longer `s` is kept whole. */
  function PadStart(s: string, width: nat, c: char): (r: string)
    ensures |r| == if |s| >= width then |s| else width
    ensures r[|r| - |s|..] == s
    ensures forall i :: 0 <= i < |r| - |s| ==> r[i] == c
  {
    if |s| >= width then s else Repeat(c, width - |s|) + s
  }

  lemma {:induction false} ZerosParseToZero(k: nat)
    ensures AllDigits(Repeat('0', k)) && ParseDecimal(Repeat('0', k)) == 0
  {
    if k > 0 {
      var z := Repeat('0', k);
      assert z[..k - 1] == Repeat('0', k - 1);
      ZerosParseToZero(k - 1);
    }
  }

  lemma {:induction false} ParseLeadingZeros(k: nat, s: string)
    requires AllDigits(s)
    ensures AllDigits(Repeat('0', k) + s)
    ensures ParseDecimal(Repeat('0', k) + s) == ParseDecimal(s)
    decreases |s|
  {
    var z := Repeat('0', k);
    if s == [] {
      assert z + s == z;
      ZerosParseToZero(k);
    } else {
      var t := z + s;
      assert t[..|t| - 1] == z + s[..|s| - 1];
      ParseLeadingZeros(k, s[..|s| - 1]);
    }
  }

  /** Zero-padding a numeral keeps it a digit string of the same value. */
  lemma ParsePadded(n: nat, width: nat)
    ensures 1 <= |PadStart(DecimalString(n), width, '0')|
    ensures AllDigits(PadStart(DecimalString(n), width, '0'))
    ensures ParseDecimal(PadStart(DecimalString(n), width, '0')) == n
  {
    var s := DecimalString(n);
    ParseDecimalString(n);
    if |s| < width {
      ParseLeadingZeros(width - |s|, s);
    }
  }

  // ---------------------------------------------------------------------
  // The clock reading and its rendering

  /** JavaScript's conversion toward zero, which `%` uses. */
  function Trunc(x: real): int
  {
    if x >= 0.0 then x.Floor else -((-x).Floor)
  }

  /** The floored remainder `x - m * floor(x / m)`, the `mod` of mathematics. */
  function FlooredRemainder(x: real, m: real): real
    requires m != 0.0
  {
    x - m * ((x / m).Floor as real)
  }

  /**
   * JavaScript's `x % m`: the remainder takes the sign of `x`. For a positive
   * divisor it is the floored remainder of `x` when `x >= 0`, and the negated
   * floored remainder of `-x` when `x < 0`.
   */
  function JsRemainder(x: real, m: real): (r: real)
    requires m != 0.0
    ensures m > 0.0 && x >= 0.0 ==> r == FlooredRemainder(x, m)
    ensures m > 0.0 && x < 0.0 ==> r == -FlooredRemainder(-x, m)
  {
    if m > 0.0 then
      QuotientSign(x, m);
      x - m * (Trunc(x / m) as real)
    else
      x - m * (Trunc(x / m) as real)
  }

  /** Dividing by a positive `m` keeps the sign of `x`, and negating `x` negates the quotient. */
  lemma QuotientSign(x: real, m: real)
    requires m > 0.0
    ensures x >= 0.0 <==> x / m >= 0.0
    ensures -(x / m) == -x / m
  {
    assert x == m * (x / m);
  }

  datatype Clock = Clock(minutes: nat, seconds: nat, millis: nat)

  lemma ClockArithmetic(t: real)
    requires t >= 0.0
    ensures 0 <= (t / 60.0).Floor
    ensures 0 <= JsRemainder(t, 60.0).Floor < 60
    ensures 0 <= (JsRemainder(t, 1.0) * 1000.0).Floor < 1000
    ensures 60000 * (t / 60.0).Floor + 1000 * JsRemainder(t, 60.0).Floor
            + (JsRemainder(t, 1.0) * 1000.0).Floor == (t * 1000.0).Floor
  {
    var m := (t / 60.0).Floor;
    var f := t.Floor;
    var g := (t * 1000.0).Floor;
    assert JsRemainder(t, 60.0) == t - 60.0 * m as real;
    assert JsRemainder(t, 1.0) == t - f as real;
    assert JsRemainder(t, 60.0).Floor == f - 60 * m;
    assert (JsRemainder(t, 1.0) * 1000.0) == t * 1000.0 - (1000 * f) as real;
    assert (JsRemainder(t, 1.0) * 1000.0).Floor == g - 1000 * f;
  }

  /** The three floors `formatTime` takes of a non-negative time in seconds. */
  function ClockOf(t: real): (c: Clock)
    requires t >= 0.0
    ensures c.minutes == (t / 60.0).Floor
    ensures c.seconds < 60 && c.millis < 1000
    ensures 60000 * c.minutes + 1000 * c.seconds + c.millis == (t * 1000.0).Floor
  {
    ClockArithmetic(t);
    Clock((t / 60.0).Floor, JsRemainder(t, 60.0).Floor, (JsRemainder(t, 1.0) * 1000.0).Floor)
  }

  /** `r` is the numeral `m`, ':', exactly two digits, '.', and exactly three digits. */
  predicate ClockShaped(r: string, m: string)
  {
      && |r| == |m| + 7
      && r[..|m|] == m
      && r[|m|] == ':' && AllDigits(r[|m| + 1..|m| + 3])
      && r[|m| + 3] == '.' && AllDigits(r[|m| + 4..])
  }

  // ---------------------------------------------------------------------
  // Reading a rendering back

  /** The first position of `c` in `s`, if any. */
  function IndexOf(s: string, c: char): (r: Option<nat>)
    ensures r.Some? ==> r.value < |s| && s[r.value] == c
    ensures r.Some? ==> forall i :: 0 <= i < r.value ==> s[i] != c
    ensures r.None? ==> forall i :: 0 <= i < |s| ==> s[i] != c
  {
    if s == [] then None
    else if s[0] == c then Some(0)
    else match IndexOf(s[1..], c)
      case None => None
      case Some(i) => Some(i + 1)
  }

  /** Splits "M:SS.mmm" at the first ':' and the first '.' after it. */
  function ParseClock(s: string): Option<Clock>
  {
    match IndexOf(s, ':')
    case None => None
    case Some(i) =>
      match IndexOf(s[i + 1..], '.')
      case None => None
      case Some(j) => ClockFromParts(s[..i], s[i + 1..][..j], s[i + 1..][j + 1..])
  }

  /** The clock spelled by three parts, each of which must be a non-empty digit string. */
  function ClockFromParts(m: string, sec: string, ms: string): Option<Clock>
  {
    if m != [] && sec != [] && ms != [] && AllDigits(m) && AllDigits(sec) && AllDigits(ms)
    then Some(Clock(ParseDecimal(m), ParseDecimal(sec), ParseDecimal(ms)))
    else None
  }

  lemma SeparatorAfterDigits(a: string, sep: char, b: string)
    requires AllDigits(a) && !IsDigit(sep)
    ensures IndexOf(a + [sep] + b, sep) == Some(|a|)
  {
    assert (a + [sep] + b)[|a|] == sep;
  }

  /** The two sides of a separator, taken back out of the joined string. */
  lemma AroundSeparator(a: string, sep: char, b: string)
    ensures (a + [sep] + b)[..|a|] == a
    ensures (a + [sep] + b)[|a| + 1..] == b
  {
  }

  /** `ParseClock` once both separators have been found. */
  lemma ParseClockAt(s: string, i: nat, j: nat)
    requires IndexOf(s, ':') == Some(i)
    requires IndexOf(s[i + 1..], '.') == Some(j)
    ensures ParseClock(s) == ClockFromParts(s[..i], s[i + 1..][..j], s[i + 1..][j + 1..])
  {
  }

  /** Three non-empty digit strings joined by ':' and '.' split back into themselves. */
  lemma SplitJoined(m: string, sec: string, ms: string)
    requires m != [] && sec != [] && ms != []
    requires AllDigits(m) && AllDigits(sec) && AllDigits(ms)
    ensures ParseClock(m + ":" + sec + "." + ms)
         == Some(Clock(ParseDecimal(m), ParseDecimal(sec), ParseDecimal(ms)))
  {
    var rest := sec + ['.'] + ms;
    var s := m + [':'] + rest;
    assert m + ":" + sec + "." + ms == s;
    SeparatorAfterDigits(m, ':', rest);
    AroundSeparator(m, ':', rest);
    SeparatorAfterDigits(sec, '.', ms);
    AroundSeparator(sec, '.', ms);
    ParseClockAt(s, |m|, |sec|);
  }

  /**
   * "M:SS.mmm": minutes unpadded, seconds padded to 2 digits, milliseconds
   * to 3. Every rendering reads back to the clock it was rendered from.
   */
  function Show(c: Clock): (r: string)
    ensures ParseClock(r) == Some(c)
  {
    var m := DecimalString(c.minutes);
    var sec := PadStart(DecimalString(c.seconds), 2, '0');
    var ms := PadStart(DecimalString(c.millis), 3, '0');
    ParseDecimalString(c.minutes);
    ParsePadded(c.seconds, 2);
    ParsePadded(c.millis, 3);
    SplitJoined(m, sec, ms);
    m + ":" + sec + "." + ms
  }

  /** With seconds below 60 and milliseconds below 1000, the rendering is "M:SS.mmm" with fixed widths. */
  lemma ShowShape(c: Clock)
    requires c.seconds < 60 && c.millis < 1000
    ensures ClockShaped(Show(c), DecimalString(c.minutes))
  {
    var m := DecimalString(c.minutes);
    var sec := PadStart(DecimalString(c.seconds), 2, '0');
    var ms := PadStart(DecimalString(c.millis), 3, '0');
    DecimalStringFits(c.seconds, 2);
    DecimalStringFits(c.millis, 3);
    assert |sec| == 2 && |ms| == 3;
    ParsePadded(c.seconds, 2);
    ParsePadded(c.millis, 3);
    assert Show(c) == m + ":" + sec + "." + ms;
    JoinedShape(m, sec, ms);
  }

  lemma JoinedShape(m: string, sec: string, ms: string)
    requires |sec| == 2 && |ms| == 3 && AllDigits(sec) && AllDigits(ms)
    ensures ClockShaped(m + ":" + sec + "." + ms, m)
  {
    var r := m + ":" + sec + "." + ms;
    assert r[|m| + 1..|m| + 3] == sec;
    assert r[|m| + 4..] == ms;
  }

  // ---------------------------------------------------------------------
  // formatTime

  /**
   * `formatTime(t)` for `t >= 0`: the minutes numeral, ':', exactly two digits
   * of seconds, '.', exactly three digits of milliseconds; splitting it at
   * ':' and '.' gives back the clock of `t`.
   */
  function FormatTime(t: real): (r: string)
    requires t >= 0.0
    ensures ClockShaped(r, DecimalString(ClockOf(t).minutes))
  {
    ShowShape(ClockOf(t));
    Show(ClockOf(t))
  }

  /**
   * Splitting the output at ':' and '.' recovers minutes, seconds and
   * milliseconds, with m = floor(t / 60), s < 60, ms < 1000, and
   * 60000 m + 1000 s + ms = floor(1000 t) under exact arithmetic.
   */
  lemma FormatTimeRoundTrip(t: real)
    requires t >= 0.0
    ensures ParseClock(FormatTime(t)) == Some(ClockOf(t))
    ensures var c := ParseClock(FormatTime(t)).value;
      && c.minutes == (t / 60.0).Floor
      && c.seconds < 60 && c.millis < 1000
      && 60000 * c.minutes + 1000 * c.seconds + c.millis == (t * 1000.0).Floor
  {
  }

  /** `formatTime(t)` assembled from the numerals of the clock of `t`. */
  lemma FormatTimeFrom(t: real, c: Clock, m: string, sec: string, ms: string)
    requires t >= 0.0 && ClockOf(t) == c
    requires DecimalString(c.minutes) == m
    requires PadStart(DecimalString(c.seconds), 2, '0') == sec
    requires PadStart(DecimalString(c.millis), 3, '0') == ms
    ensures FormatTime(t) == m + ":" + sec + "." + ms
  {
  }

  lemma NumeralExamples()
    ensures DecimalString(0) == "0" && DecimalString(1) == "1"
    ensures DecimalString(15) == "15" && DecimalString(250) == "250"
  {
    assert DecimalString(1) == "1";
    assert DecimalString(5) == "5";
    assert DecimalString(2) == "2";
    assert DecimalString(25) == "25";
  }

  lemma PadExamples()
    ensures PadStart("0", 2, '0') == "00" && PadStart("0", 3, '0') == "000"
    ensures PadStart("15", 2, '0') == "15" && PadStart("250", 3, '0') == "250"
  {
    assert Repeat('0', 1) == "0";
    assert Repeat('0', 2) == "00";
  }

  /** formatTime(0) is "0:00.000". */
  lemma FormatTimeOfZero(t: real)
    requires t == 0.0
    ensures FormatTime(t) == "0:00.000"
  {
    var c := ClockOf(t);
    assert c == Clock(0, 0, 0);
    NumeralExamples();
    PadExamples();
    FormatTimeFrom(t, c, "0", "00", "000");
  }

  /** formatTime(75.25) is "1:15.250". */
  lemma FormatTimeOfSample(t: real)
    requires t == 75.25
    ensures FormatTime(t) == "1:15.250"
  {
    var c := ClockOf(t);
    assert c == Clock(1, 15, 250);
    NumeralExamples();
    PadExamples();
    FormatTimeFrom(t, c, "1", "15", "250");
  }
}
