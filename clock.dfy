/** `formatTime`: the transport's `minutes:seconds` readout, and a reader of
    that format used to state what the readout means. Arithmetic is on exact
    reals; JavaScript's `%` truncates toward zero, which is written out. */
module Clock {

  import opened Wrappers

  predicate IsDigit(c: char)
  {
    '0' <= c <= '9'
  }

  function DigitChar(d: int): (c: char)
    requires 0 <= d < 10
    ensures IsDigit(c)
  {
    ('0' as int + d) as char
  }

  function DigitValue(c: char): (d: nat)
    requires IsDigit(c)
    ensures d < 10
  {
    c as int - '0' as int
  }

  /** The decimal numeral of a non-negative integer, without leading zeros. */
  function Decimal(n: nat): (s: string)
    ensures |s| >= 1
    ensures (|s| == 1) == (n < 10)
    ensures |s| == 1 ==> s[0] == DigitChar(n)
  {
    if n < 10 then [DigitChar(n)] else Decimal(n / 10) + [DigitChar(n % 10)]
  }

  /** `Number.prototype.toString` on an integral value. */
  function IntString(i: int): (s: string)
    ensures |s| >= 1
    ensures i >= 0 ==> ReadDigits(s) == Some(i as nat)
    ensures i < 0 ==> s[0] == '-' && ReadDigits(s[1..]) == Some(-i as nat)
  {
    DecimalRoundTrip(if i >= 0 then i else -i);
    if i >= 0 then Decimal(i) else "-" + Decimal(-i)
  }

  /** `String.prototype.padStart(n, c)`: `s` left-filled with `c` up to length `n`. */
  function PadStart(s: string, n: nat, c: char): (r: string)
    ensures |r| == if |s| < n then n else |s|
    ensures r[|r| - |s|..] == s
    ensures forall k :: 0 <= k < |r| - |s| ==> r[k] == c
  {
    if |s| < n then seq(n - |s|, _ => c) + s else s
  }

  /** A positive scale keeps the sign of what it multiplies. */
  lemma ScaleSign(m: real, d: real)
    requires m > 0.0
    ensures d > 0.0 ==> m * d > 0.0
    ensures d >= 0.0 ==> m * d >= 0.0
  {
  }

  /** r = m·d with m positive and d in [0, 1): r is in [0, m). */
  lemma UpperBand(m: real, d: real, r: real)
    requires m > 0.0 && r == m * d && 0.0 <= d < 1.0
    ensures 0.0 <= r < m
  {
    ScaleSign(m, d);
    ScaleSign(m, 1.0 - d);
    assert m * (1.0 - d) == m - r;
  }

  /** r = m·d with m positive and d in (-1, 0]: r is in (-m, 0]. */
  lemma LowerBand(m: real, d: real, r: real)
    requires m > 0.0 && r == m * d && -1.0 < d <= 0.0
    ensures -m < r <= 0.0
  {
    ScaleSign(m, 1.0 + d);
    ScaleSign(m, 0.0 - d);
    assert m * (1.0 + d) == m + r;
    assert m * (0.0 - d) == 0.0 - r;
  }

  /** r = m·d with m positive: d within one unit above (below) zero puts r
      within m above (below) zero. */
  lemma ScaledWithin(m: real, d: real, r: real)
    requires m > 0.0 && r == m * d
    ensures 0.0 <= d < 1.0 ==> 0.0 <= r < m
    ensures -1.0 < d <= 0.0 ==> -m < r <= 0.0
  {
    if 0.0 <= d < 1.0 {
      UpperBand(m, d, r);
    }
    if -1.0 < d <= 0.0 {
      LowerBand(m, d, r);
    }
  }

  /** For a positive m, a quotient x / m within one unit above (below) k
      leaves a remainder x - m·k within m above (below) zero. */
  lemma RemainderBetween(k: real, x: real, m: real)
    requires m > 0.0
    ensures k <= x / m < k + 1.0 ==> 0.0 <= x - m * k < m
    ensures k - 1.0 < x / m <= k ==> -m < x - m * k <= 0.0
  {
    var d := x / m - k;
    assert x - m * k == m * d;
    ScaledWithin(m, d, x - m * k);
  }

  /** Truncation toward zero of a real. */
  function Trunc(x: real): int
  {
    if x >= 0.0 then x.Floor else -((-x).Floor)
  }

  /** JavaScript's remainder `x % m`: the sign follows the dividend, and for a
      positive modulus the magnitude stays below it. */
  function JsRemainder(x: real, m: real): (r: real)
    requires m != 0.0
    ensures m > 0.0 && x >= 0.0 ==> 0.0 <= r < m
    ensures m > 0.0 && x < 0.0 ==> -m < r <= 0.0
  {
    var q := x / m;
    var k := Trunc(q);
    assert m > 0.0 && x >= 0.0 ==> k as real <= q < k as real + 1.0;
    assert m > 0.0 && x < 0.0 ==> k as real - 1.0 < q <= k as real;
    assert m > 0.0 ==> (0.0 <= x ==> 0.0 <= x - m * (k as real) < m) &&
                       (x < 0.0 ==> -m < x - m * (k as real) <= 0.0) by {
      if m > 0.0 { RemainderBetween(k as real, x, m); }
    }
    x - m * (k as real)
  }

  /** `Math.floor(time / 60)`. */
  function MinutesOf(t: real): int
  {
    (t / 60.0).Floor
  }

  /** `Math.floor(time % 60)`. */
  function SecondsOf(t: real): int
  {
    JsRemainder(t, 60.0).Floor
  }

  /** The template `${minutes}:${seconds.toString().padStart(2, '0')}`. */
  function Readout(minutes: int, seconds: int): string
  {
    IntString(minutes) + ":" + PadStart(IntString(seconds), 2, '0')
  }

  /** `formatTime(time)`: at least one minute character, a colon and a seconds
      field of at least two; for t >= 0 the seconds field is exactly two
      characters after the colon. */
  function FormatTime(t: real): (r: string)
    ensures |r| >= 4
    ensures t >= 0.0 ==> r[|r| - 3] == ':'
  {
    assert t >= 0.0 ==> 0 <= SecondsOf(t) < 60 by {
      if t >= 0.0 { SecondsOfMinute(t); }
    }
    Readout(MinutesOf(t), SecondsOf(t))
  }

  /** The value of a string of decimal digits (0 for the empty string), or None
      when some character is not a digit. */
  function ReadDigits(s: string): Option<nat>
  {
    if |s| == 0 then Some(0)
    else if !IsDigit(s[|s| - 1]) then None
    else match ReadDigits(s[..|s| - 1])
         case None => None
         case Some(v) => Some(v * 10 + DigitValue(s[|s| - 1]))
  }

  /** Reads an `m:ss` clock back as a whole number of seconds: digits, a colon,
      then exactly two digits below 60. */
  function ParseClock(s: string): Option<nat>
  {
    if |s| < 4 || s[|s| - 3] != ':' then None
    else match (ReadDigits(s[..|s| - 3]), ReadDigits(s[|s| - 2..]))
         case (Some(m), Some(sec)) => if sec < 60 then Some(m * 60 + sec) else None
         case _ => None
  }

  /** The two-character seconds field of a clock. */
  function TwoDigits(s: nat): string
    requires s < 100
  {
    [DigitChar(s / 10), DigitChar(s % 10)]
  }

  lemma DigitRoundTrip(d: int)
    requires 0 <= d < 10
    ensures DigitValue(DigitChar(d)) == d
  {
  }

  lemma {:induction false} DecimalRoundTrip(n: nat)
    ensures ReadDigits(Decimal(n)) == Some(n)
  {
    var s := Decimal(n);
    if n < 10 {
      assert s[..0] == [];
      DigitRoundTrip(n);
    } else {
      assert s[..|s| - 1] == Decimal(n / 10);
      assert s[|s| - 1] == DigitChar(n % 10);
      DecimalRoundTrip(n / 10);
      DigitRoundTrip(n % 10);
    }
  }

  /** The two-character field reads back as its value. */
  lemma TwoDigitsValue(s: nat)
    requires s < 100
    ensures ReadDigits(TwoDigits(s)) == Some(s)
  {
    var w := TwoDigits(s);
    assert w[..1] == [DigitChar(s / 10)];
    assert w[..1][..0] == [];
    DigitRoundTrip(s / 10);
    DigitRoundTrip(s % 10);
    assert ReadDigits(w[..1]) == Some(s / 10);
  }

  /** For t >= 0 the minute count is non-negative and `t % 60` floors to the
      seconds within that minute. */
  lemma SecondsOfMinute(t: real)
    requires t >= 0.0
    ensures MinutesOf(t) >= 0 && 0 <= SecondsOf(t) < 60
    ensures MinutesOf(t) * 60 + SecondsOf(t) == t.Floor
  {
    var m := (t / 60.0).Floor;
    assert Trunc(t / 60.0) == m;
    var rem := t - (60 * m) as real;
    assert JsRemainder(t, 60.0) == rem;
    assert 0.0 <= rem < 60.0;
    assert rem.Floor + 60 * m == t.Floor;
  }

  /** A seconds count below 60, padded to two characters, is its two digits. */
  lemma PaddedSeconds(s: nat)
    requires s < 60
    ensures PadStart(Decimal(s), 2, '0') == TwoDigits(s)
  {
    if s < 10 {
      var d := Decimal(s);
      assert d == [DigitChar(s)];
      assert s / 10 == 0 && s % 10 == s;
      assert DigitChar(0) == '0';
      assert PadStart(d, 2, '0') == ['0'] + d;
    } else {
      var hi := s / 10;
      assert 1 <= hi < 10;
      assert Decimal(hi) == [DigitChar(hi)];
      assert Decimal(s) == [DigitChar(hi)] + [DigitChar(s % 10)];
    }
  }

  /** With a non-negative minute count and seconds below 60 the template
      yields the decimal minutes, a colon and exactly two second digits. */
  lemma ReadoutLayout(m: int, s: int)
    requires m >= 0 && 0 <= s < 60
    ensures Readout(m, s) == Decimal(m) + ":" + TwoDigits(s)
  {
    PaddedSeconds(s);
  }

  /** For a non-negative time the readout is the decimal minute count, a colon
      and the seconds within the minute as exactly two digits below 60. */
  lemma FormatTimeFields(t: real)
    requires t >= 0.0
    ensures var m := MinutesOf(t);
            var s := SecondsOf(t);
            0 <= m && 0 <= s < 60 && m * 60 + s == t.Floor &&
            FormatTime(t) == Decimal(m) + ":" + TwoDigits(s)
  {
    SecondsOfMinute(t);
    ReadoutLayout(MinutesOf(t), SecondsOf(t));
  }

  /** The reader inverts the `m:ss` layout. */
  lemma ParseClockLayout(shown: string, m: nat, s: nat, n: nat)
    requires s < 60 && n == m * 60 + s && shown == Decimal(m) + ":" + TwoDigits(s)
    ensures ParseClock(shown) == Some(n)
  {
    assert shown[..|shown| - 3] == Decimal(m);
    assert shown[|shown| - 2..] == TwoDigits(s);
    assert shown[|shown| - 3] == ':';
    DecimalRoundTrip(m);
    TwoDigitsValue(s);
  }

  /** Reading the readout back gives the elapsed whole seconds: the display is
      floor-truncated and never rounds. */
  lemma ClockRoundTrip(t: real)
    requires t >= 0.0
    ensures t.Floor >= 0 && ParseClock(FormatTime(t)) == Some(t.Floor as nat)
  {
    SecondsOfMinute(t);
    ReadSame(FormatTime(t), MinutesOf(t), SecondsOf(t), t.Floor);
  }

  /** The integer half of `ClockRoundTrip`, stated over plain integers so that
      the solver does not mix them with the real-valued field definitions. */
  lemma ReadSame(shown: string, m: int, s: int, n: int)
    requires m >= 0 && 0 <= s < 60 && m * 60 + s == n && shown == Readout(m, s)
    ensures n >= 0 && ParseClock(shown) == Some(n as nat)
  {
    ReadoutLayout(m, s);
    assert shown == Decimal(m) + ":" + TwoDigits(s);
    ParseClockLayout(shown, m, s, n);
  }

  /** `Math.floor(time / 60)` and `Math.floor(time % 60)` of the three sample times. */
  lemma SampleFields()
    ensures MinutesOf(65.0) == 1 && SecondsOf(65.0) == 5
    ensures MinutesOf(5.0) == 0 && SecondsOf(5.0) == 5
    ensures MinutesOf(0.0) == 0 && SecondsOf(0.0) == 0
  {
    SecondsOfMinute(65.0);
    SecondsOfMinute(5.0);
    SecondsOfMinute(0.0);
  }

  lemma FormatTimeExamples()
    ensures FormatTime(65.0) == "1:05"
    ensures FormatTime(5.0) == "0:05"
    ensures FormatTime(0.0) == "0:00"
  {
    SampleFields();
    assert Readout(1, 5) == "1:05";
    assert Readout(0, 5) == "0:05";
    assert Readout(0, 0) == "0:00";
  }
}
