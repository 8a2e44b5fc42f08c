/** The position readout "MM:SS:mmm": minutes and seconds modulo 60 and
    milliseconds modulo 1000, each zero-padded as printf's "%02d:%02d:%03d" does. */
module PositionFormat {

  /** Milliseconds in an hour: the readout wraps around after this. */
  const HourMillis: nat := 3600000

  function Pow10(n: nat): (r: nat)
    ensures r >= 1
  {
    if n == 0 then 1 else 10 * Pow10(n - 1)
  }

  predicate IsDigit(ch: char) {
    '0' <= ch <= '9'
  }

  predicate AllDigits(s: string) {
    forall i :: 0 <= i < |s| ==> IsDigit(s[i])
  }

  function DigitChar(d: nat): (ch: char)
    requires d < 10
    ensures IsDigit(ch) && ch as int - '0' as int == d
  {
    ('0' as int + d) as char
  }

  /** "%0<width>d" for a value that has at most `width` digits. */
  function ZeroPad(n: nat, width: nat): (s: string)
    requires n < Pow10(width)
    ensures |s| == width && AllDigits(s)
  {
    if width == 0 then [] else ZeroPad(n / 10, width - 1) + [DigitChar(n % 10)]
  }

  /** The value of a string of decimal digits, most significant first. */
  function DecimalValue(s: string): nat
    requires AllDigits(s)
  {
    if s == [] then 0 else 10 * DecimalValue(s[..|s| - 1]) + (s[|s| - 1] as int - '0' as int)
  }

  /** Zero-padding loses nothing: reading the digits back gives the number. */
  lemma {:induction false} ZeroPadValue(n: nat, width: nat)
    requires n < Pow10(width)
    ensures DecimalValue(ZeroPad(n, width)) == n
  {
    if width > 0 {
      var s := ZeroPad(n, width);
      assert s[..|s| - 1] == ZeroPad(n / 10, width - 1);
      ZeroPadValue(n / 10, width - 1);
    }
  }

  /** The three fields of the readout, as the timer computes them from a position. */
  function Minutes(ms: nat): nat { (ms / 60000) % 60 }
  function Seconds(ms: nat): nat { (ms / 1000) % 60 }
  function Millis(ms: nat): nat { ms % 1000 }

  /** A string shaped like the readout: two digits, ':', two digits, ':', three digits. */
  predicate IsReadout(s: string) {
    |s| == 9 && s[2] == ':' && s[5] == ':'
    && AllDigits(s[0..2]) && AllDigits(s[3..5]) && AllDigits(s[6..9])
  }

  /** The value a readout shows, in milliseconds within the hour. */
  function ReadoutValue(s: string): nat
    requires IsReadout(s)
  {
    60000 * DecimalValue(s[0..2]) + 1000 * DecimalValue(s[3..5]) + DecimalValue(s[6..9])
  }

  /** The label text for a position of `ms` milliseconds. */
  function PositionString(ms: nat): (r: string)
    ensures IsReadout(r)
  {
    ZeroPad(Minutes(ms), 2) + ":" + ZeroPad(Seconds(ms), 2) + ":" + ZeroPad(Millis(ms), 3)
  }

  /** Each field of the readout shows its own quantity. */
  lemma PositionFields(ms: nat)
    ensures DecimalValue(PositionString(ms)[0..2]) == Minutes(ms)
    ensures DecimalValue(PositionString(ms)[3..5]) == Seconds(ms)
    ensures DecimalValue(PositionString(ms)[6..9]) == Millis(ms)
  {
    var s := PositionString(ms);
    assert s[0..2] == ZeroPad(Minutes(ms), 2);
    assert s[3..5] == ZeroPad(Seconds(ms), 2);
    assert s[6..9] == ZeroPad(Millis(ms), 3);
    ZeroPadValue(Minutes(ms), 2);
    ZeroPadValue(Seconds(ms), 2);
    ZeroPadValue(Millis(ms), 3);
  }

  /** Euclidean division is determined by its quotient and remainder. */
  lemma DivUnique(a: int, d: int, q: int, r: int)
    requires 0 < d && a == d * q + r && 0 <= r < d
    ensures a / d == q && a % d == r
  {
    var k := q - a / d;
    assert d * k == a % d - r;
  }

  /** Minutes, seconds and milliseconds together recover the position modulo an hour. */
  lemma FieldsRecompose(ms: nat)
    ensures 60000 * Minutes(ms) + 1000 * Seconds(ms) + Millis(ms) == ms % HourMillis
  {
    var secs, millis := ms / 1000, ms % 1000;
    var mins, sec := secs / 60, secs % 60;
    var hours, min := mins / 60, mins % 60;
    assert ms == 60000 * mins + (1000 * sec + millis);
    DivUnique(ms, 60000, mins, 1000 * sec + millis);
    assert Minutes(ms) == min;
    assert ms == HourMillis * hours + (60000 * min + 1000 * sec + millis);
    DivUnique(ms, HourMillis, hours, 60000 * min + 1000 * sec + millis);
  }

  /** The readout shows the position modulo an hour and nothing is lost below that. */
  lemma PositionStringRoundTrip(ms: nat)
    ensures ReadoutValue(PositionString(ms)) == ms % HourMillis
  {
    PositionFields(ms);
    FieldsRecompose(ms);
  }

  /** 125678 milliseconds, that is 2 minutes, 5 seconds and 678 milliseconds. */
  lemma PositionStringExample()
    ensures PositionString(125678) == "02:05:678"
  {
    assert Minutes(125678) == 2 && Seconds(125678) == 5 && Millis(125678) == 678;
    assert ZeroPad(2, 2) == "02";
    assert ZeroPad(5, 2) == "05";
    assert ZeroPad(678, 3) == "678";
  }
}
