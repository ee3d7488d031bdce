/**
 * The `m:ss` clock displays of the editor, the timeline and the preview page.
 * All three compute `Math.floor(t / 60)` and `Math.floor(t % 60)`, where `%`
 * is JavaScript's remainder (it truncates toward zero, so it is negative for
 * a negative `t`), and render the two integers with `toString` and
 * `padStart(2, '0')`.
 */
module TimeFormat {
  import opened Common
  import opened Strings

  /** JavaScript's truncation toward zero. */
  function Trunc(x: real): (r: int)
    ensures x >= 0.0 ==> r == x.Floor
    ensures x < 0.0 ==> r == -((-x).Floor)
  {
    if x >= 0.0 then x.Floor else -((-x).Floor)
  }

  /** `a % b` on JavaScript numbers: the remainder carries the sign of `a`. */
  function JsRem(a: real, b: real): (r: real)
    requires b > 0.0
    ensures a >= 0.0 ==> 0.0 <= r < b
    ensures a < 0.0 ==> -b < r <= 0.0
  {
    var k := Trunc(a / b);
    RemBounds(a, b, k);
    a - b * (k as real)
  }

  /** The remainder left by the truncated quotient lies between -b and b, on the side of `a`. */
  lemma RemBounds(a: real, b: real, k: int)
    requires b > 0.0 && k == Trunc(a / b)
    ensures a >= 0.0 ==> 0.0 <= a - b * (k as real) < b
    ensures a < 0.0 ==> -b < a - b * (k as real) <= 0.0
  {
    assert (a / b) * b == a;
    if a >= 0.0 {
      assert a / b >= 0.0;
      RemOfFraction(a, b, a / b, k as real);
    } else {
      assert a / b < 0.0;
      RemOfFraction(-a, b, -(a / b), -(k as real));
    }
  }

  /** With `a = q·b` and `q - k` in [0, 1), the remainder `a - b·k` lies in [0, b). */
  lemma RemOfFraction(a: real, b: real, q: real, k: real)
    requires b > 0.0 && q * b == a && 0.0 <= q - k < 1.0
    ensures 0.0 <= a - b * k < b
  {
    var d := q - k;
    assert a - b * k == d * b;
    assert 0.0 <= d * b < b by {
      if d > 0.0 {
        assert d * b < 1.0 * b;
      }
    }
  }

  /** Shifting by a whole number shifts the floor by the same amount. */
  lemma FloorShift(x: real, k: int)
    ensures (x - k as real).Floor == x.Floor - k
  {
  }

  /** The pair (`Math.floor(t / 60)`, `Math.floor(t % 60)`). */
  function MinutesSeconds(t: real): (int, int)
  {
    ((t / 60.0).Floor, JsRem(t, 60.0).Floor)
  }

  /**
   * For a time that is not negative, the pair is whole minutes and the
   * seconds left over: seconds in [0, 60) and 60·minutes + seconds is the
   * whole number of seconds in `t`.
   */
  lemma MinutesSecondsSplit(t: real)
    requires t >= 0.0
    ensures MinutesSeconds(t).0 >= 0
    ensures 0 <= MinutesSeconds(t).1 < 60
    ensures 60 * MinutesSeconds(t).0 + MinutesSeconds(t).1 == t.Floor
  {
    var m := (t / 60.0).Floor;
    assert Trunc(t / 60.0) == m;
    assert JsRem(t, 60.0) == t - 60.0 * m as real;
    FloorShift(t, 60 * m);
  }

  /** `${minutes}:${seconds.toString().padStart(2, '0')}` (minutes unpadded). */
  function FormatClock(t: real): string
  {
    var (m, s) := MinutesSeconds(t);
    IntToString(m) + ":" + Pad2(IntToString(s))
  }

  /** `${mins.padStart(2, '0')}:${secs.padStart(2, '0')}` (both fields padded). */
  function FormatClockPadded(t: real): string
  {
    var (m, s) := MinutesSeconds(t);
    Pad2(IntToString(m)) + ":" + Pad2(IntToString(s))
  }

  predicate AllDigits(s: string) {
    forall i :: 0 <= i < |s| ==> IsDigit(s[i])
  }

  /**
   * Reads a clock display back: the field after the last ':' as seconds and
   * the text before it as minutes, both as plain decimal numbers.
   */
  function ReadClock(str: string): Option<(nat, nat)>
  {
    var sec := LastField(str, ':');
    if |sec| == |str| then None
    else
      var min := str[..|str| - |sec| - 1];
      if AllDigits(min) && AllDigits(sec) then Some((ParseNat(min), ParseNat(sec))) else None
  }

  /** Reading back `min + ":" + sec` gives the two numbers when both are digit strings. */
  lemma ReadClockOf(min: string, sec: string)
    requires AllDigits(min) && AllDigits(sec)
    ensures ReadClock(min + ":" + sec) == Some((ParseNat(min), ParseNat(sec)))
  {
    var str := min + ":" + sec;
    forall i | 0 <= i < |sec| ensures sec[i] != ':' {
      assert IsDigit(sec[i]);
    }
    LastFieldAfterSep(min, ':', sec);
    assert str[..|str| - |sec| - 1] == min;
  }

  /**
   * The unpadded display of a time that is not negative reads back as its
   * minutes and seconds, and the seconds field is exactly two digits.
   */
  lemma {:induction false} FormatClockReadsBack(t: real)
    requires t >= 0.0
    ensures ReadClock(FormatClock(t)) == Some((MinutesSeconds(t).0 as nat, MinutesSeconds(t).1 as nat))
    ensures |LastField(FormatClock(t), ':')| == 2
  {
    MinutesSecondsSplit(t);
    var (m, s) := MinutesSeconds(t);
    ParseNatToString(m);
    Pad2Digits(s);
    ReadClockOf(NatToString(m), Pad2(NatToString(s)));
    LastFieldAfterSep(NatToString(m), ':', Pad2(NatToString(s)));
  }

  /**
   * The padded display of a time that is not negative reads back the same
   * way, and for less than 100 minutes it is exactly `mm:ss`.
   */
  lemma {:induction false} FormatClockPaddedReadsBack(t: real)
    requires t >= 0.0
    ensures ReadClock(FormatClockPadded(t)) == Some((MinutesSeconds(t).0 as nat, MinutesSeconds(t).1 as nat))
    ensures t < 6000.0 ==> |FormatClockPadded(t)| == 5
  {
    MinutesSecondsSplit(t);
    var (m, s) := MinutesSeconds(t);
    Pad2Digits(m);
    Pad2Digits(s);
    ReadClockOf(Pad2(NatToString(m)), Pad2(NatToString(s)));
    if t < 6000.0 {
      assert m < 100;
    }
  }
}
