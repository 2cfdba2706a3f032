/** `seconds_to_clock` of both front ends: seconds since midnight written as
    "HH:MM" with JavaScript's arithmetic and its `pad` helper. */
module Clock {
  import opened Text

  /** JavaScript's `%` truncates toward zero, so a negative dividend leaves a
      remainder that is zero or negative. */
  function JsRem(a: int, b: int): (r: int)
    requires b > 0
    ensures -b < r < b
    ensures a >= 0 ==> r == a % b
  {
    if a >= 0 then a % b else -((-a) % b)
  }

  /** `String([1e15])`: the array holding 1e15 converts to this string. */
  const PadPrefix: string := "1000000000000000"

  /** `pad(a, 2)`: the last two characters of `[1e15] + a`. */
  function Pad2(a: int): (s: string)
  {
    var full := PadPrefix + IntToString(a);
    full[|full| - 2..]
  }

  /** `Math.floor(t/3600)` and `Math.floor((t%3600)/60)`; Dafny's `/` by a
      positive divisor is the floor of the quotient. */
  function SecondsToClock(t: int): (r: string)
  {
    Pad2(t / 3600) + ":" + Pad2(JsRem(t, 3600) / 60)
  }

  /** The two-digit notation of a number below one hundred. */
  function TwoDigits(v: nat): (s: string)
    requires v < 100
  {
    [Digit(v / 10), Digit(v % 10)]
  }

  lemma TensDigit(a: nat)
    ensures (a % 100) / 10 == (a / 10) % 10
    ensures (a % 100) % 10 == a % 10
  {
    var q, r := a / 100, a % 100;
    var u, w := r / 10, r % 10;
    assert a == 100 * q + 10 * u + w;
    assert a / 10 == 10 * q + u;
    assert a % 10 == w;
  }

  /** `pad(a, 2)` of a non-negative number is its last two decimal digits,
      with a leading zero below ten. */
  lemma Pad2OfNat(a: nat)
    ensures Pad2(a) == TwoDigits(a % 100)
  {
    var d := NatToString(a);
    assert IntToString(a) == d;
    var full := PadPrefix + d;
    TensDigit(a);
    if a < 10 {
      assert |d| == 1;
      assert full[|full| - 2..] == [PadPrefix[|PadPrefix| - 1], d[0]];
    } else {
      NatToStringTens(a);
      assert full[|full| - 2..] == [d[|d| - 2], d[|d| - 1]];
    }
  }

  /** The clock built from two non-negative numbers, the second below 60. */
  lemma ClockOfParts(h: nat, m: nat)
    requires m < 60
    ensures |Pad2(h) + ":" + Pad2(m)| == 5 && (Pad2(h) + ":" + Pad2(m))[2] == ':'
    ensures (Pad2(h) + ":" + Pad2(m))[..2] == TwoDigits(h % 100)
    ensures (Pad2(h) + ":" + Pad2(m))[3..] == TwoDigits(m)
  {
    var a, b := Pad2(h), Pad2(m);
    Pad2OfNat(h);
    Pad2OfNat(m);
    SmallMod(m);
    assert |a| == 2 && |b| == 2;
    var r := a + ":" + b;
    assert r[..2] == a;
    assert r[3..] == b;
  }

  /** For a time of day, the result is five characters "HH:MM": the hours
      modulo one hundred and the minutes of the hour, which stay below 60. */
  lemma ClockFormat(t: int)
    requires t >= 0
    ensures |SecondsToClock(t)| == 5 && SecondsToClock(t)[2] == ':'
    ensures (t % 3600) / 60 < 60
    ensures SecondsToClock(t)[..2] == TwoDigits((t / 3600) % 100)
    ensures SecondsToClock(t)[3..] == TwoDigits((t % 3600) / 60)
  {
    var h: nat, m: nat := t / 3600, (t % 3600) / 60;
    MinutesBelowSixty(t % 3600);
    assert SecondsToClock(t) == Pad2(h) + ":" + Pad2(m);
    ClockOfParts(h, m);
  }

  lemma SmallMod(m: nat)
    requires m < 100
    ensures m % 100 == m
  {
  }

  lemma MinutesBelowSixty(s: int)
    requires 0 <= s < 3600
    ensures 0 <= s / 60 < 60
  {
  }

  /** Reading "HH:MM" back as hours and minutes. */
  function ClockValue(s: string): (v: nat)
    requires |s| == 5 && AllDigits(s[..2]) && AllDigits(s[3..])
  {
    DigitsValue(s[..2]) * 3600 + DigitsValue(s[3..]) * 60
  }

  lemma TwoDigitsValue(v: nat)
    requires v < 100
    ensures AllDigits(TwoDigits(v)) && DigitsValue(TwoDigits(v)) == v
  {
    var s := TwoDigits(v);
    assert s[..1][..0] == [];
    assert s[..1] == [Digit(v / 10)];
    DigitRoundTrip(v / 10);
    DigitRoundTrip(v % 10);
  }

  /** Within the first hundred hours the clock reads back as the time
      truncated to the whole minute. */
  lemma ClockReadsBack(t: int)
    requires 0 <= t < 100 * 3600
    ensures |SecondsToClock(t)| == 5
    ensures AllDigits(SecondsToClock(t)[..2]) && AllDigits(SecondsToClock(t)[3..])
    ensures ClockValue(SecondsToClock(t)) == t - t % 60
  {
    ClockFormat(t);
    var h, m := (t / 3600) % 100, (t % 3600) / 60;
    TwoDigitsValue(h);
    TwoDigitsValue(m);
    HoursMinutes(t);
  }

  lemma HoursMinutes(t: int)
    requires 0 <= t < 100 * 3600
    ensures ((t / 3600) % 100) * 3600 + ((t % 3600) / 60) * 60 == t - t % 60
  {
    var h, r := t / 3600, t % 3600;
    var m, s := r / 60, r % 60;
    assert t == 3600 * h + 60 * m + s;
    assert h < 100;
    SmallMod(h);
    assert t % 60 == s;
  }

  /** A negative time is not rejected: minus one second is written "-1:-1". */
  lemma ClockOfMinusOne()
    ensures SecondsToClock(-1) == "-1:-1"
  {
    assert IntToString(-1) == "-1";
  }
}
