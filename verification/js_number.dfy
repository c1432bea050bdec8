/** The JavaScript number-to-number and number-to-text conversions the
    components rely on, stated over exact reals and naturals. */
module JsNumber {

  /** `Math.round`: the nearest integer, with halves rounded toward +infinity. */
  function Round(x: real): (n: int)
    ensures (n as real) - 0.5 <= x < (n as real) + 0.5
  {
    (x + 0.5).Floor
  }

  /** Rounding is monotone: it never reverses the order of two numbers. */
  lemma RoundMonotone(x: real, y: real)
    requires x <= y
    ensures Round(x) <= Round(y)
  {
  }

  /** Rounding maps an integer to itself. */
  lemma RoundOfInteger(k: int)
    ensures Round(k as real) == k
  {
  }

  /** A value in [lo, hi) with integer bounds rounds into [lo, hi]. */
  lemma RoundWithin(x: real, lo: int, hi: int)
    requires lo as real <= x < hi as real
    ensures lo <= Round(x) <= hi
  {
    RoundOfInteger(lo);
    RoundOfInteger(hi);
    RoundMonotone(lo as real, x);
    RoundMonotone(x, hi as real);
  }

  function Pow10(k: nat): (p: nat)
    ensures p >= 1
  {
    if k == 0 then 1 else 10 * Pow10(k - 1)
  }

  /** The number `x.toFixed(places)` denotes once read back by `parseFloat`:
      `x` rounded to `places` decimal digits. `toFixed` rounds the magnitude
      and restores the sign, so ties go away from zero: up for a non-negative
      `x`, down for a negative one. */
  function Fixed(x: real, places: nat): (v: real)
    ensures 0.0 <= x ==> v - 0.5 / (Pow10(places) as real) <= x < v + 0.5 / (Pow10(places) as real)
    ensures x < 0.0 ==> v - 0.5 / (Pow10(places) as real) < x <= v + 0.5 / (Pow10(places) as real)
    ensures HasDecimals(v, places)
  {
    if x < 0.0 then
      NegatedHasDecimals(FixedMagnitude(-x, places), places);
      -FixedMagnitude(-x, places)
    else FixedMagnitude(x, places)
  }

  /** `v` has at most `places` decimal digits: it is a whole number of
      `10^-places` units. */
  ghost predicate HasDecimals(v: real, places: nat) {
    exists n: int :: v == Unscale(n, Pow10(places))
  }

  /** `x` rounded to `places` decimal digits, ties toward the larger value. */
  function FixedMagnitude(x: real, places: nat): (v: real)
    ensures v - 0.5 / (Pow10(places) as real) <= x < v + 0.5 / (Pow10(places) as real)
    ensures HasDecimals(v, places)
  {
    var scale := Pow10(places);
    UnscaleRound(x, scale as real);
    assert Unscale(Round(x * (scale as real)), scale) == (Round(x * (scale as real)) as real) / (scale as real);
    Unscale(Round(x * (scale as real)), scale)
  }

  /** Negation keeps the number of decimals. */
  lemma NegatedHasDecimals(v: real, places: nat)
    requires HasDecimals(v, places)
    ensures HasDecimals(-v, places)
  {
    var n :| v == Unscale(n, Pow10(places));
    assert -v == Unscale(-n, Pow10(places));
  }

  function Unscale(n: int, scale: nat): real
    requires scale >= 1
  {
    (n as real) / (scale as real)
  }

  lemma UnscaleRound(x: real, s: real)
    requires s >= 1.0
    ensures var v := (Round(x * s) as real) / s; v - 0.5 / s <= x < v + 0.5 / s
  {
    var n := Round(x * s) as real;
    assert n - 0.5 <= x * s < n + 0.5;
    assert (n - 0.5) / s <= x < (n + 0.5) / s;
  }

  /** If `x` lies in [lo, hi) with integer bounds, its rendering to at most
      two decimals lies in [lo, hi]. */
  lemma FixedWithin(x: real, places: nat, lo: int, hi: int)
    requires places <= 2
    requires lo as real <= x < hi as real
    ensures lo as real <= Fixed(x, places) <= hi as real
  {
    if x < 0.0 {
      assert Fixed(x, places) == -FixedMagnitude(-x, places);
      NegativeMagnitudeWithin(-x, places, -lo, if hi > 0 then 0 else -hi);
    } else {
      assert Fixed(x, places) == FixedMagnitude(x, places);
      MagnitudeWithin(x, places, if lo < 0 then 0 else lo, hi);
    }
  }

  /** The mirror image of `MagnitudeWithin`, for the magnitude of a negative value. */
  lemma NegativeMagnitudeWithin(y: real, places: nat, top: int, bottom: int)
    requires places <= 2
    requires bottom as real < y <= top as real
    ensures bottom as real <= FixedMagnitude(y, places) <= top as real
  {
    var scale := Pow10(places);
    ScaledRoundBetween(y, places, bottom, top);
    assert FixedMagnitude(y, places) == Unscale(Round(y * (scale as real)), scale);
  }

  lemma ScaledRoundBetween(y: real, places: nat, bottom: int, top: int)
    requires places <= 2
    requires bottom as real < y <= top as real
    ensures bottom as real <= Unscale(Round(y * (Pow10(places) as real)), Pow10(places)) <= top as real
  {
    var scale := if places == 0 then 1 else if places == 1 then 10 else 100;
    assert Pow10(places) == scale;
    RoundBetween(y * (scale as real), bottom * scale, top * scale);
    UnscaleBetween(Round(y * (scale as real)), scale, bottom, top);
  }

  /** A value in (lo, hi] with integer bounds rounds into [lo, hi]. */
  lemma RoundBetween(x: real, lo: int, hi: int)
    requires lo as real < x <= hi as real
    ensures lo <= Round(x) <= hi
  {
    RoundOfInteger(lo);
    RoundMonotone(lo as real, x);
    RoundOfInteger(hi);
    RoundMonotone(x, hi as real);
  }

  lemma UnscaleBetween(n: int, scale: nat, lo: int, hi: int)
    requires scale == 1 || scale == 10 || scale == 100
    requires lo * scale <= n <= hi * scale
    ensures lo as real <= Unscale(n, scale) <= hi as real
  {
  }

  lemma MagnitudeWithin(x: real, places: nat, lo: int, hi: int)
    requires places <= 2
    requires lo as real <= x < hi as real
    ensures lo as real <= FixedMagnitude(x, places) <= hi as real
  {
    var scale := Pow10(places);
    ScaledRoundWithin(x, places, lo, hi);
    assert FixedMagnitude(x, places) == Unscale(Round(x * (scale as real)), scale);
  }

  lemma ScaledRoundWithin(x: real, places: nat, lo: int, hi: int)
    requires places <= 2
    requires lo as real <= x < hi as real
    ensures lo as real <= Unscale(Round(x * (Pow10(places) as real)), Pow10(places)) <= hi as real
  {
    var scale := if places == 0 then 1 else if places == 1 then 10 else 100;
    assert Pow10(places) == scale;
    RoundWithin(x * (scale as real), lo * scale, hi * scale);
    UnscaleBetween(Round(x * (scale as real)), scale, lo, hi);
  }

  /** Ties: 2.5 and 0.125 round up, their negatives round down, as `toFixed`
      gives "3", "0.13", "-3" and "-0.13". */
  lemma FixedTies()
    ensures Fixed(2.5, 0) == 3.0 && Fixed(0.125, 2) == 0.13
    ensures Fixed(-2.5, 0) == -3.0 && Fixed(-0.125, 2) == -0.13
  {
    assert Pow10(0) == 1 && Pow10(2) == 100;
    assert Round(2.5) == 3 && Round(12.5) == 13;
  }

  predicate IsDigit(c: char) {
    '0' <= c <= '9'
  }

  predicate AllDigits(s: string) {
    forall i :: 0 <= i < |s| ==> IsDigit(s[i])
  }

  function DigitChar(d: nat): (c: char)
    requires d < 10
    ensures IsDigit(c)
    ensures (c as int) - ('0' as int) == d
  {
    ('0' as int + d) as char
  }

  /** `n.toString()` for a non-negative integer below 10^21 (from there on
      JavaScript switches to exponent notation): its decimal digits, no
      leading zeros. */
  function DecimalString(n: nat): (s: string)
    ensures 1 <= |s|
    ensures AllDigits(s)
    ensures |s| > 1 ==> s[0] != '0'
    decreases n
  {
    if n < 10 then [DigitChar(n)] else DecimalString(n / 10) + [DigitChar(n % 10)]
  }

  /** The value of a string of decimal digits; the partner of `DecimalString`. */
  function ParseDecimal(s: string): nat
    requires AllDigits(s)
    decreases |s|
  {
    if |s| == 0 then 0
    else 10 * ParseDecimal(s[..|s| - 1]) + ((s[|s| - 1] as int) - ('0' as int))
  }

  /** Reading back the decimal string of `n` yields `n`. */
  lemma {:induction false} ParseDecimalString(n: nat)
    ensures ParseDecimal(DecimalString(n)) == n
    decreases n
  {
    if n >= 10 {
      var s := DecimalString(n);
      assert s[..|s| - 1] == DecimalString(n / 10);
      ParseDecimalString(n / 10);
    }
  }

  /** `n.toString().padStart(2, '0')`. */
  function PadTwo(n: nat): (s: string)
    ensures n < 100 ==> |s| == 2
    ensures AllDigits(s)
    ensures n < 100 ==> ParseDecimal(s) == n
  {
    var d := DecimalString(n);
    if |d| < 2 then
      assert ParseDecimal(['0'] + d) == ParseDecimal(d) by {
        assert (['0'] + d)[..1] == ['0'];
        assert ParseDecimal(['0']) == 0;
        ParseDecimalString(n);
      }
      ParseDecimalString(n);
      ['0'] + d
    else
      ParseDecimalString(n);
      assert |d| == 2 || n >= 100;
      d
  }
}
