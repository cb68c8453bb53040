/**
 * The part of `snprintf` that the logger relies on: `%d` and `%0Nd` applied to
 * non-negative integers, producing ASCII decimal digits.
 */
module Format {

  predicate IsDigit(c: char) {
    '0' <= c <= '9'
  }

  predicate AllDigits(s: string) {
    forall k :: 0 <= k < |s| ==> IsDigit(s[k])
  }

  function Digit(d: nat): (c: char)
    requires d < 10
    ensures IsDigit(c) && c as int - '0' as int == d
  {
    ('0' as int + d) as char
  }

  function Pow10(k: nat): (p: nat)
    ensures p >= 1
  {
    if k == 0 then 1 else 10 * Pow10(k - 1)
  }

  /** The numeric value of a string of decimal digits (the reading a person gives the text). */
  function DigitsValue(s: string): nat
    requires AllDigits(s)
  {
    if s == [] then 0
    else DigitsValue(s[..|s| - 1]) * 10 + (s[|s| - 1] as int - '0' as int)
  }

  /** `%d` of a non-negative int: the shortest decimal rendering, without leading zeros. */
  function DecimalText(n: nat): (s: string)
    ensures 1 <= |s| && AllDigits(s)
    ensures |s| > 1 ==> s[0] != '0'
  {
    if n < 10 then [Digit(n)] else DecimalText(n / 10) + [Digit(n % 10)]
  }

  function Zeros(k: nat): (s: string)
    ensures |s| == k && AllDigits(s)
    ensures forall j :: 0 <= j < k ==> s[j] == '0'
  {
    if k == 0 then [] else Zeros(k - 1) + ['0']
  }

  /** `%0<width>d` of a non-negative int: the decimal rendering, left-padded with '0' to `width`. */
  function ZeroPadded(n: nat, width: nat): (s: string)
    ensures AllDigits(s)
    ensures |s| == if |DecimalText(n)| < width then width else |DecimalText(n)|
  {
    var d := DecimalText(n);
    if |d| < width then Zeros(width - |d|) + d else d
  }

  /** Reading the digits of `a + b` is reading `a`, shifted by the length of `b`, plus `b`. */
  lemma {:induction false} DigitsValueAppend(a: string, b: string)
    requires AllDigits(a) && AllDigits(b)
    ensures AllDigits(a + b)
    ensures DigitsValue(a + b) == DigitsValue(a) * Pow10(|b|) + DigitsValue(b)
  {
    if b == [] {
      assert a + b == a;
    } else {
      var b', last := b[..|b| - 1], b[|b| - 1] as int - '0' as int;
      assert (a + b)[..|a + b| - 1] == a + b';
      assert (a + b)[|a + b| - 1] == b[|b| - 1];
      DigitsValueAppend(a, b');
      var va, vb', p := DigitsValue(a), DigitsValue(b'), Pow10(|b'|);
      assert Pow10(|b|) == p * 10;
      assert DigitsValue(b) == vb' * 10 + last;
      calc {
        DigitsValue(a + b);
        DigitsValue(a + b') * 10 + last;
        (va * p + vb') * 10 + last;
        { ShiftByDigit(va, p, vb'); }
        va * (p * 10) + vb' * 10 + last;
      }
    }
  }

  /** One more digit multiplies both the shifted head and the tail by ten (kept apart from the induction above). */
  lemma ShiftByDigit(x: int, p: int, y: int)
    ensures (x * p + y) * 10 == x * (p * 10) + y * 10
  {
  }

  lemma {:induction false} ZerosValue(k: nat)
    ensures DigitsValue(Zeros(k)) == 0
  {
    if k > 0 {
      assert Zeros(k)[..k - 1] == Zeros(k - 1);
      ZerosValue(k - 1);
    }
  }

  /** Round trip: the text `%d` prints reads back as the number printed. */
  lemma {:induction false} DecimalTextValue(n: nat)
    ensures DigitsValue(DecimalText(n)) == n
  {
    if n >= 10 {
      var s := DecimalText(n);
      assert s[..|s| - 1] == DecimalText(n / 10);
      DecimalTextValue(n / 10);
    }
  }

  /** Round trip: zero padding does not change the value read back. */
  lemma ZeroPaddedValue(n: nat, width: nat)
    ensures DigitsValue(ZeroPadded(n, width)) == n
  {
    var d := DecimalText(n);
    DecimalTextValue(n);
    if |d| < width {
      var z := Zeros(width - |d|);
      DigitsValueAppend(z, d);
      ZerosValue(width - |d|);
      assert DigitsValue(z + d) == 0 * Pow10(|d|) + DigitsValue(d);
    }
  }

  /** `%d` needs at most `k` characters for a value below 10^k. */
  lemma {:induction false} DecimalTextLength(n: nat, k: nat)
    requires 1 <= k && n < Pow10(k)
    ensures |DecimalText(n)| <= k
  {
    if n >= 10 {
      assert k >= 2;
      DecimalTextLength(n / 10, k - 1);
    }
  }

  /** A value below 10^width fills exactly `width` characters under `%0<width>d`. */
  lemma ZeroPaddedLength(n: nat, width: nat)
    requires 1 <= width && n < Pow10(width)
    ensures |ZeroPadded(n, width)| == width
  {
    DecimalTextLength(n, width);
  }
}
