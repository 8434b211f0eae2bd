/**
 * The decimal text a sample turns into when a pandas series is converted with
 * `astype(str)`: Python's `str` of an integer, and Python's shortest
 * round-trip `repr` of a binary float.
 *
 * A float is given by its shortest decimal form: significant digits
 * d1 d2 ... dk (no leading or trailing zero) and the position `decpt` of the
 * decimal point, so that its value is 0.d1d2...dk * 10^decpt. Choosing those
 * digits is the IEEE-754 part of `repr` and is taken as given; laying them out
 * as text is modelled exactly.
 */
module Rendering {

  type Digit = d: nat | d < 10

  /** Shortest significant digits of a nonzero float. */
  type Significand = s: seq<Digit> | |s| > 0 && s[0] != 0 && s[|s| - 1] != 0 witness [1]

  /** A finite float by its shortest decimal form. */
  datatype Float = Zero | Nonzero(negative: bool, digits: Significand, decpt: int)

  predicate IsDigitChar(c: char) {
    '0' <= c <= '9'
  }

  function DigitChar(d: Digit): (c: char)
    ensures IsDigitChar(c)
  {
    (('0' as int) + d) as char
  }

  /** `int(c)` for a one-character digit string. */
  function CharValue(c: char): (d: Digit)
    requires IsDigitChar(c)
    ensures DigitChar(d) == c
  {
    (c as int) - ('0' as int)
  }

  /** Python's `str(n)` for a non-negative integer. */
  function NatToString(n: nat): (s: string)
    ensures |s| > 0 && IsDigitChar(s[0])
    ensures forall i :: 0 <= i < |s| ==> IsDigitChar(s[i])
    decreases n
  {
    if n < 10 then [DigitChar(n)] else NatToString(n / 10) + [DigitChar(n % 10)]
  }

  function Pow10(k: nat): (r: nat)
    ensures r >= 1
  {
    if k == 0 then 1 else 10 * Pow10(k - 1)
  }

  /**
   * The first character of `str(n)` is the most significant decimal digit of
   * `n`: the digit d with d * 10^k <= n < (d + 1) * 10^k, where k + 1 is the
   * length of the text.
   */
  lemma {:induction false} NatToStringLeadingDigit(n: nat)
    ensures var d, k := CharValue(NatToString(n)[0]), |NatToString(n)| - 1;
            d * Pow10(k) <= n < (d + 1) * Pow10(k)
    ensures n > 0 ==> CharValue(NatToString(n)[0]) > 0
    decreases n
  {
    if n >= 10 {
      var q, r := n / 10, n % 10;
      NatToStringLeadingDigit(q);
      var d: nat, k := CharValue(NatToString(q)[0]), |NatToString(q)| - 1;
      assert NatToString(n) == NatToString(q) + [DigitChar(r)];
      assert NatToString(n)[0] == NatToString(q)[0];
      ShiftDigitBounds(d, Pow10(k), q, r);
      assert Pow10(k + 1) == 10 * Pow10(k);
    }
  }

  /** Appending a digit to a number whose leading digit is d keeps d leading. */
  lemma ShiftDigitBounds(d: nat, p: nat, q: nat, r: nat)
    requires d * p <= q < (d + 1) * p && r < 10
    ensures d * (10 * p) <= 10 * q + r < (d + 1) * (10 * p)
  {
    assert d * (10 * p) == 10 * (d * p);
    assert (d + 1) * (10 * p) == 10 * ((d + 1) * p);
  }

  /** `str(10 * n)` is `str(n)` followed by a `0`, for every positive `n`. */
  lemma NatToStringTimesTen(n: nat)
    requires n > 0
    ensures NatToString(10 * n) == NatToString(n) + "0"
  {
    assert (10 * n) / 10 == n && (10 * n) % 10 == 0;
  }

  function DigitsString(ds: seq<Digit>): (s: string)
    ensures |s| == |ds|
    ensures forall i :: 0 <= i < |ds| ==> s[i] == DigitChar(ds[i])
  {
    seq(|ds|, i requires 0 <= i < |ds| => DigitChar(ds[i]))
  }

  function Zeros(n: nat): (s: string)
    ensures |s| == n
    ensures forall i :: 0 <= i < n ==> s[i] == '0'
  {
    seq(n, _ => '0')
  }

  /** The exponent part of `repr` in scientific form: a sign and at least two digits. */
  function ExponentString(e: int): string {
    var m: nat := if e < 0 then -e else e;
    (if e < 0 then "-" else "+") + (if m < 10 then "0" else "") + NatToString(m)
  }

  /**
   * `repr` of a positive float from its shortest digits: scientific notation
   * when decpt <= -4 or decpt > 16, positional otherwise, with ".0" appended
   * to a whole number.
   */
  function RenderMagnitude(ds: Significand, decpt: int): string {
    var k := |ds|;
    if decpt <= -4 || decpt > 16 then
      [DigitChar(ds[0])] + (if k > 1 then "." + DigitsString(ds[1..]) else "") + "e" + ExponentString(decpt - 1)
    else if decpt <= 0 then
      "0." + Zeros(-decpt) + DigitsString(ds)
    else if decpt < k then
      DigitsString(ds[..decpt]) + "." + DigitsString(ds[decpt..])
    else
      DigitsString(ds) + Zeros(decpt - k) + ".0"
  }

  /** Python's `repr` (and `str`) of a finite float. */
  function Render(f: Float): string {
    match f
    case Zero => "0.0"
    case Nonzero(negative, ds, decpt) => (if negative then "-" else "") + RenderMagnitude(ds, decpt)
  }

  /**
   * The first character of the text of a non-negative float: `0` for zero
   * and for every magnitude printed as "0.xxx" (decpt in -3..0, that is
   * 1e-4 <= x < 1), and the first significant digit otherwise.
   */
  lemma RenderFirstChar(f: Float)
    requires !(f.Nonzero? && f.negative)
    ensures |Render(f)| > 0
    ensures Render(f)[0] == (if f.Zero? || -4 < f.decpt <= 0 then '0' else DigitChar(f.digits[0]))
  {
    match f
    case Zero =>
    case Nonzero(_, ds, decpt) =>
      var r := RenderMagnitude(ds, decpt);
      assert Render(f) == r;
      if decpt <= -4 || decpt > 16 {
        assert r[0] == DigitChar(ds[0]);
      } else if decpt <= 0 {
        assert r[0] == '0';
      } else if decpt < |ds| {
        assert r[0] == DigitsString(ds[..decpt])[0];
      } else {
        assert r[0] == DigitsString(ds)[0];
      }
  }
}
