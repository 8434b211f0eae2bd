/**
 * One value of the analysed column after `dropna`: an integer when the
 * column's dtype is integral, otherwise a finite float given by its shortest
 * decimal form. `Value` is the number the range filter compares against its
 * bounds; `Abs` is pandas' `Series.abs` applied to one value.
 */
module Samples {
  import opened Rendering

  datatype Sample = IntSample(n: int) | FloatSample(f: Float)

  /** 10^e as a real, for any integer exponent. */
  function RealPow10(e: int): real
    decreases if e < 0 then -e else e
  {
    if e == 0 then 1.0 else if e > 0 then 10.0 * RealPow10(e - 1) else RealPow10(e + 1) / 10.0
  }

  lemma {:induction false} RealPow10Positive(e: int)
    ensures RealPow10(e) > 0.0
    decreases if e < 0 then -e else e
  {
    if e > 0 {
      RealPow10Positive(e - 1);
    } else if e < 0 {
      RealPow10Positive(e + 1);
    }
  }

  /** The integer whose decimal digits, most significant first, are `ds`. */
  function DigitsValue(ds: seq<Digit>): nat {
    if ds == [] then 0 else 10 * DigitsValue(ds[..|ds| - 1]) + ds[|ds| - 1]
  }

  /** 0.d1d2...dk * 10^decpt, with the sign. */
  function FloatValue(f: Float): real {
    match f
    case Zero => 0.0
    case Nonzero(negative, ds, decpt) =>
      var m := (DigitsValue(ds) as real) * RealPow10(decpt - |ds|);
      if negative then -m else m
  }

  function Value(s: Sample): real {
    match s
    case IntSample(n) => n as real
    case FloatSample(f) => FloatValue(f)
  }

  function Abs(s: Sample): Sample {
    match s
    case IntSample(n) => IntSample(if n < 0 then -n else n)
    case FloatSample(Zero) => s
    case FloatSample(Nonzero(_, ds, decpt)) => FloatSample(Nonzero(false, ds, decpt))
  }

  /** The sample with the opposite sign (zero stays zero). */
  function Negate(s: Sample): Sample {
    match s
    case IntSample(n) => IntSample(-n)
    case FloatSample(Zero) => s
    case FloatSample(Nonzero(negative, ds, decpt)) => FloatSample(Nonzero(!negative, ds, decpt))
  }

  /** `Abs` yields the absolute value of the sample's number. */
  lemma AbsValue(s: Sample)
    ensures Value(Abs(s)) == if Value(s) < 0.0 then -Value(s) else Value(s)
  {
    if s.FloatSample? && s.f.Nonzero? {
      var x, y := DigitsValue(s.f.digits) as real, RealPow10(s.f.decpt - |s.f.digits|);
      RealPow10Positive(s.f.decpt - |s.f.digits|);
      assert x * y >= 0.0;
    }
  }

  lemma NegateValue(s: Sample)
    ensures Value(Negate(s)) == -Value(s)
  {
  }

  /** One more power of ten is ten times as much, for negative exponents too. */
  lemma RealPow10Succ(e: int)
    ensures RealPow10(e + 1) == 10.0 * RealPow10(e)
  {
    if e < -1 {
      assert RealPow10(e) == RealPow10(e + 1) / 10.0;
    }
  }

  /** On natural exponents the real and the integer powers of ten agree. */
  lemma {:induction false} RealPow10Nat(k: nat)
    ensures RealPow10(k) == Pow10(k) as real
  {
    if k > 0 {
      RealPow10Nat(k - 1);
    }
  }

  /** Powers of ten grow with the exponent. */
  lemma {:induction false} RealPow10Monotone(a: int, b: int)
    requires a <= b
    ensures RealPow10(a) <= RealPow10(b)
    decreases b - a
  {
    if a < b {
      RealPow10Monotone(a, b - 1);
      RealPow10Succ(b - 1);
      RealPow10Positive(b - 1);
    }
  }

  /** A significand of k digits, the first nonzero, is between 10^(k-1) and 10^k. */
  lemma {:induction false} DigitsValueBounds(ds: seq<Digit>)
    requires |ds| > 0 && ds[0] != 0
    ensures Pow10(|ds| - 1) <= DigitsValue(ds) < Pow10(|ds|)
  {
    var n := |ds|;
    if n > 1 {
      var prefix := ds[..n - 1];
      assert prefix[0] == ds[0];
      DigitsValueBounds(prefix);
      assert DigitsValue(ds) == 10 * DigitsValue(prefix) + ds[n - 1];
      assert Pow10(n) == 10 * Pow10(n - 1) && Pow10(n - 1) == 10 * Pow10(n - 2);
    }
  }

  /** A positive float 0.d1..dk * 10^decpt lies in [10^(decpt-1), 10^decpt). */
  lemma FloatValueBounds(f: Float)
    requires f.Nonzero? && !f.negative
    ensures RealPow10(f.decpt - 1) <= FloatValue(f) < RealPow10(f.decpt)
  {
    BoundsAt(f.digits, f.decpt);
  }

  lemma {:induction false} BoundsAt(ds: Significand, e: int)
    ensures RealPow10(e - 1) <= FloatValue(Nonzero(false, ds, e)) < RealPow10(e)
    decreases if e < |ds| then |ds| - e else e - |ds|
  {
    var n := |ds|;
    if e == n {
      assert FloatValue(Nonzero(false, ds, e)) == DigitsValue(ds) as real;
      SignificandBounds(ds);
    } else if e > n {
      BoundsAt(ds, e - 1);
      ShiftPoint(ds, e - 1);
      RealPow10Succ(e - 1);
      RealPow10Succ(e - 2);
    } else {
      BoundsAt(ds, e + 1);
      ShiftPoint(ds, e);
      RealPow10Succ(e);
      RealPow10Succ(e - 1);
    }
  }

  /** Moving the decimal point one place right multiplies the value by ten. */
  lemma ShiftPoint(ds: Significand, e: int)
    ensures FloatValue(Nonzero(false, ds, e + 1)) == 10.0 * FloatValue(Nonzero(false, ds, e))
  {
    var x := DigitsValue(ds) as real;
    RealPow10Succ(e - |ds|);
    assert e + 1 - |ds| == (e - |ds|) + 1;
    assert x * (10.0 * RealPow10(e - |ds|)) == 10.0 * (x * RealPow10(e - |ds|));
  }

  /** The significand as a real lies in [10^(k-1), 10^k). */
  lemma SignificandBounds(ds: Significand)
    ensures RealPow10(|ds| - 1) <= DigitsValue(ds) as real < RealPow10(|ds|)
  {
    DigitsValueBounds(ds);
    RealPow10Nat(|ds| - 1);
    RealPow10Nat(|ds|);
  }

  /**
   * A positive float is printed as "0.xxx" (decpt in -3..0) exactly when
   * 1e-4 <= x < 1.
   */
  lemma ZeroPointBand(f: Float)
    requires f.Nonzero? && !f.negative
    ensures -4 < f.decpt <= 0 <==> 0.0001 <= FloatValue(f) < 1.0
  {
    FloatValueBounds(f);
    assert RealPow10(-4) == 0.0001 && RealPow10(0) == 1.0;
    if f.decpt <= -4 {
      RealPow10Monotone(f.decpt, -4);
    } else if f.decpt <= 0 {
      RealPow10Monotone(-4, f.decpt - 1);
      RealPow10Monotone(f.decpt, 0);
    } else {
      RealPow10Monotone(0, f.decpt - 1);
    }
  }

  /**
   * The same digits with the decimal point moved k places, which is the
   * float times 10^k.
   */
  function Scale(f: Float, k: int): Float {
    match f
    case Zero => Zero
    case Nonzero(negative, ds, decpt) => Nonzero(negative, ds, decpt + k)
  }
}
