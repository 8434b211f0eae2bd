/**
 * First-digit extraction of `analyze_data`: every sample's absolute value is
 * converted to text, its first character is read back as an integer, and the
 * results equal to 0 are dropped. Order is kept.
 */
module LeadingDigits {
  import opened Rendering
  import opened Samples

  /** The text pandas' `astype(str)` gives one sample. */
  function Text(s: Sample): string {
    match s
    case IntSample(n) => (if n < 0 then "-" else "") + NatToString(if n < 0 then -n else n)
    case FloatSample(f) => Render(f)
  }

  /** The text of an absolute value never starts with a sign: it starts with a digit. */
  lemma AbsTextStartsWithDigit(s: Sample)
    ensures |Text(Abs(s))| > 0 && IsDigitChar(Text(Abs(s))[0])
  {
    if s.FloatSample? {
      RenderFirstChar(Abs(s).f);
    }
  }

  /** `int(str(abs(x))[0])`: the first character of the text of |x|, as an integer. */
  function FirstDigit(s: Sample): Digit {
    AbsTextStartsWithDigit(s);
    CharValue(Text(Abs(s))[0])
  }

  /** `first_digits` before the mask: one digit per sample, in order. */
  function FirstDigits(samples: seq<Sample>): (r: seq<Digit>)
    ensures |r| == |samples|
    ensures forall i :: 0 <= i < |samples| ==> r[i] == FirstDigit(samples[i])
  {
    seq(|samples|, i requires 0 <= i < |samples| => FirstDigit(samples[i]))
  }

  /** `first_digits[first_digits > 0]`: the nonzero digits, in order. */
  function DropZeros(ds: seq<Digit>): (r: seq<Digit>)
    ensures |r| <= |ds|
    ensures forall i :: 0 <= i < |r| ==> 1 <= r[i] <= 9
  {
    if ds == [] then [] else (if ds[0] > 0 then [ds[0]] else []) + DropZeros(ds[1..])
  }

  /** The digits kept for the histogram, in sample order. */
  function KeptDigits(samples: seq<Sample>): seq<Digit> {
    DropZeros(FirstDigits(samples))
  }

  /**
   * The mask keeps a digit exactly when it occurs and is not 0, and keeps
   * every occurrence of it: only the zeros are lost.
   */
  lemma {:induction false} DropZerosKeepsNonzero(ds: seq<Digit>)
    ensures forall d :: d in DropZeros(ds) <==> d > 0 && d in ds
    ensures |DropZeros(ds)| == |ds| - multiset(ds)[0]
  {
    if ds != [] {
      DropZerosKeepsNonzero(ds[1..]);
      assert ds == [ds[0]] + ds[1..];
    }
  }

  /** A series with no zero passes the mask unchanged. */
  lemma {:induction false} DropZerosNoZeros(ds: seq<Digit>)
    requires 0 !in ds
    ensures DropZeros(ds) == ds
  {
    if ds != [] {
      assert ds[0] in ds;
      assert 0 !in ds[1..] by {
        forall x | x in ds[1..] ensures x in ds {
        }
      }
      calc {
        DropZeros(ds);
        [ds[0]] + DropZeros(ds[1..]);
        { DropZerosNoZeros(ds[1..]); }
        [ds[0]] + ds[1..];
        ds;
      }
    }
  }

  /** The mask works element by element: it distributes over concatenation. */
  lemma {:induction false} DropZerosAppend(a: seq<Digit>, b: seq<Digit>)
    ensures DropZeros(a + b) == DropZeros(a) + DropZeros(b)
  {
    if a == [] {
      assert a + b == b;
    } else {
      var head: seq<Digit> := if a[0] > 0 then [a[0]] else [];
      assert (a + b)[0] == a[0];
      assert (a + b)[1..] == a[1..] + b;
      calc {
        DropZeros(a + b);
        head + DropZeros(a[1..] + b);
        { DropZerosAppend(a[1..], b); }
        head + (DropZeros(a[1..]) + DropZeros(b));
        (head + DropZeros(a[1..])) + DropZeros(b);
        DropZeros(a) + DropZeros(b);
      }
    }
  }

  /** Extraction works sample by sample, so it keeps the samples' order. */
  lemma KeptDigitsAppend(a: seq<Sample>, b: seq<Sample>)
    ensures KeptDigits(a + b) == KeptDigits(a) + KeptDigits(b)
  {
    assert FirstDigits(a + b) == FirstDigits(a) + FirstDigits(b);
    DropZerosAppend(FirstDigits(a), FirstDigits(b));
  }

  /** The first digit of a float: 0 for zero and for 1e-4 <= |x| < 1, else its first significant digit. */
  lemma FloatFirstDigit(f: Float)
    ensures FirstDigit(FloatSample(f)) == if f.Zero? || -4 < f.decpt <= 0 then 0 else f.digits[0]
  {
    RenderFirstChar(Abs(FloatSample(f)).f);
  }

  /**
   * The same in terms of magnitude: a float's first digit is 0 exactly when
   * |x| is 0 or 1e-4 <= |x| < 1, and otherwise its first significant digit.
   */
  lemma FloatFirstDigitMagnitude(f: Float)
    ensures var v := Value(Abs(FloatSample(f)));
            FirstDigit(FloatSample(f)) == if v == 0.0 || 0.0001 <= v < 1.0 then 0 else f.digits[0]
  {
    FloatFirstDigit(f);
    if f.Nonzero? {
      var g := Nonzero(false, f.digits, f.decpt);
      assert Abs(FloatSample(f)) == FloatSample(g);
      ZeroPointBand(g);
      FloatValueBounds(g);
      RealPow10Positive(g.decpt - 1);
    }
  }

  /**
   * The first digit of an integer is its most significant decimal digit d,
   * with d * 10^k <= |n| < (d + 1) * 10^k, and it is 0 only for n == 0.
   */
  lemma IntFirstDigit(n: int)
    ensures var m: nat, d := (if n < 0 then -n else n), FirstDigit(IntSample(n));
            var k := |NatToString(m)| - 1;
            d * Pow10(k) <= m < (d + 1) * Pow10(k)
    ensures FirstDigit(IntSample(n)) == 0 <==> n == 0
  {
    NatToStringLeadingDigit(if n < 0 then -n else n);
  }

  /** `abs` comes first, so x and -x have the same first digit. */
  lemma FirstDigitSignInvariant(s: Sample)
    ensures FirstDigit(Negate(s)) == FirstDigit(s)
  {
    assert Abs(Negate(s)) == Abs(s);
  }

  /** n and 10 * n have the same first digit. */
  lemma IntFirstDigitTimesTen(n: int)
    ensures FirstDigit(IntSample(10 * n)) == FirstDigit(IntSample(n))
  {
    var m: nat := if n < 0 then -n else n;
    if m > 0 {
      assert (if 10 * n < 0 then -(10 * n) else 10 * n) == 10 * m;
      NatToStringTimesTen(m);
    }
  }

  /**
   * Moving the decimal point keeps the first digit as long as the float is
   * printed with a significant first digit both before and after; moving it
   * into 1e-4 <= |x| < 1 makes the float print as "0.xxx" and drops it.
   */
  lemma FloatFirstDigitScale(f: Float, k: int)
    requires f.Nonzero?
    ensures var g := Scale(f, k);
            (-4 < g.decpt <= 0 ==> FirstDigit(FloatSample(g)) == 0) &&
            (!(-4 < f.decpt <= 0) && !(-4 < g.decpt <= 0) ==> FirstDigit(FloatSample(g)) == FirstDigit(FloatSample(f)))
  {
    FloatFirstDigit(f);
    FloatFirstDigit(Scale(f, k));
  }

  /** -42, 42 and 420000 all give 4; 0 gives 0. */
  lemma IntFirstDigitExamples()
    ensures FirstDigit(IntSample(-42)) == 4
    ensures FirstDigit(IntSample(42)) == 4
    ensures FirstDigit(IntSample(420000)) == 4
    ensures FirstDigit(IntSample(0)) == 0
  {
    IntFirstDigit(-42);
    IntFirstDigit(42);
    IntFirstDigit(420000);
  }

  /**
   * 4.2, -4.2 and 4.2e-05 give 4; 0.042 prints as "0.042" and gives 0, so it
   * is dropped; 0.0 gives 0.
   */
  lemma FloatFirstDigitExamples()
    ensures FirstDigit(FloatSample(Nonzero(false, [4, 2], 1))) == 4
    ensures FirstDigit(FloatSample(Nonzero(true, [4, 2], 1))) == 4
    ensures FirstDigit(FloatSample(Nonzero(false, [4, 2], -1))) == 0
    ensures FirstDigit(FloatSample(Nonzero(false, [4, 2], -4))) == 4
    ensures FirstDigit(FloatSample(Zero)) == 0
  {
    FloatFirstDigit(Nonzero(false, [4, 2], 1));
    FloatFirstDigit(Nonzero(true, [4, 2], 1));
    FloatFirstDigit(Nonzero(false, [4, 2], -1));
    FloatFirstDigit(Nonzero(false, [4, 2], -4));
    FloatFirstDigit(Zero);
  }

  /** Samples whose value is not zero. */
  function CountNonzero(samples: seq<Sample>): nat {
    if samples == [] then 0
    else (if Value(samples[0]) != 0.0 then 1 else 0) + CountNonzero(samples[1..])
  }

  /** For an integer column exactly the nonzero values are kept. */
  lemma {:induction false} IntKeptCount(samples: seq<Sample>)
    requires forall s :: s in samples ==> s.IntSample?
    ensures |KeptDigits(samples)| == CountNonzero(samples)
  {
    if samples != [] {
      assert samples[0] in samples;
      IntKeptCount(samples[1..]);
      IntFirstDigit(samples[0].n);
      assert FirstDigits(samples) == [FirstDigit(samples[0])] + FirstDigits(samples[1..]);
    }
  }

  /**
   * For a float column that is not so: 0.5 is nonzero but prints as "0.5"
   * and is dropped, so fewer digits are kept than there are nonzero values.
   */
  lemma FloatKeptCountDiffers()
    ensures var samples := [FloatSample(Nonzero(false, [5], 0))];
            CountNonzero(samples) == 1 && |KeptDigits(samples)| == 0
  {
    var samples := [FloatSample(Nonzero(false, [5], 0))];
    FloatFirstDigit(samples[0].f);
    assert RealPow10(-1) == 0.1;
    assert DigitsValue([5]) == 5 by {
      assert [5][..0] == [];
    }
    assert samples[1..] == [];
    assert FirstDigits(samples) == [0];
  }
}
