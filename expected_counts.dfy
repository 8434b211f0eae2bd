/**
 * `expected_counts = self.expected_probs * total_counts`: the Benford
 * probability of each digit 1..9 scaled by the number of kept digits. The
 * probabilities log10(1 + 1/d) are floating-point values computed once; here
 * they are any nine-entry vector, the entry for digit d at index d - 1.
 */
module ExpectedCounts {

  type ProbVector = p: seq<real> | |p| == 9 witness [0.0, 0.0, 0.0, 0.0, 0.0, 0.0, 0.0, 0.0, 0.0]

  function SumReals(xs: seq<real>): real {
    if xs == [] then 0.0 else xs[0] + SumReals(xs[1..])
  }

  /** Nonnegative entries that add up to one. */
  predicate IsDistribution(p: ProbVector) {
    (forall i :: 0 <= i < 9 ==> p[i] >= 0.0) && SumReals(p) == 1.0
  }

  /** Every entry of xs times t. */
  function ScaleAll(xs: seq<real>, t: real): (r: seq<real>)
    ensures |r| == |xs|
    ensures forall i :: 0 <= i < |xs| ==> r[i] == xs[i] * t
  {
    seq(|xs|, i requires 0 <= i < |xs| => xs[i] * t)
  }

  /** The expected count of every digit 1..9, in digit order. */
  function Expected(p: ProbVector, total: nat): (r: seq<real>)
    ensures |r| == 9
  {
    ScaleAll(p, total as real)
  }

  lemma {:induction false} SumScaleAll(xs: seq<real>, t: real)
    ensures SumReals(ScaleAll(xs, t)) == SumReals(xs) * t
  {
    if xs != [] {
      var ys := ScaleAll(xs, t);
      forall i | 0 <= i < |xs| - 1 ensures ys[1..][i] == ScaleAll(xs[1..], t)[i] {
        assert xs[1..][i] == xs[i + 1];
      }
      assert ys[1..] == ScaleAll(xs[1..], t);
      var x, rest := xs[0], SumReals(xs[1..]);
      calc {
        SumReals(ys);
        ys[0] + SumReals(ys[1..]);
        x * t + SumReals(ScaleAll(xs[1..], t));
        { SumScaleAll(xs[1..], t); }
        x * t + rest * t;
        (x + rest) * t;
        SumReals(xs) * t;
      }
    }
  }

  /**
   * The expected counts: nine entries, the one for digit i + 1 being the
   * probability of that digit times the total; they add up to the total when the probabilities add up to one,
   * and none is negative when no probability is.
   */
  lemma ExpectedSpec(p: ProbVector, total: nat)
    ensures forall i :: 0 <= i < 9 ==> Expected(p, total)[i] == p[i] * total as real
    ensures SumReals(Expected(p, total)) == SumReals(p) * total as real
    ensures IsDistribution(p) ==> SumReals(Expected(p, total)) == total as real
    ensures IsDistribution(p) ==> forall i :: 0 <= i < 9 ==> Expected(p, total)[i] >= 0.0
  {
    SumScaleAll(p, total as real);
  }
}
