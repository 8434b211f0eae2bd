/**
 * `first_digits.value_counts().sort_index()` and its `.sum()`: one bin per
 * digit that occurs, in ascending digit order, holding how often it occurs.
 * A digit that does not occur has no bin at all, so the table is not always
 * nine entries long.
 */
module Histogram {
  import opened Rendering

  datatype Bin = Bin(digit: Digit, count: nat)

  function Count(ds: seq<Digit>, d: Digit): nat {
    multiset(ds)[d]
  }

  /** The bins for the digits d..9, in ascending order. */
  function BinsFrom(ds: seq<Digit>, d: nat): (r: seq<Bin>)
    requires d <= 10
    ensures |r| <= 10 - d
    ensures forall i :: 0 <= i < |r| ==> d <= r[i].digit && r[i].count == Count(ds, r[i].digit) && r[i].count >= 1
    ensures forall i, j :: 0 <= i < j < |r| ==> r[i].digit < r[j].digit
    decreases 10 - d
  {
    if d == 10 then []
    else (if Count(ds, d) > 0 then [Bin(d, Count(ds, d))] else []) + BinsFrom(ds, d + 1)
  }

  /** `value_counts().sort_index()` of a series of digits. */
  function ValueCounts(ds: seq<Digit>): seq<Bin> {
    BinsFrom(ds, 0)
  }

  /** The index of the table: its digits. */
  function Keys(h: seq<Bin>): (r: seq<nat>)
    ensures |r| == |h| && forall i :: 0 <= i < |h| ==> r[i] == h[i].digit
  {
    seq(|h|, i requires 0 <= i < |h| => h[i].digit)
  }

  /** `.values.tolist()`: the counts, in the table's order. */
  function Counts(h: seq<Bin>): (r: seq<nat>)
    ensures |r| == |h| && forall i :: 0 <= i < |h| ==> r[i] == h[i].count
  {
    seq(|h|, i requires 0 <= i < |h| => h[i].count)
  }

  function Sum(xs: seq<nat>): nat {
    if xs == [] then 0 else xs[0] + Sum(xs[1..])
  }

  /** The keys of the bins from d on are exactly the digits >= d that occur. */
  lemma {:induction false} BinsFromKeys(ds: seq<Digit>, d: nat)
    requires d <= 10
    ensures forall e: Digit :: e in Keys(BinsFrom(ds, d)) <==> d <= e && e in ds
    decreases 10 - d
  {
    if d < 10 {
      BinsFromKeys(ds, d + 1);
      var rest := BinsFrom(ds, d + 1);
      assert d in ds <==> Count(ds, d) > 0;
      if Count(ds, d) > 0 {
        assert BinsFrom(ds, d) == [Bin(d, Count(ds, d))] + rest;
        assert Keys(BinsFrom(ds, d)) == [d] + Keys(rest);
      } else {
        assert BinsFrom(ds, d) == rest;
      }
    }
  }

  /** How many elements of ds are >= d. */
  function CountFrom(ds: seq<Digit>, d: nat): nat
    requires d <= 10
    decreases 10 - d
  {
    if d == 10 then 0 else Count(ds, d) + CountFrom(ds, d + 1)
  }

  lemma {:induction false} BinsFromSum(ds: seq<Digit>, d: nat)
    requires d <= 10
    ensures Sum(Counts(BinsFrom(ds, d))) == CountFrom(ds, d)
    decreases 10 - d
  {
    if d < 10 {
      BinsFromSum(ds, d + 1);
      var rest := BinsFrom(ds, d + 1);
      if Count(ds, d) > 0 {
        var h := BinsFrom(ds, d);
        assert h == [Bin(d, Count(ds, d))] + rest;
        assert Counts(h)[1..] == Counts(rest);
      } else {
        assert BinsFrom(ds, d) == rest;
      }
    }
  }

  /** Adding one digit x in front adds one to the count of every range that holds x. */
  lemma {:induction false} CountFromCons(x: Digit, ds: seq<Digit>, d: nat)
    requires d <= 10
    ensures CountFrom([x] + ds, d) == CountFrom(ds, d) + (if d <= x then 1 else 0)
    decreases 10 - d
  {
    if d < 10 {
      CountFromCons(x, ds, d + 1);
      assert multiset([x] + ds) == multiset{x} + multiset(ds);
    }
  }

  lemma {:induction false} CountFromAll(ds: seq<Digit>)
    ensures CountFrom(ds, 0) == |ds|
  {
    if ds == [] {
      CountFromEmpty(0);
    } else {
      assert [ds[0]] + ds[1..] == ds;
      calc {
        CountFrom(ds, 0);
        { CountFromCons(ds[0], ds[1..], 0); }
        CountFrom(ds[1..], 0) + 1;
        { CountFromAll(ds[1..]); }
        |ds|;
      }
    }
  }

  lemma {:induction false} CountFromEmpty(d: nat)
    requires d <= 10
    ensures CountFrom([], d) == 0
    decreases 10 - d
  {
    if d < 10 {
      CountFromEmpty(d + 1);
    }
  }

  /**
   * The value counts: the keys are exactly the distinct digits of ds, in
   * strictly ascending order, each with its number of occurrences (at least
   * one), and the counts add up to the number of digits.
   */
  lemma ValueCountsSpec(ds: seq<Digit>)
    ensures forall e: Digit :: e in Keys(ValueCounts(ds)) <==> e in ds
    ensures forall i :: 0 <= i < |ValueCounts(ds)| ==>
              ValueCounts(ds)[i].count == Count(ds, ValueCounts(ds)[i].digit) >= 1
    ensures forall i, j :: 0 <= i < j < |ValueCounts(ds)| ==> ValueCounts(ds)[i].digit < ValueCounts(ds)[j].digit
    ensures Sum(Counts(ValueCounts(ds))) == |ds|
  {
    BinsFromKeys(ds, 0);
    BinsFromSum(ds, 0);
    CountFromAll(ds);
  }

  /** The table for digits d..9 has 10 - d entries exactly when each of them occurs. */
  lemma {:induction false} BinsFromFull(ds: seq<Digit>, d: nat)
    requires d <= 10
    ensures |BinsFrom(ds, d)| == 10 - d <==> forall e: Digit :: d <= e ==> e in ds
    decreases 10 - d
  {
    if d < 10 {
      BinsFromFull(ds, d + 1);
      assert Count(ds, d) > 0 <==> d in ds;
    }
  }

  /**
   * With the zeros masked out, the table has nine entries exactly when every
   * digit 1..9 occurs; otherwise it is shorter than the nine-entry digit and
   * expected lists it is paired with.
   */
  lemma ValueCountsFull(ds: seq<Digit>)
    requires 0 !in ds
    ensures |ValueCounts(ds)| <= 9
    ensures |ValueCounts(ds)| == 9 <==> forall e: Digit :: 1 <= e ==> e in ds
  {
    BinsFromFull(ds, 1);
    assert ValueCounts(ds) == BinsFrom(ds, 1);
  }

  /** The count of each digit 1..9 at index digit - 1, zeros included. */
  function DigitCounts(ds: seq<Digit>): (r: seq<nat>)
    ensures |r| == 9
  {
    seq(9, i requires 0 <= i < 9 => Count(ds, i + 1))
  }

  /**
   * Only a full table lines up with the digits 1..9: its keys are then
   * 1..9 and its counts are the per-digit counts.
   */
  lemma ValueCountsAligned(ds: seq<Digit>)
    requires 0 !in ds
    ensures |ValueCounts(ds)| == 9 ==> Keys(ValueCounts(ds)) == [1, 2, 3, 4, 5, 6, 7, 8, 9]
    ensures |ValueCounts(ds)| == 9 ==> Counts(ValueCounts(ds)) == DigitCounts(ds)
  {
    if |ValueCounts(ds)| == 9 {
      FullTableAligned(ds);
    }
  }

  lemma FullTableAligned(ds: seq<Digit>)
    requires 0 !in ds
    requires |ValueCounts(ds)| == 9
    ensures Keys(ValueCounts(ds)) == [1, 2, 3, 4, 5, 6, 7, 8, 9]
    ensures Counts(ValueCounts(ds)) == DigitCounts(ds)
  {
    var h := ValueCounts(ds);
    var cs, dc := Counts(h), DigitCounts(ds);
    FullTableKeys(ds);
    forall i | 0 <= i < 9 ensures cs[i] == dc[i] {
      assert h[i].digit == i + 1;
      assert cs[i] == h[i].count == Count(ds, i + 1);
    }
    assert |cs| == |dc| == 9;
  }

  lemma FullTableKeys(ds: seq<Digit>)
    requires 0 !in ds
    requires |ValueCounts(ds)| == 9
    ensures Keys(ValueCounts(ds)) == [1, 2, 3, 4, 5, 6, 7, 8, 9]
    ensures forall i :: 0 <= i < 9 ==> ValueCounts(ds)[i].digit == i + 1
  {
    var h := BinsFrom(ds, 0);
    var ks := Keys(h);
    assert Count(ds, 0) == 0;
    forall i | 0 <= i < 9 ensures 1 <= ks[i] <= 9 {
      assert ks[i] == h[i].digit && Count(ds, h[i].digit) >= 1;
    }
    StrictlyAscendingFromOne(ks);
  }

  /** Nine strictly ascending values in 1..9 are 1, 2, ..., 9. */
  lemma StrictlyAscendingFromOne(ks: seq<nat>)
    requires |ks| == 9
    requires forall i :: 0 <= i < 9 ==> 1 <= ks[i] <= 9
    requires forall i, j :: 0 <= i < j < 9 ==> ks[i] < ks[j]
    ensures forall i :: 0 <= i < 9 ==> ks[i] == i + 1
    ensures ks == [1, 2, 3, 4, 5, 6, 7, 8, 9]
  {
    forall i | 0 <= i < 9 ensures ks[i] == i + 1 {
      AscendingLowerBound(ks, i);
      AscendingUpperBound(ks, i);
    }
  }

  lemma {:induction false} AscendingLowerBound(ks: seq<nat>, i: nat)
    requires |ks| == 9 && i < 9
    requires forall k :: 0 <= k < 9 ==> 1 <= ks[k] <= 9
    requires forall k, j :: 0 <= k < j < 9 ==> ks[k] < ks[j]
    ensures ks[i] >= i + 1
  {
    if i > 0 {
      AscendingLowerBound(ks, i - 1);
    }
  }

  lemma {:induction false} AscendingUpperBound(ks: seq<nat>, i: nat)
    requires |ks| == 9 && i < 9
    requires forall k :: 0 <= k < 9 ==> 1 <= ks[k] <= 9
    requires forall k, j :: 0 <= k < j < 9 ==> ks[k] < ks[j]
    ensures ks[i] <= i + 1
    decreases 9 - i
  {
    if i < 8 {
      AscendingUpperBound(ks, i + 1);
    }
  }

  /**
   * A table with a missing digit is not the per-digit counts: for the
   * digits [2] it is one bin, whose count 1 sits where digit 1's count, 0,
   * would be.
   */
  lemma MissingDigitMisaligns()
    ensures ValueCounts([2]) == [Bin(2, 1)]
    ensures Counts(ValueCounts([2]))[0] == 1 && DigitCounts([2])[0] == 0
  {
    var ds: seq<Digit> := [2];
    assert Count(ds, 2) == 1;
    assert forall e: Digit :: e != 2 ==> Count(ds, e) == 0;
    assert BinsFrom(ds, 3) == [] by {
      BinsFromKeys(ds, 3);
      assert forall e: Digit :: !(e in Keys(BinsFrom(ds, 3)));
    }
  }
}
