/**
 * The optional range filter of `filter_data`: after Apply, the series is cut
 * down to the values >= the minimum, <= the maximum, both or neither,
 * depending on which of the two entries was filled in. Bounds arrive already
 * parsed; an empty entry is `None`.
 */
module RangeFilter {
  import opened Wrappers
  import opened Samples

  /** Both given bounds hold of x; an absent bound always holds. Bounds are inclusive. */
  predicate InRange(x: real, lo: Option<real>, hi: Option<real>) {
    (lo.None? || x >= lo.value) && (hi.None? || x <= hi.value)
  }

  /** A boolean-mask selection: the samples whose value is in range, in their original order. */
  function Where(data: seq<Sample>, lo: Option<real>, hi: Option<real>): (r: seq<Sample>)
    ensures |r| <= |data|
    ensures forall i :: 0 <= i < |r| ==> InRange(Value(r[i]), lo, hi)
  {
    if data == [] then []
    else (if InRange(Value(data[0]), lo, hi) then [data[0]] else []) + Where(data[1..], lo, hi)
  }

  /** `apply_filter`, branch for branch: both bounds, the minimum only, the maximum only, none. */
  function ApplyFilter(data: seq<Sample>, lo: Option<real>, hi: Option<real>): seq<Sample> {
    match (lo, hi)
    case (Some(_), Some(_)) => Where(data, lo, hi)
    case (Some(_), None) => Where(data, lo, None)
    case (None, Some(_)) => Where(data, None, hi)
    case (None, None) => data
  }

  /**
   * The filter keeps every occurrence of an in-range sample and no
   * occurrence of any other sample.
   */
  lemma {:induction false} WhereCounts(data: seq<Sample>, lo: Option<real>, hi: Option<real>)
    ensures forall x :: multiset(Where(data, lo, hi))[x] ==
                        if InRange(Value(x), lo, hi) then multiset(data)[x] else 0
  {
    if data != [] {
      WhereCounts(data[1..], lo, hi);
      assert data == [data[0]] + data[1..];
    }
  }

  /** Selection works element by element, so it keeps the input's order. */
  lemma {:induction false} WhereAppend(a: seq<Sample>, b: seq<Sample>, lo: Option<real>, hi: Option<real>)
    ensures Where(a + b, lo, hi) == Where(a, lo, hi) + Where(b, lo, hi)
  {
    if a != [] {
      var head: seq<Sample> := if InRange(Value(a[0]), lo, hi) then [a[0]] else [];
      assert (a + b)[0] == a[0];
      assert (a + b)[1..] == a[1..] + b;
      calc {
        Where(a + b, lo, hi);
        head + Where(a[1..] + b, lo, hi);
        { WhereAppend(a[1..], b, lo, hi); }
        head + (Where(a[1..], lo, hi) + Where(b, lo, hi));
        (head + Where(a[1..], lo, hi)) + Where(b, lo, hi);
      }
    } else {
      assert a + b == b;
    }
  }

  /** A selection whose every element is in range selects everything. */
  lemma {:induction false} WhereAllInRange(data: seq<Sample>, lo: Option<real>, hi: Option<real>)
    requires forall i :: 0 <= i < |data| ==> InRange(Value(data[i]), lo, hi)
    ensures Where(data, lo, hi) == data
  {
    if data != [] {
      WhereAllInRange(data[1..], lo, hi);
      assert data == [data[0]] + data[1..];
    }
  }

  /**
   * Every branch of `apply_filter` is the selection by its bounds: with no
   * bound at all the series comes back unchanged.
   */
  lemma ApplyFilterIsWhere(data: seq<Sample>, lo: Option<real>, hi: Option<real>)
    ensures ApplyFilter(data, lo, hi) == Where(data, lo, hi)
    ensures lo.None? && hi.None? ==> ApplyFilter(data, lo, hi) == data
  {
    if lo.None? && hi.None? {
      WhereAllInRange(data, lo, hi);
    }
  }

  /**
   * What the filter returns: a sample is in it exactly when it is in the
   * input and in range, each with its multiplicity.
   */
  lemma ApplyFilterMembers(data: seq<Sample>, lo: Option<real>, hi: Option<real>)
    ensures forall x :: x in ApplyFilter(data, lo, hi) <==> x in data && InRange(Value(x), lo, hi)
    ensures forall x :: multiset(ApplyFilter(data, lo, hi))[x] ==
                        if InRange(Value(x), lo, hi) then multiset(data)[x] else 0
  {
    ApplyFilterIsWhere(data, lo, hi);
    WhereCounts(data, lo, hi);
    var r := ApplyFilter(data, lo, hi);
    forall x ensures x in r <==> x in data && InRange(Value(x), lo, hi) {
      assert x in r <==> multiset(r)[x] > 0;
      assert x in data <==> multiset(data)[x] > 0;
    }
  }

  /**
   * The filter keeps the input's order: filtering any prefix and the rest
   * separately and joining the results gives the filtered whole.
   */
  lemma ApplyFilterKeepsOrder(data: seq<Sample>, lo: Option<real>, hi: Option<real>, n: nat)
    requires n <= |data|
    ensures ApplyFilter(data, lo, hi) == ApplyFilter(data[..n], lo, hi) + ApplyFilter(data[n..], lo, hi)
  {
    ApplyFilterIsWhere(data, lo, hi);
    ApplyFilterIsWhere(data[..n], lo, hi);
    ApplyFilterIsWhere(data[n..], lo, hi);
    assert data == data[..n] + data[n..];
    WhereAppend(data[..n], data[n..], lo, hi);
  }

  /** Applying the filter twice with the same bounds equals applying it once. */
  lemma ApplyFilterIdempotent(data: seq<Sample>, lo: Option<real>, hi: Option<real>)
    ensures ApplyFilter(ApplyFilter(data, lo, hi), lo, hi) == ApplyFilter(data, lo, hi)
  {
    ApplyFilterIsWhere(data, lo, hi);
    ApplyFilterIsWhere(Where(data, lo, hi), lo, hi);
    WhereAllInRange(Where(data, lo, hi), lo, hi);
  }

  /** A minimum above the maximum leaves nothing. */
  lemma ApplyFilterCrossedBounds(data: seq<Sample>, lo: real, hi: real)
    requires lo > hi
    ensures ApplyFilter(data, Some(lo), Some(hi)) == []
  {
  }
}
