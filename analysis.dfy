/**
 * The analysis controller: `BenfordsLawApp` with the two fields its analysis
 * updates, `results` and `filtered_data`, and the steps of `analyze_data`
 * once a numeric column has been chosen and its missing values dropped.
 * The chi-squared and Kolmogorov-Smirnov tests are SciPy routines whose
 * outputs are only copied into the record; they come in as parameters.
 */
module Analysis {
  import opened Wrappers
  import opened Rendering
  import opened Samples
  import opened RangeFilter
  import opened LeadingDigits
  import opened Histogram
  import opened ExpectedCounts

  /** Statistic and p-value of each of the two tests. */
  datatype FitStatistics = FitStatistics(chiSquared: real, chiSquaredP: real, ks: real, ksP: real)

  /** The `self.results` dictionary. */
  datatype Results = Results(
    digit: seq<nat>,
    observedCounts: seq<nat>,
    expectedCounts: seq<real>,
    stats: FitStatistics,
    columnAnalyzed: string)

  /** How the filter dialog was closed: Apply with parsed bounds, Cancel, or the window's own close box. */
  datatype FilterAction = ApplyBounds(min: Option<real>, max: Option<real>) | Cancel | Closed

  datatype Outcome =
    | NoData      // nothing left after filtering: warning, no record
    | TestFailed  // the chi-squared routine raised: no record
    | Analyzed    // a new record was written

  /** `stats.chisquare(observed, expected)`; None when it raises. */
  type ChiSquareTest = (seq<nat>, seq<real>) -> Option<(real, real)>

  /**
   * `stats.chisquare` raises when the observed and expected lists differ in
   * length: numpy cannot broadcast k against nine entries for k != 1, and
   * for k == 1 the broadcast observed total is nine times the expected one,
   * which the routine's sum check rejects.
   * Quantified over all pairs, the predicate is stronger than SciPy in one
   * case: a single observed count o with 9 * o == sum(e) passes that check.
   * The program's own calls never hit it: the expected counts sum to the
   * total (probabilities summing to one) and the single count is the total,
   * which is positive.
   */
  ghost predicate RaisesOnShapeMismatch(chiSquare: ChiSquareTest) {
    forall o: seq<nat>, e: seq<real> :: |o| != |e| ==> chiSquare(o, e).None?
  }

  /** `stats.kstest(first_digits, uniform(1, 9).cdf)`. */
  type KsTest = seq<Digit> -> (real, real)

  /**
   * `self.filtered_data` after the dialog: Apply stores the filtered
   * series, Cancel stores the unfiltered one, and closing the window stores
   * nothing, leaving whatever an earlier run stored (or no attribute at all).
   */
  function StoredFilter(previous: Option<seq<Sample>>, data: seq<Sample>, action: FilterAction): Option<seq<Sample>> {
    match action
    case ApplyBounds(lo, hi) => Some(ApplyFilter(data, lo, hi))
    case Cancel => Some(data)
    case Closed => previous
  }

  /** What `filter_data` returns: `getattr(self, 'filtered_data', data_series)`. */
  function FilterResult(previous: Option<seq<Sample>>, data: seq<Sample>, action: FilterAction): seq<Sample> {
    StoredFilter(previous, data, action).GetOr(data)
  }

  /**
   * After Apply the analysed series is the range-filtered column, after
   * Cancel the column itself; after closing the window it is the series an
   * earlier run stored, which may belong to another column.
   */
  lemma FilterResultSpec(previous: Option<seq<Sample>>, data: seq<Sample>, action: FilterAction)
    ensures action.ApplyBounds? ==> FilterResult(previous, data, action) == ApplyFilter(data, action.min, action.max)
    ensures action.ApplyBounds? ==>
              forall x :: x in FilterResult(previous, data, action) <==>
                          x in data && InRange(Value(x), action.min, action.max)
    ensures action.ApplyBounds? && action.min.None? && action.max.None? ==> FilterResult(previous, data, action) == data
    ensures action.Cancel? ==> FilterResult(previous, data, action) == data
    ensures action.Closed? && previous.Some? ==> FilterResult(previous, data, action) == previous.value
    ensures action.Closed? && previous.None? ==> FilterResult(previous, data, action) == data
  {
    if action.ApplyBounds? {
      ApplyFilterMembers(data, action.min, action.max);
      ApplyFilterIsWhere(data, action.min, action.max);
    }
  }

  /**
   * The record one run writes for a non-empty series: the digits 1..9, the
   * value counts of the kept digits (as long as the number of distinct
   * digits, adding up to the number kept), the nine expected counts, the
   * test outputs and the column name.
   */
  function Record(column: string, series: seq<Sample>, p: ProbVector, chi: (real, real), ks: (real, real)): (r: Results)
    ensures r.digit == [1, 2, 3, 4, 5, 6, 7, 8, 9]
    ensures r.columnAnalyzed == column
    ensures r.stats == FitStatistics(chi.0, chi.1, ks.0, ks.1)
    ensures r.observedCounts == Counts(ValueCounts(KeptDigits(series)))
    ensures |r.observedCounts| <= 9
    ensures Sum(r.observedCounts) == |KeptDigits(series)|
    ensures |r.observedCounts| == 9 <==> forall d: Digit :: 1 <= d ==> d in KeptDigits(series)
    ensures |r.observedCounts| == 9 ==> r.observedCounts == DigitCounts(KeptDigits(series))
    ensures |r.expectedCounts| == 9
    ensures forall i :: 0 <= i < 9 ==> r.expectedCounts[i] == p[i] * |KeptDigits(series)| as real
    ensures IsDistribution(p) ==> SumReals(r.expectedCounts) == |KeptDigits(series)| as real
  {
    var firstDigits := KeptDigits(series);
    var digitCounts := ValueCounts(firstDigits);
    ValueCountsSpec(firstDigits);
    ValueCountsFull(firstDigits);
    ValueCountsAligned(firstDigits);
    var totalCounts := Sum(Counts(digitCounts));
    ExpectedSpec(p, totalCounts);
    Results([1, 2, 3, 4, 5, 6, 7, 8, 9], Counts(digitCounts), Expected(p, totalCounts),
            FitStatistics(chi.0, chi.1, ks.0, ks.1), column)
  }

  class BenfordsLawApp {
    var results: Option<Results>
    /** None while the attribute has never been set. */
    var filteredData: Option<seq<Sample>>
    const expectedProbs: ProbVector

    constructor (p: ProbVector)
      ensures results == None && filteredData == None && expectedProbs == p
    {
      results := None;
      filteredData := None;
      expectedProbs := p;
    }

    /** `filter_data`: the dialog's outcome, then `getattr(self, 'filtered_data', data_series)`. */
    method FilterData(data: seq<Sample>, action: FilterAction) returns (series: seq<Sample>)
      modifies this`filteredData
      ensures filteredData == StoredFilter(old(filteredData), data, action)
      ensures series == FilterResult(old(filteredData), data, action)
    {
      match action {
        case ApplyBounds(lo, hi) =>
          filteredData := Some(ApplyFilter(data, lo, hi));
        case Cancel =>
          filteredData := Some(data);
        case Closed =>
      }
      series := filteredData.GetOr(data);
    }

    /**
     * `analyze_data` from the filter dialog on: an empty series stops with
     * `results` unchanged; otherwise the digits are extracted and counted,
     * the tests run, and a new record replaces `results` unless the
     * chi-squared routine raises.
     */
    method AnalyzeData(column: string, data: seq<Sample>, action: FilterAction,
                       chiSquare: ChiSquareTest, ksTest: KsTest) returns (outcome: Outcome)
      requires RaisesOnShapeMismatch(chiSquare)
      modifies this`filteredData, this`results
      ensures filteredData == StoredFilter(old(filteredData), data, action)
      ensures var series := FilterResult(old(filteredData), data, action);
              var firstDigits := KeptDigits(series);
              var observed := Counts(ValueCounts(firstDigits));
              var chi := chiSquare(observed, Expected(expectedProbs, |firstDigits|));
              && (outcome == NoData <==> series == [])
              && (outcome == TestFailed <==> series != [] && chi.None?)
              && (outcome != Analyzed ==> results == old(results))
              && (outcome == Analyzed ==>
                    results == Some(Record(column, series, expectedProbs, chi.value, ksTest(firstDigits))))
      ensures outcome == Analyzed ==>
                results.Some? &&
                var series := FilterResult(old(filteredData), data, action);
                |results.value.observedCounts| == 9 &&
                results.value.observedCounts == DigitCounts(KeptDigits(series))
    {
      var series := FilterData(data, action);
      if series == [] {
        outcome := NoData;
        return;
      }
      var firstDigits := KeptDigits(series);
      var digitCounts := ValueCounts(firstDigits);
      var totalCounts := Sum(Counts(digitCounts));
      ValueCountsSpec(firstDigits);
      var expectedCounts := Expected(expectedProbs, totalCounts);
      var chi := chiSquare(Counts(digitCounts), expectedCounts);
      if chi.None? {
        outcome := TestFailed;
        return;
      }
      var ks := ksTest(firstDigits);
      results := Some(Results([1, 2, 3, 4, 5, 6, 7, 8, 9], Counts(digitCounts), expectedCounts,
                              FitStatistics(chi.value.0, chi.value.1, ks.0, ks.1), column));
      outcome := Analyzed;
    }
  }

  /**
   * The stale-state path: a run whose filter dialog is closed without Apply
   * or Cancel analyses the series the previous run stored, not the column it
   * was handed.
   */
  method StaleFilterRerun(p: ProbVector, first: seq<Sample>, min: real, second: seq<Sample>)
    returns (analysed: seq<Sample>)
    ensures analysed == ApplyFilter(first, Some(min), None)
  {
    var app := new BenfordsLawApp(p);
    var _ := app.FilterData(first, ApplyBounds(Some(min), None));
    analysed := app.FilterData(second, Closed);
  }

  /** Without zeros and with some digit missing, the table is shorter than nine and still sums to the length. */
  lemma MissingDigitShortTable(ds: seq<Digit>, missing: Digit)
    requires 0 !in ds && 1 <= missing && missing !in ds
    ensures |Counts(ValueCounts(ds))| < 9
    ensures Sum(Counts(ValueCounts(ds))) == |ds|
  {
    ValueCountsFull(ds);
    ValueCountsSpec(ds);
  }

  /**
   * A run on a non-empty column (the dialog cancelled) whose kept digits
   * miss some digit 1..9 stops at the chi-squared test, which raises on
   * fewer observed counts than the nine expected ones: no record is stored.
   */
  method MissingDigitRunFails(p: ProbVector, column: string, data: seq<Sample>, missing: Digit,
                              chiSquare: ChiSquareTest, ksTest: KsTest)
    returns (outcome: Outcome, stored: Option<Results>)
    requires RaisesOnShapeMismatch(chiSquare)
    requires data != [] && 1 <= missing && missing !in KeptDigits(data)
    ensures outcome == TestFailed && stored == None
  {
    var kept := KeptDigits(data);
    DropZerosKeepsNonzero(FirstDigits(data));
    MissingDigitShortTable(kept, missing);
    assert chiSquare(Counts(ValueCounts(kept)), Expected(p, |kept|)).None?;
    var app := new BenfordsLawApp(p);
    outcome := app.AnalyzeData(column, data, Cancel, chiSquare, ksTest);
    stored := app.results;
  }

  /**
   * The integers 123, 234, 111, 19, 5, 88, 712, 34, 256, 91 keep all ten
   * first digits, but 4 and 6 never occur: the run stores no record.
   */
  method TenSampleRun(p: ProbVector, chiSquare: ChiSquareTest, ksTest: KsTest)
    returns (outcome: Outcome, stored: Option<Results>)
    requires RaisesOnShapeMismatch(chiSquare)
    ensures outcome == TestFailed && stored == None
  {
    TenSampleKept();
    assert 4 !in KeptDigits(TenSamples());
    outcome, stored := MissingDigitRunFails(p, "amount", TenSamples(), 4, chiSquare, ksTest);
  }

  /** No first digit of the worked run is 0, so the mask keeps all ten. */
  lemma TenSampleKept()
    ensures KeptDigits(TenSamples()) == [1, 2, 1, 1, 5, 8, 7, 3, 2, 9]
  {
    var kept: seq<Digit> := [1, 2, 1, 1, 5, 8, 7, 3, 2, 9];
    TenSampleDigits();
    assert 0 !in kept;
    DropZerosNoZeros(kept);
  }

  function TenSamples(): seq<Sample> {
    [IntSample(123), IntSample(234), IntSample(111), IntSample(19), IntSample(5),
     IntSample(88), IntSample(712), IntSample(34), IntSample(256), IntSample(91)]
  }

  /** The first digits of the worked run, one per sample. */
  lemma TenSampleDigits()
    ensures FirstDigits(TenSamples()) == [1, 2, 1, 1, 5, 8, 7, 3, 2, 9]
  {
    var series := TenSamples();
    var kept: seq<Digit> := [1, 2, 1, 1, 5, 8, 7, 3, 2, 9];
    forall i | 0 <= i < 10 ensures FirstDigits(series)[i] == kept[i] {
      SmallIntFirstDigit(series[i].n);
    }
  }

  /** Below 1000 the first digit is the hundreds, tens or units digit, whichever leads. */
  lemma SmallIntFirstDigit(n: nat)
    requires n < 1000
    ensures FirstDigit(IntSample(n)) == if n >= 100 then n / 100 else if n >= 10 then n / 10 else n
  {
    var lead := if n >= 100 then n / 100 else if n >= 10 then n / 10 else n;
    if n >= 100 {
      assert n / 10 / 10 == n / 100;
      assert NatToString(n / 10)[0] == NatToString(n / 100)[0];
    }
    if n >= 10 {
      assert NatToString(n)[0] == NatToString(n / 10)[0];
    }
    assert NatToString(n)[0] == DigitChar(lead);
    assert Text(Abs(IntSample(n))) == NatToString(n);
  }
}
