# Benford's Law analyser: the analysis core in Dafny

This project models the part of `benfords_law_app.py` (a Tkinter application
that tests whether a numeric column follows Benford's law) that turns a column
into a result record:

- the optional **range filter** of `filter_data`. Apply keeps the values
  `>=` the minimum, `<=` the maximum, both or neither. Cancel keeps the column.
  Closing the window keeps whatever `self.filtered_data` held before, through
  the `getattr` fallback.
- **leading-digit extraction**: `abs()`, then `astype(str)`, then the first
  character read back as an `int`, then the mask `> 0`;
- the **histogram** `value_counts().sort_index()` and its sum;
- the **expected counts** `expected_probs * total_counts`;
- **result assembly** into `self.results`, and the state the controller keeps
  between runs.

How the model is laid out:

- `Rendering` models Python's text for an `int` and for a finite `float`.
  A float is held as its shortest significand `d1..dk` and decimal-point
  position `decpt`, with value `0.d1..dk * 10^decpt`. `repr` is positional
  for `-4 < decpt <= 16` and scientific otherwise.
- `Samples` gives one column value: its number, `abs` and negation.
- `RangeFilter` models `apply_filter`.
- `LeadingDigits` models the digit extraction and the mask.
- `Histogram` models the value counts.
- `ExpectedCounts` models the scaling of the probability vector.
- `Analysis` models the result record and the class `BenfordsLawApp`. The
  class's fields `results` and `filteredData` are updated in place by
  `FilterData` and `AnalyzeData`.

Two behaviours of the code that a reader might not expect:

- `value_counts()` has one entry per digit that actually occurs, so it does
  not always have nine entries (`Histogram.MissingDigitMisaligns`). When a
  digit is missing, the chi-squared call at line 146 gets fewer observed
  counts than its nine expected counts. It raises, and no record is stored
  (`Analysis.MissingDigitRunFails`, `Analysis.TenSampleRun`). So every
  stored record has nine observed counts, aligned with the digits 1..9.
- A float with `1e-4 <= |x| < 1` prints as `0.xxx`. Its first character is
  `0`, so it is dropped. It is not counted under its first significant digit
  (`LeadingDigits.FloatFirstDigitMagnitude`, `LeadingDigits.FloatFirstDigitExamples`).

## Model

| member | source | states |
|---|---|---|
| Rendering.NatToString | benfords_law_app.py:137 | the text of a non-negative integer is non-empty and made only of decimal digit characters |
| Rendering.Render | benfords_law_app.py:137 | `str` of a finite float; its first character is stated by `Rendering.RenderFirstChar` |
| Rendering.NatToStringLeadingDigit | benfords_law_app.py:137 | the first character of `str(n)` is the most significant digit d of n: d * 10^k <= n < (d + 1) * 10^k with k + 1 the length of the text, and d > 0 when n > 0 |
| Rendering.NatToStringTimesTen | benfords_law_app.py:137 | `str(10 * n)` is `str(n)` followed by "0" for n > 0 |
| Rendering.RenderFirstChar | benfords_law_app.py:137 | the text of a non-negative float starts with '0' exactly for zero and for decpt in -3..0 (which `Samples.ZeroPointBand` shows is 1e-4 <= x < 1), and otherwise with its first significant digit |
| Samples.Abs | benfords_law_app.py:137 | `.abs()` of one value; its value is stated by `Samples.AbsValue` |
| Samples.AbsValue | benfords_law_app.py:137 | `abs()` gives each sample the absolute value of its number |
| Samples.NegateValue | benfords_law_app.py:137 | negating a sample negates its number |
| Samples.FloatValueBounds | benfords_law_app.py:137 | a positive float with decimal-point position decpt lies in [10^(decpt-1), 10^decpt) |
| Samples.ZeroPointBand | benfords_law_app.py:137 | a positive float has decpt in -3..0, the positions `str` prints as "0.xxx", exactly when 1e-4 <= x < 1 |
| LeadingDigits.Text | benfords_law_app.py:137 | `astype(str)` of one value; `LeadingDigits.AbsTextStartsWithDigit` states that the text of an absolute value starts with a digit |
| LeadingDigits.FirstDigit | benfords_law_app.py:137 | `.str[0].astype(int)` of the text of the absolute value; stated by `LeadingDigits.IntFirstDigit`, `LeadingDigits.FloatFirstDigit` and `LeadingDigits.FloatFirstDigitMagnitude` |
| LeadingDigits.FirstDigits | benfords_law_app.py:137 | one digit per sample, in order, each the first character of the sample's absolute value's text |
| LeadingDigits.FloatFirstDigit | benfords_law_app.py:137 | a float's first digit is 0 for zero and for decpt in -3..0, and otherwise its first significant digit |
| LeadingDigits.FloatFirstDigitMagnitude | benfords_law_app.py:137 | a float's first digit is 0 exactly when abs(x) is 0 or 1e-4 <= abs(x) < 1, and otherwise its first significant digit |
| LeadingDigits.IntFirstDigit | benfords_law_app.py:137 | an integer's first digit d is its most significant digit (d * 10^k <= abs(n) < (d + 1) * 10^k), and d is 0 exactly when n is 0 |
| LeadingDigits.FirstDigitSignInvariant | benfords_law_app.py:137 | x and -x have the same first digit, because `abs` comes first |
| LeadingDigits.IntFirstDigitTimesTen | benfords_law_app.py:137 | n and 10 * n have the same first digit |
| LeadingDigits.FloatFirstDigitScale | benfords_law_app.py:137 | moving a float's decimal point keeps its first digit while neither position is in the "0.xxx" band (decpt in -3..0), and gives 0 once the new position is in it |
| LeadingDigits.IntFirstDigitExamples | benfords_law_app.py:137 | -42, 42 and 420000 give 4; 0 gives 0 |
| LeadingDigits.FloatFirstDigitExamples | benfords_law_app.py:137-138 | 4.2, -4.2 and 4.2e-05 give 4; 0.042 and 0.0 give 0 |
| LeadingDigits.DropZeros | benfords_law_app.py:138 | the mask keeps only digits 1..9 and never lengthens the series |
| LeadingDigits.DropZerosKeepsNonzero | benfords_law_app.py:138 | a digit survives the mask iff it occurs and is not 0; exactly the zeros are removed |
| LeadingDigits.DropZerosNoZeros | benfords_law_app.py:138 | a series without zeros passes the mask unchanged |
| LeadingDigits.DropZerosAppend | benfords_law_app.py:138 | the mask distributes over concatenation, so it keeps order |
| LeadingDigits.KeptDigits | benfords_law_app.py:137-138 | the first digits with zeros masked out; stated by `LeadingDigits.DropZerosKeepsNonzero`, `LeadingDigits.KeptDigitsAppend` and `LeadingDigits.IntKeptCount` |
| LeadingDigits.KeptDigitsAppend | benfords_law_app.py:137-138 | extraction plus mask distributes over concatenation of sample series |
| LeadingDigits.IntKeptCount | benfords_law_app.py:137-138 | for an integer column the number of kept digits is the number of nonzero values |
| LeadingDigits.FloatKeptCountDiffers | benfords_law_app.py:137-138 | for a float column it is not: 0.5 is nonzero and still dropped |
| RangeFilter.Where | benfords_law_app.py:239-243 | a boolean-mask selection is no longer than its input and every element it keeps is in range |
| RangeFilter.WhereCounts | benfords_law_app.py:239-243 | the selection keeps every occurrence of an in-range sample and none of any other |
| RangeFilter.WhereAppend | benfords_law_app.py:239-243 | the selection distributes over concatenation |
| RangeFilter.WhereAllInRange | benfords_law_app.py:239-243 | a series entirely in range is selected whole |
| RangeFilter.ApplyFilter | benfords_law_app.py:238-245 | `apply_filter`'s four branches; stated by `RangeFilter.ApplyFilterMembers`, `RangeFilter.ApplyFilterKeepsOrder`, `RangeFilter.ApplyFilterIdempotent` and `RangeFilter.ApplyFilterCrossedBounds` |
| RangeFilter.ApplyFilterIsWhere | benfords_law_app.py:238-245 | each of the four branches is the selection by its bounds; with no bound the series is returned unchanged |
| RangeFilter.ApplyFilterMembers | benfords_law_app.py:238-245 | a sample is in the result iff it is in the input and within the inclusive bounds, with its multiplicity kept |
| RangeFilter.ApplyFilterKeepsOrder | benfords_law_app.py:238-245 | filtering a prefix and the rest separately and joining gives the filtered whole |
| RangeFilter.ApplyFilterIdempotent | benfords_law_app.py:238-245 | filtering twice with the same bounds equals filtering once |
| RangeFilter.ApplyFilterCrossedBounds | benfords_law_app.py:239 | a minimum above the maximum leaves nothing |
| Histogram.BinsFrom | benfords_law_app.py:140 | the bins from digit d on are strictly ascending, each at least d and holding its digit's number of occurrences, at least one |
| Histogram.ValueCounts | benfords_law_app.py:140 | `value_counts().sort_index()`; stated by `Histogram.ValueCountsSpec`, `Histogram.ValueCountsFull` and `Histogram.ValueCountsAligned` |
| Histogram.Counts | benfords_law_app.py:153 | `.values.tolist()`: one count per bin, in the table's order |
| Histogram.ValueCountsSpec | benfords_law_app.py:140-141 | the keys are exactly the distinct digits, strictly ascending, each with its count (at least 1); the counts sum to the number of digits |
| Histogram.ValueCountsFull | benfords_law_app.py:140 | without zeros the table has at most nine entries, and nine exactly when every digit 1..9 occurs |
| Histogram.ValueCountsAligned | benfords_law_app.py:140-153 | a nine-entry table has keys 1..9 and its counts are the per-digit counts in that order |
| Histogram.MissingDigitMisaligns | benfords_law_app.py:140-153 | for the digits [2] the table is the single bin (2, 1): its count list [1] is not the per-digit counts, whose first entry is 0, and it is shorter than the nine expected counts |
| ExpectedCounts.ScaleAll | benfords_law_app.py:143 | scaling a vector multiplies each entry and keeps the length |
| ExpectedCounts.SumScaleAll | benfords_law_app.py:143 | the sum of a scaled vector is the scaled sum |
| ExpectedCounts.Expected | benfords_law_app.py:143 | nine expected counts; their entries and sum are stated by `ExpectedCounts.ExpectedSpec` |
| ExpectedCounts.ExpectedSpec | benfords_law_app.py:143 | nine expected counts p[i] * total summing to sum(p) * total; for a probability distribution they are non-negative and sum to total |
| Analysis.StoredFilter | benfords_law_app.py:247-254 | `self.filtered_data` after the dialog: set by Apply and Cancel, untouched by closing; stated by `Analysis.FilterResultSpec` |
| Analysis.FilterResult | benfords_law_app.py:258 | `getattr(self, 'filtered_data', data_series)`; stated by `Analysis.FilterResultSpec` |
| Analysis.FilterResultSpec | benfords_law_app.py:247-258 | after Apply the analysed series is exactly the range-filtered column, in order and with multiplicity: a sample is in it iff it is in the column and in range; after Cancel it is the column; after closing the window it is the previously stored series, or the column if none was stored |
| Analysis.RaisesOnShapeMismatch | benfords_law_app.py:146 | the assumption about `stats.chisquare` that `Analysis.BenfordsLawApp.AnalyzeData` requires: observed and expected lists of different lengths make it raise |
| Analysis.Record | benfords_law_app.py:137-160 | the record has digits 1..9, the column and the test outputs. Its observed counts are the ascending value counts of the kept digits: at most nine, summing to the number kept, nine iff every digit occurs, and then the per-digit counts. Its nine expected counts are p[i] * kept and sum to kept |
| Analysis.BenfordsLawApp.constructor | benfords_law_app.py:93-95 | a new controller has no results, no stored filter and the given digit probabilities |
| Analysis.BenfordsLawApp.FilterData | benfords_law_app.py:234-258 | stores the filtered series (Apply), the column (Cancel) or nothing (close), and returns the stored series or the column |
| Analysis.BenfordsLawApp.AnalyzeData | benfords_law_app.py:131-160 | reports no data iff the series is empty, and fails iff the chi-squared routine raises. It leaves `results` unchanged unless it succeeds, and then stores exactly `Record` of the series. A stored record always has nine observed counts, equal to the per-digit counts |
| Analysis.StaleFilterRerun | benfords_law_app.py:247-258 | a run after an applied minimum, whose dialog is closed without Apply or Cancel, analyses the earlier filtered series rather than the new column |
| Analysis.MissingDigitShortTable | benfords_law_app.py:138-141 | with zeros masked out and some digit 1..9 missing, the value counts have fewer than nine entries and still sum to the number of digits |
| Analysis.MissingDigitRunFails | benfords_law_app.py:131-151 | a non-empty column whose kept digits miss some digit 1..9 ends with the chi-squared routine raising, and no record is stored |
| Analysis.SmallIntFirstDigit | benfords_law_app.py:137 | below 1000, an integer's first digit is its hundreds, tens or units digit, whichever leads |
| Analysis.TenSampleDigits | benfords_law_app.py:137 | the first digits of 123, 234, 111, 19, 5, 88, 712, 34, 256, 91 are 1, 2, 1, 1, 5, 8, 7, 3, 2, 9 |
| Analysis.TenSampleKept | benfords_law_app.py:137-138 | none of those digits is 0, so all ten are kept |
| Analysis.TenSampleRun | benfords_law_app.py:131-151 | analysing those ten integers stores no record: 4 and 6 never occur, so the chi-squared routine raises |

## Left out

- The user interface is not modelled. That covers the file dialog, CSV and
  Excel loading, previews, message boxes, the result text, the plot and
  saving.
- The choice of column is not modelled, and neither are the guards around it
  (lines 123-129, 165-168). The model starts from a column already chosen.
- `select_dtypes` and `dropna` are not modelled. A sample is a finite integer
  or float with no missing value.
- The text of the bound entries and `float()` parsing are not modelled. Bounds
  arrive already parsed, or `None` for an empty entry. An entry that fails to
  parse shows an error and keeps the dialog open (lines 248-249). The model
  does not represent this, because only the action that finally closes the
  dialog affects the result.
- `stats.chisquare` and `stats.kstest` are not modelled, because they are
  SciPy routines.
  - Both come in as function parameters.
  - The chi-squared routine returns `None` where it raises.
  - The routine is assumed to raise whenever the observed and expected lists
    differ in length (`RaisesOnShapeMismatch`, required by
    `AnalyzeData`). For 0 or 2..8 observed counts, numpy cannot broadcast
    them against nine expected counts. For one observed count it broadcasts,
    and the model relies on the routine's check that both lists have the
    same total, which rejects it. SciPy releases without that check would
    instead return a statistic for that single case.
  - An exception leaves `results` unchanged.
  - The Kolmogorov-Smirnov routine is taken to be total.
- `expected_probs` is taken as any nine-entry vector `p`. Its values
  `log10(1 + 1/d)` are floating point and are not modelled. Properties that
  need a distribution assume `IsDistribution(p)`.
- Floating-point arithmetic is not modelled. Comparisons and products are on
  exact reals.
- The IEEE-754 choice of shortest digits is not modelled. A float is given by
  its shortest significand and decimal exponent.
- NaN, infinities and `-0.0` are not modelled. `str(inf)` starts with `i` and
  `astype(int)` would raise on it.
- int64 width is not modelled, including the wrap-around of `abs` at the
  smallest int64.
- Samples.Scale: the model does not prove that moving the decimal point
  multiplies the value by 10^k. Only its effect on the first digit is stated
  (`LeadingDigits.FloatFirstDigitScale`).
