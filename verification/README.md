# drun benchmark plots, modelled in Dafny

The program turns drun performance traces (CSV files, one record per
canister call) into gnuplot charts. It works in two steps:

- `add_cumulative_columns` reads a trace and appends three running
  totals to every record:
  - instructions (column 3);
  - accessed host pages (column 4);
  - dirtied host pages (column 5).
- For every entry of the plot catalogue `PLOTS`, `main` fills a gnuplot
  template. It replaces `$PLOTS` with the series list built by
  `plot_defs` (one clause per transformed file), then `$COLUMN_IDX` with
  the plotted column, then `$YLABEL` with the plot name, underscores
  turned into spaces.

The model has five modules:

- `Results`: `Option` and `Result`.
- `Decimal`: `u64::to_string` and `str::parse::<u64>`, with Rust's error
  kinds `Empty`, `InvalidDigit` and `PosOverflow`.
- `CumulativeColumns`: the transform.
  - The specification is the function `WithCumulativeColumns`, built from
    `Step` (one record) and `Walk` (the records in file order).
  - The method `AddCumulativeColumns` is the source's loop. It updates an
    array of records in place and is proved to compute the specification.
  - The outcome is `Result<Table, Stop>`. A `Stop` is either an `Error`
    returned with `?` or a panic: a failed `unwrap`, or a `u64` addition
    that overflows, as in a debug build.
- `Replace`: `str::replace`. It also holds the chunk-by-chunk reasoning
  that lets the replacement chain be computed on a template cut into
  chunks.
- `Plots`: `plot_defs`, the template, the replacement chain, and the
  `PLOTS` and `FILES` constants.

Each column is read after the totals before it have been pushed onto the
record. So on a record of three fields, columns 4 and 5 are the totals
just pushed. On a record of four fields, column 5 is the new instructions
total. The model keeps this behaviour: `ThreeFieldRecordReadsItsOwnTotals`
and `FourFieldRecordReadsItsOwnTotal` state it. On drun traces, which have
six columns, every summed column is an input field
(`StepReadsInputColumns`, `WellFormedTraceSucceeds`).

## Model

| member | source | states |
|---|---|---|
| Decimal.NatToString | src/main.rs:118 | the decimal text of a total is never empty |
| Decimal.NatToStringDigits | src/main.rs:118 | that text is all digits; it starts with `0` only for zero, and is one digit exactly for numbers below ten |
| Decimal.ParseDigits | src/main.rs:114 | the digit scan gives a value below 2^64, or `InvalidDigit`/`PosOverflow`, never `Empty` |
| Decimal.ParseU64 | src/main.rs:114 | `parse::<u64>` gives a value below 2^64; it is `Err(Empty)` exactly on the empty string |
| Decimal.ParseNatToString | src/main.rs:118-124 | parsing the text of any `u64` gives that number back |
| Decimal.NatToStringInjective | src/main.rs:118 | distinct `u64` values have distinct texts |
| CumulativeColumns.Get | src/main.rs:112 | `get` gives the field exactly when the index is inside the record |
| CumulativeColumns.ReadColumn | src/main.rs:111-134 | reading a column succeeds exactly when the field exists and is a `u64`, and gives its value; a missing field gives "CSV record doesn't have enough columns" for column 3 (`?`) and an `unwrap` of `None` for columns 4 and 5; an unparsable field gives `IntParseError` with the parse error's kind for column 3 and an `unwrap` of that `Err` for columns 4 and 5 |
| CumulativeColumns.Accumulate | src/main.rs:111-138 | succeeds exactly when the read succeeds and the new total is below 2^64; then the total grows by the field's value and its text is pushed; a failed read gives exactly the read's failure, and a successful read that fails is an overflow panic on that column |
| CumulativeColumns.Step | src/main.rs:110-139 | a successful iteration appends exactly three fields; "CSV record doesn't have enough columns" exactly when the record has fewer than three fields; an `unwrap` of a missing field never happens |
| CumulativeColumns.Walk | src/main.rs:106-139 | on success, one output record per input record, with totals that fit in `u64` |
| CumulativeColumns.WithCumulativeColumns | src/main.rs:95-139 | on success the header gains exactly the three labels and the record count is kept |
| CumulativeColumns.AddCumulativeColumns | src/main.rs:90-150 | the loop over the buffer of records computes `WithCumulativeColumns` |
| CumulativeColumns.AdvanceRecord | src/main.rs:110-139 | after record `i` is updated, the buffer up to `i` is the walk of the input up to `i`, the rest is untouched; or the whole walk stops with this record's failure |
| CumulativeColumns.UpdateRecord | src/main.rs:111-138 | the loop body changes only record `i` of the buffer, to what `Step` gives, and returns the new totals or `Step`'s failure |
| CumulativeColumns.PushRunningTotal | src/main.rs:111-118 | one read-add-push on record `i` changes only that record, to what `Accumulate` gives |
| CumulativeColumns.StopPersists | src/main.rs:113-114 | once a prefix of the records stops the loop, the whole run stops for that reason |
| CumulativeColumns.WalkExtends | src/main.rs:110-139 | a record that steps extends a successful walk by its output record |
| CumulativeColumns.StepStops | src/main.rs:110-139 | a record that fails or panics stops the walk there with that reason |
| CumulativeColumns.WalkTotalsAreColumnSums | src/main.rs:106-138 | the final running totals are the sums of the summed columns over the output records |
| CumulativeColumns.WalkPrefix | src/main.rs:110-139 | every prefix of a successful run is the run on the input prefix, with totals equal to the column sums so far |
| CumulativeColumns.StepAppendsTotals | src/main.rs:116-138 | a successful step appends the texts of the new totals; each total grows by the numeric value of its column in the output record |
| CumulativeColumns.CumulativeFieldsArePrefixSums | src/main.rs:116-138 | output record `i` is input record `i` followed by the texts of the column sums over output records 0 to `i` |
| CumulativeColumns.WalkAugmentsEachRecord | src/main.rs:110-139 | each output record is its input record, unchanged, with three fields appended |
| CumulativeColumns.ValueOfText | src/main.rs:118 | a pushed total reads back as that total |
| CumulativeColumns.ReadBackTotals | src/main.rs:118-138 | the appended fields read back as the column sums |
| CumulativeColumns.AppendedFieldValue | src/main.rs:116-138 | appended field `c` of record `i` holds the sum of its column over records 0 to `i` |
| CumulativeColumns.ColumnSumMonotone | src/main.rs:116-136 | a column sum over a longer prefix is at least that over a shorter one |
| CumulativeColumns.TotalsNonDecreasing | src/main.rs:116-138 | down the output, each cumulative column never decreases |
| CumulativeColumns.ThreeFieldRecordReadsItsOwnTotals | src/main.rs:111-138 | on a three-field record, columns 4 and 5 are the totals just pushed; the exact result, overflow panics included |
| CumulativeColumns.FourFieldRecordReadsItsOwnTotal | src/main.rs:111-138 | on a four-field record, column 5 is the instructions total just pushed; the exact result |
| CumulativeColumns.StepReadsInputColumns | src/main.rs:111-138 | a record with all three columns numeric is summed from its own fields; it succeeds exactly when the new totals fit in `u64` |
| CumulativeColumns.CarriesPrefixSumsSnoc | src/main.rs:110-139 | adding one record followed by its column sums keeps every record carrying its prefix sums |
| CumulativeColumns.FrontFits | src/main.rs:106-108 | totals that fit in `u64` over all records also fit over a prefix |
| CumulativeColumns.WellFormedTraceSucceeds | src/main.rs:106-139 | on records with numeric columns 3 to 5 and sums that fit in `u64`, the transform succeeds; every record carries the sums of the input columns up to it |
| CumulativeColumns.ShortRecordFails | src/main.rs:111-113 | a record with fewer than three fields, once reached, makes the transform fail with "CSV record doesn't have enough columns" |
| CumulativeColumns.UnparsableInstructionsFail | src/main.rs:111-114 | an instructions field that is not a `u64`, once reached, makes the transform fail with that parse error |
| CumulativeColumns.UnwrapErrBlamesInputField | src/main.rs:120-134 | a failed `unwrap` of a parse can only be in column 4 or 5, on a field the record had on input |
| CumulativeColumns.UnparsableAccessedPanics | src/main.rs:111-126 | an accessed-pages field that is not a `u64`, after an instructions sum that fits, makes the step panic in the `unwrap` of column 4 with that parse error |
| CumulativeColumns.UnparsableDirtiedPanics | src/main.rs:111-136 | a dirtied-pages field that is not a `u64`, after sums of columns 3 and 4 that fit, makes the step panic in the `unwrap` of column 5 with that parse error |
| CumulativeColumns.UnparsableAccessedPanicsWalk | src/main.rs:110-126 | such an accessed-pages field, once reached, makes the whole transform panic with that `unwrap` |
| CumulativeColumns.UnparsableDirtiedPanicsWalk | src/main.rs:110-136 | such a dirtied-pages field, once reached, makes the whole transform panic with that `unwrap` |
| Replace.ReplaceAll | src/main.rs:20-23 | `str::replace` with a pattern and replacement of the same length keeps the length |
| Replace.InertHasNoOccurrence | src/main.rs:20-23 | text in which the pattern's first character is never followed by its second holds no occurrence |
| Replace.SkipInert | src/main.rs:20-23 | such text is copied unchanged, whatever follows it |
| Replace.ReplaceAtFront | src/main.rs:20-23 | an occurrence at the front is replaced and the scan resumes after it |
| Replace.InertUnchanged | src/main.rs:20-23 | text without a possible occurrence is left as it is |
| Replace.ReplaceAllChunks | src/main.rs:20-23 | on text cut into chunks that are occurrences or cannot start one, replacing is chunk by chunk |
| Replace.ReplaceCharIsSubstitution | src/main.rs:23 | replacing one character by one character substitutes it at every position and changes nothing else |
| Plots.Clause | src/main.rs:161-165 | a clause is the quoted path followed by ` using ($0+1):` and the column; its length is that of its parts |
| Plots.Join | src/main.rs:168 | joining no clause gives the empty string, and joining one gives that clause |
| Plots.JoinSplit | src/main.rs:168 | a join splits after any part into the join before, one separator, and the join after |
| Plots.JoinStartsWithFirst | src/main.rs:168 | a join starts with its first part |
| Plots.PlotDefs | src/main.rs:157-169 | `plot_defs` of no file is empty, of one file is that file's clause (the full layout is `PlotDefsLayout`) |
| Plots.PlotDefsLayout | src/main.rs:157-169 | `plot_defs` of one file is its clause; of several files it starts with the first file's clause; after any `k` files comes exactly one space, then `plot_defs` of the rest |
| Plots.GnuplotTemplate | src/main.rs:171-207 | the template has five segments: text ending in `set ylabel "`, the `$YLABEL` slot, text ending in `plot `, the `$PLOTS` slot, text |
| Plots.YLabel | src/main.rs:23 | the y-label has the plot name's length (its contents are `YLabelReplacesUnderscores`) |
| Plots.YLabelReplacesUnderscores | src/main.rs:23 | the y-label is the plot name with every `_` turned into a space, and nothing else changed |
| Plots.ClauseSettled | src/main.rs:162 | a clause over `$`-free paths, titles and columns has no `$` except that of `($0+1)` |
| Plots.FilledScriptSettled | src/main.rs:19-23 | the filled template has no `$` other than those of `($0+1)` |
| Plots.SettledHasNoPlaceholder | src/main.rs:20-23 | such text holds none of `$PLOTS`, `$COLUMN_IDX`, `$YLABEL` |
| Plots.DefsChunksText | src/main.rs:157-169 | the series list cut at each `$COLUMN_IDX` puts back together to `plot_defs` |
| Plots.ExpandDefsColumn | src/main.rs:19-22 | replacing `$COLUMN_IDX` in the series list puts the column into every clause |
| Plots.StagesPerSegment | src/main.rs:19-23 | the three replacements fill each template segment with its series list, column or label |
| Plots.GnuplotScript | src/main.rs:20-23 | the three replacements in program order; what they give is stated by `ScriptIsFilledTemplate` and `NoPlaceholdersRemain` |
| Plots.ScriptIsFilledTemplate | src/main.rs:19-23 | because `$PLOTS` goes before `$COLUMN_IDX`, the chain gives the template with every clause using `($0+1):<column>`, and the y-label as the plot name with spaces for underscores |
| Plots.NoPlaceholdersRemain | src/main.rs:19-23 | after the chain, no `$PLOTS`, `$COLUMN_IDX` or `$YLABEL` remains |
| Plots.MainFiles | src/main.rs:8-14 | each transformed file is paired with its title from `FILES`, in order |
| Plots.MainScriptsFilled | src/main.rs:16-23 | for every plot of the catalogue and `$`-free paths, the script is the filled template and no placeholder remains |
| Plots.MainInputsPlain | src/main.rs:152-155 | the titles, the template text and the plot names hold no `$` |
| Plots.TemplatePlain | src/main.rs:171-207 | the template's text around its placeholders has no `$` |
| Plots.PlotNamePlain | src/main.rs:220-228 | no plot name holds a `$` |
| Plots.TotalPlotsShowRunningSums | src/main.rs:218-228 | on a six-column drun record, the last three plots draw the running sums of the columns the first three plots draw |
| Plots.TotalPlotsNameTheirColumns | src/main.rs:218-228 | on a six-column drun header, each of the last three plots draws the column whose label is its y-label |

## Left out

- Reading the input CSV and writing the temporary output file are not modelled. This covers the csv reader and writer, `NamedTempFile` and the errors they return (`Error::CSV1`, `Error::CSV2`, `Error::IO`). A trace is a `Table` value; the transform returns the new `Table`.
- A record that the csv reader fails to parse (`record?` in the read loop) is not modelled: its input is text the model does not see.
- The `From` conversions into `Error` are not modelled separately; `Error` has just the two constructors the transform produces.
- The gnuplot process, its standard input and output, `println!`, the PNG files and `std::mem::forget` in `main` are I/O and are left out.
- The unwrap in `main` of the transform's result is not modelled; a `Stop` is where it would panic.
- File paths are strings given as parameters; `to_string_lossy` is the identity on them.
- The styling lines of `GNUPLOT_TEMPLATE` (terminal, borders, grid, line styles, separator) are one text parameter, `styling`; `MainScriptsFilled` asks only that it holds no `$`, which the source's text satisfies.
- AddOverflow: the model panics on a `u64` overflow, as a debug build does; a release build wraps around, and that is not modelled.
- Replace.ReplaceAll: requires a non-empty pattern. Rust's `replace` with an empty pattern inserts the replacement before, between and after every character, and no call site in the program uses one.
- Plots.TotalPlotsShowRunningSums: stated only for records with six fields, the width of drun traces the catalogue assumes. On other widths columns 7 to 9 are not the totals, and the source does not check this.
- Plots.TotalPlotsNameTheirColumns: stated only for six-column headers, for the same reason.
- `FILES`' input file names are kept as constants. They only name what `add_cumulative_columns` reads, and that read is left out.
