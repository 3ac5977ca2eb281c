# fleet-prof: a verified model of the monthly reporting core

fleet-prof builds the monthly profitability workbooks of a fleet
operation from Excel exports. This project models in Dafny the rules at
the centre of that pipeline and proves what they promise:

- **Unallocated-cost distribution** (`UnallocDistribution`, `UnallocRun`).
  - Project VM rows whose project number is not six digits count as
    unallocated.
  - Their cost is summed per basin and divided by the basin's activity:
    proppant tonnage, pad days in the report window, or chemical cost.
  - Cost stranded in basins without activity is sprinkled as one flat
    increment over the active basins other than CA.
  - Every pad receives its driver times the final ratio of its basin.
  - The summary table ends with a TOTAL row.
- **Project VM adjustments** (`ProjectVmAdjustment`, `Transload`, `TabOrder`).
  - Money text is cleaned.
  - The Database rows are split into the Current, Previous, Unallocated and
    Unassigned buckets, and summed into the summary rows.
  - The summary-row formulas follow the sign rules for CK against VM.
  - CK-vs-VM rows are read back from the Comparison block of "PnL Pivot".
  - The transload pre-fill cancels per basin.
  - The tabs are sorted stably.
- **PnL pivot** (`PnlPivot`).
  - Basin names are canonicalised, and the CAD/USD rate is looked up with
    fallbacks.
  - `_write_block` and `_write_comparison_block` lay out their rows, write
    their formulas and return the next free row.
  - The basin and month lists are built.
- **FX table** (`FxOperations`).
  - The CAD ratio guard.
  - The AUD first-non-zero-pair scan.
  - The FX reference upsert, and the reference workbook it saves, which
    holds only the sheet "FX" (see "## Findings").
  - The six-digit account filter with consecutive serial numbers.
- **CK pivot** (`CksPivot`).
  - The month-column search and the quarter and report-date derivation.
  - The block-bounded field search and the pivot rows.
  - The fill-down of merged cells in column A.
  - The append to the reference sheet.
- **Comparison sheet** (`ComparisonOps`).
  - The sheet and header checks, in source order: the sheets exist, the
    account headers occur once, and the month, group and description
    columns keep or take the names the two merges give them.
  - The PnL and CAD values are cleaned.
  - The two tables are inner-joined on account, and Delta is computed.
  - Groups are left-joined, and the rows are filtered to Revenue /
    Variable Cost with a non-zero Delta.
  - The five output columns are produced.
- **Monthly Database sheet** (`ReportGeneration`): the block column layout
  and the ordered, skipping loop over the views.
- **View download** (`ViewDownload`): the truncate-and-suffix loop that
  gives every downloaded view a fresh sheet name.
- **Report window** (`MonthWindow`): `shift_month`, the twelve month labels
  and the month_start / month_end window that feeds the distribution.

Shared foundations:

| module | contents |
|---|---|
| `Wrappers` | Option and Result |
| `Strings` | Python's `strip`, `upper`, digit strings and the finite literals of `float()` (sign, mantissa, exponent, underscores) |
| `Ordering` | string order and sorted distinct lists |
| `Cells` | a worksheet cell value with Python truthiness and `str()`; formula expressions and their evaluation |
| `Calendar` | day numbers, month lengths, month labels |
| `Sheets` | a `Worksheet` class over a map of cells |
| `Seqs` | small sequence helpers |

Values are modelled as follows:

- Dates are day numbers.
- Money is `real`.
- Cells are a datatype (blank, text, integer, float, date, formula).
- A worksheet is a map from (row, column) to cell.

Loops in the source are methods with loop invariants. Each method is
proved equal to a function, and the properties are proved about that
function.

## Model

| member | source | states |
|---|---|---|
| UnallocDistribution.FirstMatch | modules/unalloc_distribution.py:31-36 | the first sheet name, in workbook order, that contains every keyword case-blind; none exactly when no name does |
| UnallocDistribution.FindSheet | modules/unalloc_distribution.py:31-36 | the loop returns that first matching name, and the KeyError exactly when no name matches |
| UnallocDistribution.NormalizeHeader | modules/unalloc_distribution.py:88-90 | a header after trimming and renaming has no surrounding whitespace |
| UnallocDistribution.AliasTargets | modules/unalloc_distribution.py:81-87 | every rename target is trimmed and is not itself renamed |
| UnallocDistribution.NormalizeIdempotent | modules/unalloc_distribution.py:88-90 | normalising a header twice gives the same as once |
| UnallocDistribution.FirstMissing | modules/unalloc_distribution.py:95-119 | the first needed column that is absent (the KeyError); none exactly when every needed column is present |
| UnallocDistribution.Keep | modules/unalloc_distribution.py:95-96 | the mask keeps a row exactly when every row is kept or its project number is not six digits |
| UnallocDistribution.KeepCount | modules/unalloc_distribution.py:95-96 | a kept row appears as often as in the sheet, a dropped row not at all |
| UnallocDistribution.Unallocated | modules/unalloc_distribution.py:95-96 | in a Project Number column that lines 39-43 type float64 every row is unallocated; otherwise exactly the rows whose project number, as text, is not six digits |
| UnallocDistribution.UnallocatedCount | modules/unalloc_distribution.py:95-96 | each unallocated row is kept as often as it occurs, each other row not at all |
| UnallocDistribution.IntColumnKeepsSixDigits | modules/unalloc_distribution.py:95-96 | in a column of integers only, which lines 39-43 type int64, a six-digit project is not unallocated |
| UnallocDistribution.BlankFloatsColumn | modules/unalloc_distribution.py:39-43 | one blank among integer project numbers, typed float64, makes every row unallocated, six-digit projects included |
| UnallocDistribution.MainRows | modules/unalloc_distribution.py:46-52 | the kept Main_Combo rows are exactly those with a non-blank Pad No |
| UnallocDistribution.MainRowsCount | modules/unalloc_distribution.py:46-52 | a row with a Pad No is kept as often as it occurs; a row without is dropped |
| UnallocDistribution.MainRowsAppend | modules/unalloc_distribution.py:46-52 | over two runs of rows the filter keeps each run's rows, the first run's first, so it keeps the sheet's order |
| UnallocDistribution.MainRowsOne | modules/unalloc_distribution.py:46-52 | a single row is kept exactly when it has a Pad No |
| UnallocDistribution.PadDays | modules/unalloc_distribution.py:65-68 | pad days exist exactly when both dates do, and are never negative |
| UnallocDistribution.PadDaysCountsDays | modules/unalloc_distribution.py:65-68 | pad days equal the number of days of [start, end) inside [month_start, month_end) |
| UnallocDistribution.FullWindowPad | modules/unalloc_distribution.py:65-68 | a pad covering the whole window gets month_end - month_start days |
| UnallocDistribution.KeyList | modules/unalloc_distribution.py:100 | a basin is listed exactly when some entry carries it |
| UnallocDistribution.GroupSum | modules/unalloc_distribution.py:100-119 | `groupby(basin).sum()`: keys are exactly the non-blank basins present, each with the sum of its entries |
| UnallocDistribution.KeyTotalAbsent | modules/unalloc_distribution.py:100-119 | a basin without entries sums to 0 |
| UnallocDistribution.CostEntries | modules/unalloc_distribution.py:100-109 | one (basin, amount) entry per row, in row order |
| UnallocDistribution.NumeratorIsMaskedSum | modules/unalloc_distribution.py:95-109 | a basin's numerator is the measure summed over exactly the unallocated rows of that basin, with the column typed as pandas types it |
| UnallocDistribution.KeptIsMaskedSum | modules/unalloc_distribution.py:95-109 | the same for either outcome of the column typing |
| UnallocDistribution.DailyIsSumOfParts | modules/unalloc_distribution.py:108-109 | the daily numerator of a basin is its Fuel + Mat + Other Pad + Alloc VM totals |
| UnallocDistribution.Reindex | modules/unalloc_distribution.py:134-144 | `reindex(fill_value=0)`: defined exactly on the index, missing basins read 0 |
| UnallocDistribution.AlignedIsKeyTotal | modules/unalloc_distribution.py:124-144 | after alignment a basin's value is its total over the rows, 0 for a basin without rows |
| UnallocDistribution.SafeRatio | modules/unalloc_distribution.py:158-160 | the corrected ratio: ratio × denominator = numerator when the denominator is non-zero, 0 when it is zero |
| UnallocDistribution.AsWrittenAgreesWithSafe | modules/unalloc_distribution.py:158-160 | `compute_ratio` as written equals the safe ratio exactly when the numerator is ≥ 0 or the denominator non-zero |
| UnallocDistribution.NegativeOrphanGivesNegInf | modules/unalloc_distribution.py:159 | -100 over 0 is left as -inf as written, and 0 in the corrected ratio |
| UnallocDistribution.Ratios | modules/unalloc_distribution.py:162-165 | the base ratio of every basin of the index is the safe ratio of its aligned numerator and denominator |
| UnallocDistribution.IncrementSpreadsPool | modules/unalloc_distribution.py:169-172 | increment × valid sum = pool when the valid sum is non-zero; the increment is 0 otherwise |
| UnallocDistribution.ValidSumSign | modules/unalloc_distribution.py:171-172 | the receiving activity is ≥ 0, and > 0 exactly when some basin receives |
| UnallocDistribution.PoolSign | modules/unalloc_distribution.py:169-170 | the orphan pool is ≥ 0, and > 0 exactly when some basin is an orphan |
| UnallocDistribution.Raised | modules/unalloc_distribution.py:173-175 | the raised ratios are defined exactly on the index |
| UnallocDistribution.Sprinkled | modules/unalloc_distribution.py:168-176 | the sprinkled ratios are defined exactly on the index |
| UnallocDistribution.Sprinkle | modules/unalloc_distribution.py:168-176 | the loop gives every basin with denominator > 0 other than CA its base ratio plus the one increment; every other basin, CA included, keeps its base ratio |
| UnallocDistribution.SprinkledFromValues | modules/unalloc_distribution.py:173-176 | a map over the index holding each basin's base ratio, plus the increment where it receives, is the sprinkled map |
| UnallocDistribution.NoOrphansKeepsBase | modules/unalloc_distribution.py:168-176 | without orphans the final ratios are the base ratios |
| UnallocDistribution.NoReceiversDropsPool | modules/unalloc_distribution.py:171-176 | without a receiving basin the pool is dropped and the final ratios are the base ratios |
| UnallocDistribution.WeightedAdd | modules/unalloc_distribution.py:173-175 | weighting by the denominators is additive in the ratios |
| UnallocDistribution.WeightedBase | modules/unalloc_distribution.py:158-165 | weighted by the denominators, the base ratios give back the cost of the basins with activity |
| UnallocDistribution.WeightedIncrement | modules/unalloc_distribution.py:172-175 | weighted by the denominators, the increment gives the increment × the receiving activity |
| UnallocDistribution.RaisedSplits | modules/unalloc_distribution.py:168-176 | the raised ratios hand out the covered cost plus increment × receiving activity |
| UnallocDistribution.SprinkledSplits | modules/unalloc_distribution.py:168-176 | the sprinkled ratios hand out the covered cost plus the increment times the receiving activity |
| UnallocDistribution.PoolOrNothing | modules/unalloc_distribution.py:169-176 | that split is the covered cost plus the pool when some basin receives, plus nothing otherwise |
| UnallocDistribution.RaisedAt | modules/unalloc_distribution.py:173-176 | a receiving basin's ratio is its own guarded ratio plus the increment; any other basin keeps its guarded ratio |
| UnallocDistribution.FinalAt | modules/unalloc_distribution.py:157-180 | every basin of the index has a final ratio, and it is the raised ratio over the grouped and re-indexed sums |
| UnallocDistribution.Conservation | modules/unalloc_distribution.py:158-176 | the final ratios hand out the cost of every basin with activity, plus the orphan pool when some basin receives it |
| UnallocDistribution.ChemRatioIsOne | modules/unalloc_distribution.py:112-180 | the chemical numerator and denominator are one series: no basin is a chemical orphan, and the final chemical ratio is 1 where that sum is non-zero and 0 elsewhere |
| UnallocDistribution.BasinUnion | modules/unalloc_distribution.py:124-132 | the union index is strictly sorted and holds exactly the basins of the seven series |
| UnallocDistribution.Final | modules/unalloc_distribution.py:134-181 | the final ratios of one numerator and denominator are defined exactly on the index |
| UnallocDistribution.BasinRowField | modules/unalloc_distribution.py:204-216 | each amount of a basin's summary row is that basin's total of the column |
| UnallocDistribution.BasinRows | modules/unalloc_distribution.py:204-216 | one summary row per basin of the index, in index order |
| UnallocDistribution.Summary | modules/unalloc_distribution.py:204-230 | the basin rows in index order followed by one row named TOTAL |
| UnallocDistribution.ColumnIsSeriesSum | modules/unalloc_distribution.py:219 | a column of the basin rows sums to the aligned series summed over the index |
| UnallocDistribution.TotalRowIsGrandTotal | modules/unalloc_distribution.py:219-230 | each amount of the TOTAL row is the column sum over the basin rows, and equals the sum over every source row that has a basin |
| UnallocDistribution.Share | modules/unalloc_distribution.py:234-237 | a pad's amount is defined exactly when its driver is, and its basin is non-blank and has a ratio |
| UnallocDistribution.BasinShareIsRatioTimesDriver | modules/unalloc_distribution.py:233-237 | the pads of a basin together receive its final ratio times their total driver |
| UnallocDistribution.ReceiverTimesDenominator | modules/unalloc_distribution.py:168-176 | a receiving basin's final ratio times its denominator is its own cost plus increment × its activity |
| UnallocDistribution.OtherTimesDenominator | modules/unalloc_distribution.py:168-176 | any other basin's final ratio times its denominator is its own cost when it has activity, 0 when it has none |
| UnallocDistribution.ReceiverReachesPads | modules/unalloc_distribution.py:233-237 | the pads of a receiving basin together get its unallocated cost plus the increment times their driver |
| UnallocDistribution.OtherReachesPads | modules/unalloc_distribution.py:233-237 | the pads of any other basin together get its unallocated cost when it has activity, nothing when it has none |
| UnallocDistribution.ChemShareCopiesChemCost | modules/unalloc_distribution.py:236 | a pad's Unalloc_Chem is its own Chem Cost where its basin's Current chemical cost is non-zero, and 0 otherwise |
| UnallocRun.SheetNamed | modules/unalloc_distribution.py:72-74 | `wb[name]` is the sheet of some position carrying that name |
| UnallocRun.DbHeader | modules/unalloc_distribution.py:57-58 | a Database header after stripping and renaming is trimmed |
| UnallocRun.DbColumns | modules/unalloc_distribution.py:57-58 | every Database header normalised, in order |
| UnallocRun.VmColumns | modules/unalloc_distribution.py:88-90 | every P. VM header normalised, in order |
| UnallocRun.Present | modules/unalloc_distribution.py:95-119 | a column lookup succeeds exactly when every needed column is present |
| UnallocRun.ReadDatabase | modules/unalloc_distribution.py:46-60 | the Database table is read exactly when it exists with a Pad No column and, once normalised, Pad Start and Pad End columns |
| UnallocRun.LocateSheets | modules/unalloc_distribution.py:72-74 | the Unalloc, Adjustments and Current sheets are all found by keyword or the run fails; each is the sheet its first match names |
| UnallocRun.AdjustFilter | modules/unalloc_distribution.py:95-97 | `df_adjust.loc[mask]` raises IndexingError exactly when the Adjustments sheet has more data rows than the Unalloc sheet |
| UnallocRun.ReadVm | modules/unalloc_distribution.py:95-119 | the P. VM reads succeed exactly when the Unalloc and Current columns are there and the Adjustments sheet is no longer than the Unalloc sheet |
| UnallocRun.FindVmSheets | modules/unalloc_distribution.py:72-74 | the keyword loops give the same result |
| UnallocRun.Compute | modules/unalloc_distribution.py:116-237 | one pad row per Main_Combo row, in order; the header is the normalised columns plus the five added ones; the summary ends with TOTAL |
| UnallocRun.PadOuts | modules/unalloc_distribution.py:233-237 | every main row gets its pad days and four `Unalloc_*` amounts, in order |
| UnallocRun.Distribute | modules/unalloc_distribution.py:17-237 | the run succeeds exactly when every sheet and column it reads is there and the Adjustments filter does not raise |
| UnallocRun.DistributeShape | modules/unalloc_distribution.py:204-237 | on success: one pad row per main row, in order, under the normalised header plus the five added columns, and a summary ending with TOTAL |
| UnallocRun.FinalRatio | modules/unalloc_distribution.py:162-181 | the method with the sprinkle loop computes the final ratios |
| UnallocRun.ComputeDistribution | modules/unalloc_distribution.py:17-237 | the validations in source order, the Adjustments filter among them, the keyword loops and the four sprinkle loops compute the distribution or its first error |
| UnallocRun.Distributed | modules/unalloc_distribution.py:116-237 | the method with the four sprinkle loops computes the distribution |
| UnallocRun.SheetsAfter | modules/unalloc_distribution.py:240-242 | the old Unalloc_Distribution sheet is deleted and the new one is last; every other sheet stays |
| UnallocRun.Without | modules/unalloc_distribution.py:240-241 | deleting a title removes it and keeps every other name |
| UnallocRun.SummaryCells | modules/unalloc_distribution.py:245-247 | a summary row is written as eleven cells |
| UnallocRun.SummaryTable | modules/unalloc_distribution.py:245-247 | every summary row is written, in order |
| UnallocRun.PadCells | modules/unalloc_distribution.py:267-269 | a pad row is its cells as read plus pad days and the four distributed amounts |
| UnallocRun.PadTable | modules/unalloc_distribution.py:267-269 | every pad row is written, in order |
| UnallocRun.WriteDistribution | modules/unalloc_distribution.py:240-277 | a fresh Unalloc_Distribution sheet whose cells are the layout of the distribution |
| UnallocRun.RunUnallocDistribution | modules/unalloc_distribution.py:17-280 | given the workbook's own sheet list: on failure no sheet is written and the sheet list is unchanged; on success the new sheet holds the layout and comes last |
| UnallocRun.SummaryPlacement | modules/unalloc_distribution.py:245-247 | summary row k, column j is at sheet cell (k + 1, j + 1) |
| UnallocRun.BlankRows | modules/unalloc_distribution.py:258-259 | the two rows between the summary and the pad table stay blank |
| UnallocRun.HeaderPlacement | modules/unalloc_distribution.py:261-264 | the pad table's header names each column in row len(summary) + 3 |
| UnallocRun.PadPlacement | modules/unalloc_distribution.py:266-269 | pad i is written i + 1 rows under the header |
| UnallocRun.LayoutKeys | modules/unalloc_distribution.py:245-269 | nothing is written above row 1 or left of column 1 |
| ProjectVmAdjustment.DropMoney | modules/project_vm_adjustment.py:128-132 | removing ',' and '$' never lengthens the text |
| ProjectVmAdjustment.DropMoneyAppend | modules/project_vm_adjustment.py:128-132 | removing ',' and '$' distributes over concatenation |
| ProjectVmAdjustment.DropMoneyChars | modules/project_vm_adjustment.py:128-132 | what is left is exactly the characters other than ',' and '$' |
| ProjectVmAdjustment.DropMoneyKeeps | modules/project_vm_adjustment.py:128-132 | text without ',' or '$' is unchanged |
| ProjectVmAdjustment.LastIndex | modules/project_vm_adjustment.py:133 | the position of the last occurrence, with none after it (where the greedy `.*` ends within a line) |
| ProjectVmAdjustment.LineEnd | modules/project_vm_adjustment.py:133 | the first newline at or after a position, or the end: the stretch a regex `.` can cross |
| ProjectVmAdjustment.UnparenWrapped | modules/project_vm_adjustment.py:133 | "(x)" becomes "-x" when x holds no newline |
| ProjectVmAdjustment.UnparenFromKeeps | modules/project_vm_adjustment.py:133 | with no '(' left the substitution copies the rest of the text |
| ProjectVmAdjustment.UnparenKeeps | modules/project_vm_adjustment.py:133 | text without '(' is unchanged |
| ProjectVmAdjustment.UnparenAcrossLine | modules/project_vm_adjustment.py:133 | a newline between '(' and ')' prevents the match, so "(x\ny)" is unchanged |
| ProjectVmAdjustment.ToNumber | modules/project_vm_adjustment.py:130-134 | integers and floats keep their value; blanks and dates become NaN |
| ProjectVmAdjustment.IntCleans | modules/project_vm_adjustment.py:130-134 | an integer's text passes the cleaning unchanged and parses as itself |
| ProjectVmAdjustment.ToNumberParenthesised | modules/project_vm_adjustment.py:130-134 | "(digits)" reads as the negative number |
| ProjectVmAdjustment.ParenNoNumber | modules/project_vm_adjustment.py:134 | trimmed text that opens with '(' is NaN for `pd.to_numeric` |
| ProjectVmAdjustment.ToNumberAcrossLine | modules/project_vm_adjustment.py:130-134 | "(digits\n)" keeps its parentheses and reads as NaN |
| ProjectVmAdjustment.ToNumberDollars | modules/project_vm_adjustment.py:130-134 | "$a,b" reads as the number ab |
| Strings.DigitsTextParses | modules/project_vm_adjustment.py:134 | a digit string, with or without '-', reads as its value for `float()` and `pd.to_numeric` |
| Strings.IntTextParses | modules/project_vm_adjustment.py:131-134 | the text of an integer reads back as the integer |
| Strings.ExponentParses | modules/comparison_operations.py:45 | a literal with an exponent ("1e3", "5e-1") is its mantissa times ten to the exponent |
| Strings.ScaleIsPower | modules/comparison_operations.py:45 | scaling by an exponent multiplies by, or divides by, the power of ten |
| Strings.UnderscoreParses | modules/comparison_operations.py:45 | an underscore between digits is skipped by `float()` and refused by `pd.to_numeric` |
| Strings.DoubleUnderscore | modules/comparison_operations.py:45 | two underscores in a row make no number |
| Strings.LeadingUnderscore | modules/comparison_operations.py:45 | an underscore before the first digit makes no number |
| ProjectVmAdjustment.SumMapComplete | modules/project_vm_adjustment.py:98-119 | the summary fields are exactly the keys of VM_SUM_MAP |
| ProjectVmAdjustment.SumMapHeads | modules/project_vm_adjustment.py:50-118 | every column a summary field sums has a fixed position in VM_COL_IDX |
| ProjectVmAdjustment.AllHeadsKnown | modules/project_vm_adjustment.py:50-118 | every column of every summary field has a fixed position |
| ProjectVmAdjustment.ColIdxPositive | modules/project_vm_adjustment.py:50-63 | the fixed positions are 1-based |
| ProjectVmAdjustment.ColIndex | modules/project_vm_adjustment.py:153-162 | the fixed index when it is in range, else the first column with that header, else the RuntimeError naming the header |
| ProjectVmAdjustment.ColIndexOk | modules/project_vm_adjustment.py:153-162 | `_col_series` succeeds exactly when the frame reaches the fixed position or has a column of that header |
| ProjectVmAdjustment.ColumnNumbers | modules/project_vm_adjustment.py:156 | the column's cells through `_to_number`, row by row |
| ProjectVmAdjustment.ColSeries | modules/project_vm_adjustment.py:153-162 | the chosen column through `_to_number`, and an error exactly when no column qualifies |
| ProjectVmAdjustment.LastNumber | modules/project_vm_adjustment.py:273-274 | `.dropna().iloc[-1]` exists exactly when the column has a number |
| ProjectVmAdjustment.LastNumberIsLast | modules/project_vm_adjustment.py:273-274 | the value taken is a number of the column, and every later entry is NaN |
| ProjectVmAdjustment.Conv | modules/project_vm_adjustment.py:275-278 | a row's factor is the CAD factor, the AUD factor or 1 |
| ProjectVmAdjustment.ConvTrimmed | modules/project_vm_adjustment.py:275-278 | CA takes the CAD factor, AU the AUD factor, anything else 1 |
| ProjectVmAdjustment.ProjectText | modules/project_vm_adjustment.py:303-305 | numbers are truncated and zero-padded to six digits; text is stripped |
| ProjectVmAdjustment.ProjectDigits | modules/project_vm_adjustment.py:303-305 | a numeric project reads as six digits exactly when it lies in 0..999999, and the digits spell the number |
| ProjectVmAdjustment.PadKeyOf | modules/project_vm_adjustment.py:306-315 | integers stand for themselves unpadded; blanks and dates are dropped |
| ProjectVmAdjustment.Column | modules/project_vm_adjustment.py:306-315 | the cells of one column, row by row |
| ProjectVmAdjustment.KeySetMembers | modules/project_vm_adjustment.py:306-315 | a text is in the set exactly when some cell gives it |
| ProjectVmAdjustment.PadKeysMembers | modules/project_vm_adjustment.py:306-315 | a text is a main or previous pad exactly when some cell of that column gives it |
| ProjectVmAdjustment.Partition | modules/project_vm_adjustment.py:316-321 | the four masks as written partition the rows: each project is in exactly one bucket |
| ProjectVmAdjustment.UnallocExactly | modules/project_vm_adjustment.py:319 | Unalloc holds exactly the projects whose text is not six digits |
| ProjectVmAdjustment.Amounts | modules/project_vm_adjustment.py:296-298 | each row's share is its numbers in the field's columns times its own conversion factor |
| ProjectVmAdjustment.Buckets | modules/project_vm_adjustment.py:316-321 | each row's bucket is that of its project text |
| ProjectVmAdjustment.BucketsAddUp | modules/project_vm_adjustment.py:316-328 | the four bucket sums add up to the total over all rows |
| ProjectVmAdjustment.EmptyBucket | modules/project_vm_adjustment.py:322-327 | a bucket no row falls in sums to 0 |
| ProjectVmAdjustment.FieldIndexes | modules/project_vm_adjustment.py:164-165 | `_make_block` resolves every column of a field, and fails exactly when one is missing |
| ProjectVmAdjustment.FieldSums | modules/project_vm_adjustment.py:294-328 | one figure per summary field when they can be formed |
| ProjectVmAdjustment.FieldSumAddsUp | modules/project_vm_adjustment.py:294-328 | a field's sum forms for every bucket or for none, and its four bucket sums add up to its total |
| ProjectVmAdjustment.FieldSumsAddUp | modules/project_vm_adjustment.py:294-328 | the same for every field of a list, position by position |
| ProjectVmAdjustment.FieldSumOk | modules/project_vm_adjustment.py:294-300 | a field's sum forms exactly when `_col_series` finds each of its columns |
| ProjectVmAdjustment.FieldSumsOk | modules/project_vm_adjustment.py:294-328 | the sums of a list of fields form exactly when every field's columns are found |
| ProjectVmAdjustment.FieldSumsSnoc | modules/project_vm_adjustment.py:294-300 | the sums of a list are those of all but the last field, then the last field's |
| ProjectVmAdjustment.SummaryFigures | modules/project_vm_adjustment.py:294-328 | the total row and the four bucket rows each hold one figure per summary field |
| ProjectVmAdjustment.SummaryAddsUp | modules/project_vm_adjustment.py:349-361 | for every field, bucket rows 6-9 add up to the Project VM Total in row 4 |
| ProjectVmAdjustment.SummaryFiguresOk | modules/project_vm_adjustment.py:153-162 | the figures form exactly when `_col_series` finds every Project VM column |
| ProjectVmAdjustment.EveryColumnUsed | modules/project_vm_adjustment.py:98-109 | every Project VM column feeds REVENUE or VARIABLE COST |
| ProjectVmAdjustment.NecessaryValue | modules/project_vm_adjustment.py:368-377 | row 11 is -CK - VM for the cost headers and CK - VM for the others |
| ProjectVmAdjustment.DeltaValue | modules/project_vm_adjustment.py:390-399 | row 15 is CK + VM + subtotal for the cost headers and CK - VM - subtotal for the others |
| ProjectVmAdjustment.DeltaZeroIffBalanced | modules/project_vm_adjustment.py:363-413 | the delta check reads zero exactly when the manual subtotal equals the necessary adjustment |
| ProjectVmAdjustment.FirstFromFirst | modules/project_vm_adjustment.py:194-195 | `next(...)` finds the topmost qualifying row of the range, and nothing only when no row qualifies |
| ProjectVmAdjustment.HeaderRunCells | modules/project_vm_adjustment.py:202-209 | the header scan reads columns 2, 3, ... none of them blank, and stops at the first blank |
| ProjectVmAdjustment.KeyColumnsKeys | modules/project_vm_adjustment.py:202-209 | the header map's keys are exactly the stripped texts of the scanned cells |
| ProjectVmAdjustment.KeyColumnsLast | modules/project_vm_adjustment.py:208 | a key maps to the column of its last occurrence |
| ProjectVmAdjustment.KeysStep | modules/project_vm_adjustment.py:208 | one more header cell adds its key at its column |
| ProjectVmAdjustment.ReadHeaderMap | modules/project_vm_adjustment.py:201-209 | the loop builds the header map of the row and stops at the first blank column |
| ProjectVmAdjustment.FieldRefValue | modules/project_vm_adjustment.py:223-230 | a field reads 0 without a column, the negated pivot cell for cost fields and the pivot cell otherwise |
| ProjectVmAdjustment.FieldRefs | modules/project_vm_adjustment.py:223-230 | one amount per summary field, in order |
| ProjectVmAdjustment.RowsFromStop | modules/project_vm_adjustment.py:213-232 | one row per pivot row from the first data row down, each basin non-blank and not "Grand Total"; reading stops at the first that is |
| ProjectVmAdjustment.ExtractComparisonAdjustments | modules/project_vm_adjustment.py:186-234 | no rows without the pivot sheet or its Comparison title; otherwise the rows below the header map |
| ProjectVmAdjustment.ExtractBelow | modules/project_vm_adjustment.py:199-232 | the header map from the row under the title, then the rows below it |
| ProjectVmAdjustment.ReadRows | modules/project_vm_adjustment.py:211-232 | the row loop reads one CK-vs-VM row per pivot row down to the first stop |
| ProjectVmAdjustment.ComparisonRowsRead | modules/project_vm_adjustment.py:211-232 | each row holds its pivot basin, the period, the comment "CK vs VM Adj", and per field 0 without a column, the negated pivot cell for cost fields, the pivot cell otherwise |
| Transload.TransloadsKept | modules/project_vm_adjustment.py:418 | the filter keeps exactly the rows whose Account Desc is PROPPANT TRANSLOADING |
| Transload.PropCostOnly | modules/project_vm_adjustment.py:426-427 | sixteen amounts, PROP COST the given one and every other field 0 |
| Transload.AddTransloads | modules/project_vm_adjustment.py:421-429 | the first loop appends one Transload row per kept row, in order |
| Transload.AddCorrections | modules/project_vm_adjustment.py:430-438 | the second loop appends one Transload Correction row per basin key, in order |
| Transload.TransloadPrefill | modules/project_vm_adjustment.py:416-439 | the two loops build the pre-fill: the Transload rows, then one correction per non-blank basin in sorted order |
| Transload.PropSumAppend | modules/project_vm_adjustment.py:420-439 | a basin's PROP COST over two lists of rows is the sum over each |
| Transload.TransloadRowsSum | modules/project_vm_adjustment.py:421-429 | a basin's Transload rows carry its total Adjusted NC |
| Transload.CorrectionRowsSum | modules/project_vm_adjustment.py:430-438 | over distinct keys, a basin's correction rows total minus its group sum when it is a key, and 0 otherwise |
| Transload.GroupSumAbsent | modules/project_vm_adjustment.py:430-436 | a basin no row carries has no Adjusted NC |
| Transload.TransloadCancels | modules/project_vm_adjustment.py:419-438 | for every basin, the PROP COST of its Transload rows and its single correction row sums to 0 |
| Transload.BlankBasinUncorrected | modules/project_vm_adjustment.py:430 | Transload rows with a blank basin get no correction: their PROP COST stays in the grid |
| Transload.CorrectionsNotBlank | modules/project_vm_adjustment.py:430-438 | no correction row carries a blank basin |
| TabOrder.TabKey | modules/project_vm_adjustment.py:498-500 | a tab's key is its place in the desired list, or the length of that list for any other tab |
| TabOrder.WithKeyAppend | modules/project_vm_adjustment.py:499-500 | the tabs of one key over two lists are those of each, in order |
| TabOrder.WithKeyOnly | modules/project_vm_adjustment.py:499-500 | a group holds only its own key |
| TabOrder.WithKeyKeys | modules/project_vm_adjustment.py:499-500 | every tab of a group has the group's key |
| TabOrder.FromKeyCount | modules/project_vm_adjustment.py:499-500 | the groups from key v up hold every tab of key at least v, as often as before |
| TabOrder.ReorderedPermutation | modules/project_vm_adjustment.py:499-500 | the sorted tab list is a permutation of the original |
| TabOrder.FromKeySorted | modules/project_vm_adjustment.py:499-500 | keys never decrease along the grouped list |
| TabOrder.ReorderedSorted | modules/project_vm_adjustment.py:497-500 | the desired tabs come first, in desired order, then all the others |
| TabOrder.FromKeyGroups | modules/project_vm_adjustment.py:499-500 | each group of the grouped list is that group of the original |
| TabOrder.ReorderedStable | modules/project_vm_adjustment.py:499-500 | the sort is stable: tabs of equal key keep their relative order |
| TabOrder.Group | modules/project_vm_adjustment.py:499-500 | one pass collects the tabs of one key in their order |
| TabOrder.Gather | modules/project_vm_adjustment.py:499-500 | the passes laid end to end give the sorted list |
| TabOrder.WriteBack | modules/project_vm_adjustment.py:500 | the workbook's tab array afterwards holds exactly the given order |
| TabOrder.ReorderTabs | modules/project_vm_adjustment.py:497-500 | the workbook's tab array is sorted in place into that list |
| PnlPivot.Canonical | modules/pnl_pivot_operations.py:34-39 | a missing basin is ""; every canonical name is stripped |
| PnlPivot.CanonicalCorporate | modules/pnl_pivot_operations.py:28-39 | a name becomes "Corporate" exactly when its stripped, upper-cased form is CORP, CORPORATE or CORP.; any other name keeps its stripped text |
| PnlPivot.CorporateIsAlias | modules/pnl_pivot_operations.py:28-32 | "Corporate" upper-cased is itself an alias |
| PnlPivot.CanonicalIdempotent | modules/pnl_pivot_operations.py:34-39 | a canonical name is its own canonical name |
| PnlPivot.ColumnCells | modules/pnl_pivot_operations.py:92-94 | the cells of one column over a row range, one per row, in order |
| PnlPivot.Texts | modules/pnl_pivot_operations.py:98 | `.dropna().astype(str)`: a text is in the result exactly when some non-blank cell has it |
| PnlPivot.VmTexts | modules/pnl_pivot_operations.py:99-106 | a text is in the result exactly when some cell other than None, "" and " " has it |
| PnlPivot.Stripped | modules/pnl_pivot_operations.py:104 | each name stripped, same length and order |
| PnlPivot.LatestMonth | modules/pnl_pivot_operations.py:108-109 | "" when there is no month label, otherwise a label that no other label exceeds |
| PnlPivot.FirstRow | modules/pnl_pivot_operations.py:203-206 | the first row whose date label is the month, or none when no row in the range has it |
| PnlPivot.LastRow | modules/pnl_pivot_operations.py:211-215 | the bottom-most row whose rate converts to a float, every row below it failing; none when every row fails |
| PnlPivot.ScanRate | modules/pnl_pivot_operations.py:200-216 | the two loops return the month's rate when it converts, else the bottom-most convertible rate, else 1.0 |
| PnlPivot.FindCadUsdRate | modules/pnl_pivot_operations.py:200-216 | the same, over the FX Date and CAD/USD columns of the Database sheet |
| PnlPivot.FieldValue | modules/pnl_pivot_operations.py:244-257 | a field formula evaluates to the basin's (and month's) Database sum, divided by CAD/USD for "CA" when the block converts, #DIV/0! at a zero rate |
| PnlPivot.TotalRow | modules/pnl_pivot_operations.py:261-268 | "Grand Total", then for each field column the SUM over exactly the data rows |
| PnlPivot.WriteTable | modules/pnl_pivot_operations.py:227-270 | the sheet gains exactly the title, header, data rows and total row of a block |
| PnlPivot.WriteHead | modules/pnl_pivot_operations.py:227-238 | the sheet gains the title cell and the header row |
| PnlPivot.WriteBody | modules/pnl_pivot_operations.py:240-268 | the sheet gains the data rows and then the total row below them |
| PnlPivot.TableChain | modules/pnl_pivot_operations.py:227-270 | the four writes together give the table's cells |
| PnlPivot.WriteBlock | modules/pnl_pivot_operations.py:220-270 | the sheet gains the block's cells and nothing else changes; the next free row is start + basins + 3 |
| PnlPivot.TableLayout | modules/pnl_pivot_operations.py:241-268 | data row i of a table holds the i-th row from column 1, and the total row holds the total |
| PnlPivot.BlockLayout | modules/pnl_pivot_operations.py:241-268 | the field cell of basin row i holds that field's formula for that row, and the total of each field sums exactly the basin rows |
| PnlPivot.SideValue | modules/pnl_pivot_operations.py:303-304 | a block reference evaluates to that cell's value, and "0" to 0 for a basin the block lacks |
| PnlPivot.CompareValue | modules/pnl_pivot_operations.py:303-308 | a comparison cell is CK - VM for a revenue field and CK + VM for every other field |
| PnlPivot.CompareRow | modules/pnl_pivot_operations.py:294-310 | the basin, then for each field the comparison of the same column of the two blocks' rows |
| PnlPivot.CompareRows | modules/pnl_pivot_operations.py:294-310 | one comparison row per basin, in order |
| PnlPivot.WriteComparisonBlock | modules/pnl_pivot_operations.py:273-322 | the sheet gains exactly the comparison block's cells; the next free row is start + basins + 3 |
| PnlPivot.RowMap | modules/pnl_pivot_operations.py:180-183 | the keys are exactly the canonical names |
| PnlPivot.RowMapRow | modules/pnl_pivot_operations.py:180-183 | each name maps to the row of its last occurrence |
| PnlPivot.ComparisonBasins | modules/pnl_pivot_operations.py:186 | strictly sorted, and holding exactly the names of either map |
| PnlPivot.Canonicals | modules/pnl_pivot_operations.py:180-183 | the canonical name of each basin, in order |
| PnlPivot.CkHeaders | modules/pnl_pivot_operations.py:87-91 | the headers are row 2 of columns DW (127) to HG (215), one per column |
| PnlPivot.CkColumn | modules/pnl_pivot_operations.py:95-98 | the first CK column headed by the name, or the KeyError when no header has it |
| PnlPivot.HeaderCount | modules/pnl_pivot_operations.py:95-98 | no CK header reads the name exactly when `CkColumn` gives the KeyError |
| PnlPivot.SingleHeader | modules/pnl_pivot_operations.py:95-98 | a header that occurs once is the column `CkColumn` finds, so `df_ck[name]` is that column |
| PnlPivot.CkBasinNames | modules/pnl_pivot_operations.py:98 | with one "Basin" header, the sorted distinct basins of that column; with several, the single label "Basin" that iterating the frame yields |
| PnlPivot.HeaderColumnsLast | modules/pnl_pivot_operations.py:325-328 | a header maps to a column holding it, and no later column holds it |
| PnlPivot.HeaderColumnsKeys | modules/pnl_pivot_operations.py:325-328 | the keys are exactly the text headers |
| PnlPivot.HeaderColumnsHit | modules/pnl_pivot_operations.py:325-328 | the last header takes the last column |
| PnlPivot.HeaderColumnsKeep | modules/pnl_pivot_operations.py:325-328 | a last header other than f leaves the column of f unchanged |
| PnlPivot.PivotRowsAgree | modules/pnl_pivot_operations.py:160-177 | the first data rows found back from the returned row are two rows below each block's title, and each block starts two rows below the previous total |
| PnlPivot.WriteBlocks | modules/pnl_pivot_operations.py:137-193 | the sheet gains the four blocks, each placed from the row the previous write returned |
| PnlPivot.BlocksAtRows | modules/pnl_pivot_operations.py:137-193 | those positions are the ones the fixed layout computes, and the comparison row maps point at the CK VM and Project VM data rows |
| PnlPivot.FixedBlocksMapped | modules/pnl_pivot_operations.py:150-174 | the CK VM and Project VM blocks have a Database column for every field |
| PnlPivot.GeneratePivot | modules/pnl_pivot_operations.py:81-196 | fails exactly when the CK "Basin" or "M-Y" column is missing, "M-Y" is repeated, or there is a CK basin and a CK PnL field has no column (the `col_map` lookup of lines 241-243); otherwise a new "PnL Pivot" sheet holding exactly the head cells and the four blocks |
| FxOperations.Number | modules/fx_operations.py:80 | a cell divides exactly when it is an integer or a float, and a truthy number is non-zero |
| FxOperations.CadRatio | modules/fx_operations.py:75-80 | succeeds exactly when both N5 cells are truthy numbers, and then the ratio times USD!N5 is CA!N5 |
| FxOperations.LatestMonth | modules/fx_operations.py:83-85 | the text of the last header of row 2, or "UnknownMonth" when it is falsy |
| FxOperations.CadFx | modules/fx_operations.py:62-92 | fails exactly when the ratio does; otherwise the ratio and the month it is filed under |
| FxOperations.PairAt | modules/fx_operations.py:125-133 | a usable pair is two truthy column-N values that convert to non-zero floats |
| FxOperations.FirstPairUnique | modules/fx_operations.py:124-136 | at most one row is the first usable pair |
| FxOperations.AudRatio | modules/fx_operations.py:117-144 | fails exactly when no row of the scan has a usable pair; otherwise the AUD value over the USD value of the first usable pair |
| FxOperations.NoPairStep | modules/fx_operations.py:124-139 | a row without a usable pair extends the pair-free prefix of the scan |
| FxOperations.AudMonth | modules/fx_operations.py:148-156 | the month passed in when non-empty, else the USD sheet's last header |
| FxOperations.Renamed | modules/fx_operations.py:195-196 | "Period" becomes "Date" only when there is no "Date"; all other names are kept |
| FxOperations.RenamedDistinct | modules/fx_operations.py:195-196 | renaming keeps column names distinct |
| FxOperations.WithColumn | modules/fx_operations.py:198-201 | a missing column is appended at the end, blank in every row; a present one changes nothing |
| FxOperations.Normalized | modules/fx_operations.py:194-201 | the result is well-formed and has the Date and rate columns |
| FxOperations.WithColumnKeeps | modules/fx_operations.py:198-201 | adding a column keeps every old cell in place; the new cells are blank |
| FxOperations.NormalizedKeeps | modules/fx_operations.py:194-201 | normalising only renames or adds columns: same rows, old cells in place, new cells blank |
| FxOperations.DateTexts | modules/fx_operations.py:204 | the text of each row's Date, in order |
| FxOperations.Overwritten | modules/fx_operations.py:206-207 | the overwrite keeps the row count and every row's width |
| FxOperations.NewRow | modules/fx_operations.py:210 | the appended row has one cell per column |
| FxOperations.Upserted | modules/fx_operations.py:204-212 | the upsert keeps the columns and well-formedness |
| FxOperations.UpsertPresent | modules/fx_operations.py:205-208 | with the month present: the same rows, the rate set in every row dated the month, nothing else changed |
| FxOperations.UpsertAbsent | modules/fx_operations.py:209-212 | with the month absent: exactly one row appended, dated the month and carrying the rate, blank elsewhere |
| FxOperations.UpsertFiled | modules/fx_operations.py:203-212 | afterwards the month is present and every row dated it has the new rate |
| FxOperations.UpsertIdempotent | modules/fx_operations.py:203-212 | filing the same rate twice equals filing it once |
| FxOperations.FxTable.constructor | modules/fx_operations.py:186-192 | the table read, or just the Date and rate columns when the sheet is missing or empty |
| FxOperations.FxTable.Normalize | modules/fx_operations.py:194-201 | the table becomes its normalised frame |
| FxOperations.FxTable.Upsert | modules/fx_operations.py:204-212 | the table becomes its upserted frame, with the same columns |
| FxOperations.UpdateFxRef | modules/fx_operations.py:166-228 | the table read, normalised unless empty, with the rate filed; the saved reference workbook is the one sheet "FX" holding that table |
| FxOperations.FxGrid | modules/fx_operations.py:220-222 | the column names in row 1, then every table row in order |
| FxOperations.SavedOnlyFx | modules/fx_operations.py:214-228 | the saved reference workbook has the sheet "FX" and no other, so every other sheet it held is gone |
| FxOperations.GroupsLostAfterUpdate | modules/fx_operations.py:214-228 | once the reference file is saved this way, the comparison that reads "Account Groups" from it fails |
| FxOperations.ReplaceFx | modules/fx_operations.py:214-228 | (corrected save) each "FX" sheet replaced by the new one, every other sheet in place |
| FxOperations.Others | modules/fx_operations.py:214-228 | (corrected save) exactly the sheets not named "FX", in order |
| FxOperations.ReplaceKeepsOthers | modules/fx_operations.py:214-228 | (corrected save) replacing the FX sheet keeps the other sheets in order |
| FxOperations.AppendKeepsOthers | modules/fx_operations.py:214-228 | (corrected save) adding an FX sheet at the end keeps the other sheets in order |
| FxOperations.SavedKeepingKeeps | modules/fx_operations.py:214-228 | (corrected save) every other sheet is kept, in order, and every "FX" sheet holds the new table |
| FxOperations.GroupsKept | modules/fx_operations.py:214-228 | (corrected save) an "Account Groups" sheet survives the update |
| FxOperations.BeforeDash | modules/fx_operations.py:264-265 | the longest prefix without '-', stopped by a '-' when shorter than the text |
| FxOperations.Headers | modules/fx_operations.py:244 | the cells of row 2, one per column |
| FxOperations.MonthColumn | modules/fx_operations.py:245-257 | the first header equal to the month and its column; when none, the last header and column exactly when the user agrees, else the error |
| FxOperations.CadRowsSound | modules/fx_operations.py:259-275 | every kept row comes from a six-digit account row, in order, numbered 1 to n |
| FxOperations.CadRowsComplete | modules/fx_operations.py:261-275 | every six-digit account row of the sheet is kept |
| FxOperations.CadRowsGrow | modules/fx_operations.py:261-275 | the rows kept up to one row begin the rows kept up to any later row |
| FxOperations.CadRowsKept | modules/fx_operations.py:266-275 | a six-digit account row is appended with the next serial number |
| FxOperations.CadRowsSkipped | modules/fx_operations.py:262-266 | any other row adds nothing |
| FxOperations.CleanRows | modules/fx_operations.py:259-275 | the loop yields exactly the kept rows of rows 5 to the last |
| FxOperations.CleanCadData | modules/fx_operations.py:235-279 | the month's error, or the error for no six-digit account, or the month's name and the kept rows |
| FxOperations.CadRowsEmpty | modules/fx_operations.py:277-279 | no row is kept exactly when no row from 5 on has a six-digit account |
| CksPivot.Variants | modules/cks_pivot_operations.py:142 | the field itself comes first, then its aliases |
| CksPivot.MonthHeading | modules/cks_pivot_operations.py:84-90 | text reads as its stripped form; anything but text and dates is skipped |
| CksPivot.MonthColFrom | modules/cks_pivot_operations.py:82-93 | the left-most column whose row-3 heading is the month, none when no column has it |
| CksPivot.FindMonthCol | modules/cks_pivot_operations.py:82-93 | the loop returns that column |
| CksPivot.Quarter | modules/cks_pivot_operations.py:108 | the quarter is 1 to 4 and holds the month |
| CksPivot.YearSuffix | modules/cks_pivot_operations.py:110 | at most two digits |
| CksPivot.PeriodOf | modules/cks_pivot_operations.py:102-110 | defined exactly when the label parses, with a quarter in 1..4 and the label itself as M-Y |
| CksPivot.ReportDateIsLastDay | modules/cks_pivot_operations.py:105-106 | the report date is a valid day whose next day is not |
| CksPivot.QuarterYearMatchesLabel | modules/cks_pivot_operations.py:110 | the year digits of Q-Y are those of the M-Y label |
| CksPivot.BasinRowFrom | modules/cks_pivot_operations.py:121-125 | the first row whose column-A label is the source basin, none when no row has it |
| CksPivot.FindBasinRow | modules/cks_pivot_operations.py:121-125 | the search returns that row |
| CksPivot.ScanHit | modules/cks_pivot_operations.py:143-150 | the first row naming the field, reached before another basin's block opens, gives the month-column value |
| CksPivot.ScanMiss | modules/cks_pivot_operations.py:141-150 | no row naming the field before the next basin's block or the sheet's end gives "N/A" |
| CksPivot.ScanStep | modules/cks_pivot_operations.py:143-150 | one row of the search: stop at another basin, take a hit, or go on |
| CksPivot.FieldValue | modules/cks_pivot_operations.py:140-151 | the loop returns what the search defines |
| CksPivot.PeriodCells | modules/cks_pivot_operations.py:130-138 | the six period columns |
| CksPivot.FieldValuesAt | modules/cks_pivot_operations.py:140-151 | value j of a row is what the search for field j found |
| CksPivot.FieldValuesStep | modules/cks_pivot_operations.py:140-151 | each field adds its value at the end |
| CksPivot.BuildRow | modules/cks_pivot_operations.py:130-153 | the loop builds the basin's row: code, period columns, one value per field |
| CksPivot.ExtractRows | modules/cks_pivot_operations.py:116-153 | at most one row per basin, each with a destination code, the period columns and one value per field |
| CksPivot.ShapedAppend | modules/cks_pivot_operations.py:156-178 | rows of the same shape stay so when joined |
| CksPivot.HeadersWidth | modules/cks_pivot_operations.py:113 | the header row has the seven period columns and one per field |
| CksPivot.SkippedBasin | modules/cks_pivot_operations.py:126-128 | a basin whose label has no row adds no row |
| CksPivot.ExtractStep | modules/cks_pivot_operations.py:118-153 | each basin adds its row when its label is found, nothing otherwise |
| CksPivot.Extract | modules/cks_pivot_operations.py:116-153 | the loop returns the rows the definition gives |
| CksPivot.Carried | modules/cks_pivot_operations.py:172 | text is carried stripped |
| CksPivot.FilledDown | modules/cks_pivot_operations.py:168-174 | the fill-down keeps the column's length |
| CksPivot.FilledFromNearestAbove | modules/cks_pivot_operations.py:168-174 | a blank cell receives the stripped value of the nearest truthy cell above |
| CksPivot.LastAboveIs | modules/cks_pivot_operations.py:168-174 | `last` holds the carried value of the nearest truthy cell above |
| CksPivot.BlankWithNothingAbove | modules/cks_pivot_operations.py:168 | with nothing truthy above, `last` is still None |
| CksPivot.TruthyKept | modules/cks_pivot_operations.py:170-172 | a truthy cell is left as it was |
| CksPivot.FillStep | modules/cks_pivot_operations.py:169-174 | one row of the fill-down |
| CksPivot.FillDown | modules/cks_pivot_operations.py:167-174 | the column array is filled down in place |
| CksPivot.FillCell | modules/cks_pivot_operations.py:170-174 | one cell is filled and no other cell changes |
| CksPivot.ColumnA | modules/cks_pivot_operations.py:169-170 | one cell per row |
| CksPivot.WithColumnA | modules/cks_pivot_operations.py:174 | only column A changes |
| CksPivot.AuRows | modules/cks_pivot_operations.py:160-180 | the AU rows have the pivot's shape |
| CksPivot.PivotRows | modules/cks_pivot_operations.py:37-180 | a successful run has a parsed period and rows of the pivot's shape |
| CksPivot.PivotFails | modules/cks_pivot_operations.py:37-102 | the run fails exactly when the US or CA sheet is missing, either lacks the month's column, or the label does not parse |
| CksPivot.Pivot | modules/cks_pivot_operations.py:19-180 | the method returns the rows the definition gives |
| CksPivot.ExtractAu | modules/cks_pivot_operations.py:160-180 | the AU rows the definition gives |
| CksPivot.AppendPivot | modules/cks_pivot_operations.py:189-203 | on an existing sheet the rows go under its last row; a new sheet gets the header in row 1 and the rows from row 2 |
| CksPivot.AppendKeepsRows | modules/cks_pivot_operations.py:190-203 | appending under the last row leaves every existing cell alone |
| CksPivot.AppendedAt | modules/cks_pivot_operations.py:201-203 | value j of pivot row i lands in row start + i, column j + 1 |
| ComparisonOps.CleanText | modules/comparison_operations.py:44 | the cleaned text has no parenthesis and none of the dropped character (unless that is '-') |
| ComparisonOps.CleanTextUnchanged | modules/comparison_operations.py:44 | a text without the three characters is unchanged |
| ComparisonOps.CleanTextAppend | modules/comparison_operations.py:44 | cleaning works character by character over a concatenation |
| ComparisonOps.CleanParenthesised | modules/comparison_operations.py:44 | the accounting notation "(x)" reads as "-x" |
| ComparisonOps.RoundHalfEven | modules/comparison_operations.py:46 | within one half of the value, and even on a tie |
| ComparisonOps.RoundWhole | modules/comparison_operations.py:46 | a whole number rounds to itself |
| ComparisonOps.PnlValue | modules/comparison_operations.py:42-48 | an integer stays itself; blanks and dates raise |
| ComparisonOps.PnlNegativeDollars | modules/comparison_operations.py:42-48 | "($t)", for a string t of digits, is in the ledger the integer minus the value of t |
| ComparisonOps.DollarsCleaned | modules/comparison_operations.py:44 | "($t)" cleans to "-t" |
| ComparisonOps.CadValue | modules/comparison_operations.py:58-62 | a blank is NaN, numbers are themselves |
| ComparisonOps.CadNegative | modules/comparison_operations.py:58-62 | "(t)", for a string t of digits, is in the CAD data minus the value of t |
| ComparisonOps.Keys | modules/comparison_operations.py:67-71 | the join key of each row, in order |
| ComparisonOps.Convert | modules/comparison_operations.py:42-62 | defined exactly when every value of the column converts, and then holding those values |
| ComparisonOps.Pairs | modules/comparison_operations.py:87-91 | every pair the inner join yields has equal keys |
| ComparisonOps.Matches | modules/comparison_operations.py:87-91 | the pairs of one left row are right rows of its key |
| ComparisonOps.MatchesComplete | modules/comparison_operations.py:87-91 | every right row of the key is paired |
| ComparisonOps.MatchesNone | modules/comparison_operations.py:87-91 | a key absent on the right pairs nothing |
| ComparisonOps.PairsExact | modules/comparison_operations.py:87-91 | two rows are paired exactly when their keys are equal |
| ComparisonOps.PairAt | modules/comparison_operations.py:87-91 | where the inner join puts a matching pair |
| ComparisonOps.LeftPairs | modules/comparison_operations.py:98-102 | each merged row with a group row of its key, or with none only when its key has no group row |
| ComparisonOps.LeftRow | modules/comparison_operations.py:98-102 | a merged row yields at least one row, all with groups of its key or none when it has none |
| ComparisonOps.NoMatch | modules/comparison_operations.py:98-102 | no match means the key is absent |
| ComparisonOps.Lift | modules/comparison_operations.py:98-102 | every matched pair carries its group |
| ComparisonOps.LeftPairsComplete | modules/comparison_operations.py:98-102 | every merged row comes out with every group row of its key, and with no group when there is none |
| ComparisonOps.LeftAt | modules/comparison_operations.py:98-102 | where the left join puts a merged row with a group row |
| ComparisonOps.Delta | modules/comparison_operations.py:95 | NaN stays NaN; otherwise the delta plus the ledger value is the CAD value |
| ComparisonOps.Kept | modules/comparison_operations.py:114-117 | exactly the rows in Revenue or Variable Cost with a nonzero delta |
| ComparisonOps.Locate | modules/comparison_operations.py:22-128 | found exactly when every check on the sheets and headers passes (`HeadersPass`); the month and account positions are then the only columns of their headers |
| ComparisonOps.OnlyAt | modules/comparison_operations.py:65-71 | a header that occurs once occurs nowhere else |
| ComparisonOps.HeaderError | modules/comparison_operations.py:65-128 | no message exactly when the account, group-sheet and merge checks all pass |
| ComparisonOps.AccountError | modules/comparison_operations.py:65-82 | no message exactly when both account headers occur once, and the group sheet exists with "Account Number" and "High CK (group)" |
| ComparisonOps.MergeError | modules/comparison_operations.py:95-128 | no message exactly when both month columns are suffixed once by the merge, "Account Number" is no CAD header, "High CK (group)" is in both sheets or neither, and "Account Desc" in exactly one |
| ComparisonOps.GroupKeys | modules/comparison_operations.py:84 | the key of each group row |
| ComparisonOps.Join | modules/comparison_operations.py:87-102 | a merged row built from matching rows is what a merged row must be |
| ComparisonOps.MergedKeys | modules/comparison_operations.py:87-98 | each merged row keeps its ledger row's key |
| ComparisonOps.JoinAt | modules/comparison_operations.py:87-102 | row k of the left join is built from the pair and group it names |
| ComparisonOps.JoinedRows | modules/comparison_operations.py:87-102 | every merged row joins a ledger row and a CAD row of the same account |
| ComparisonOps.JoinList | modules/comparison_operations.py:87-102 | one merged row per left-join pair, in order |
| ComparisonOps.JoinedComplete | modules/comparison_operations.py:87-102 | every matching ledger and CAD row is merged, once per group row of the account or once with none |
| ComparisonOps.Compare | modules/comparison_operations.py:20-135 | on success the header checks passed, and every row is kept and is a proper merged row |
| ComparisonOps.Check | modules/comparison_operations.py:22-128 | on success the positions are the located ones and both month columns converted |
| ComparisonOps.KeptRows | modules/comparison_operations.py:114-117 | every kept row passes the filter and is a proper merged row |
| ComparisonOps.CompareSucceeds | modules/comparison_operations.py:22-128 | the run gets through exactly when every check on the sheets and headers passes and both month columns convert |
| ComparisonOps.CheckSucceeds | modules/comparison_operations.py:22-128 | the checks in source order pass exactly when `HeadersPass` holds and both month columns convert |
| ComparisonOps.CheckedPasses | modules/comparison_operations.py:22-128 | a run that gets through passed every header check and converted both month columns |
| ComparisonOps.PassingChecked | modules/comparison_operations.py:22-128 | a run whose headers pass and whose month columns convert gets through |
| ComparisonOps.PassingConverts | modules/comparison_operations.py:42-62 | the month columns convert at the positions the checks read them |
| ComparisonOps.ValuesConvert | modules/comparison_operations.py:42-62 | converted values show that every value of the column converts |
| ComparisonOps.KeptComplete | modules/comparison_operations.py:113-117 | every merged row that passes the filter is among the kept rows |
| ComparisonOps.CompareComplete | modules/comparison_operations.py:86-135 | every matching ledger and CAD row in Revenue or Variable Cost with a nonzero delta reaches the sheet |
| ComparisonOps.OutRows | modules/comparison_operations.py:119-135 | one output row per kept row, in order |
| ReportGeneration.TitlePlacement | modules/report_generation.py:64-69 | the title lands in row 1 at the block's first column |
| ReportGeneration.HeaderPlacement | modules/report_generation.py:71-73 | column name j lands in row 2, column start + j |
| ReportGeneration.DataPlacement | modules/report_generation.py:75-78 | value j of data row i lands in row 3 + i, column start + j |
| ReportGeneration.BlockColumns | modules/report_generation.py:59-81 | a block fills only its own columns |
| ReportGeneration.RowsWritesColumns | modules/report_generation.py:75-78 | rows no wider than w stay left of start + w |
| ReportGeneration.Present | modules/report_generation.py:84-98 | the blocks are sheets the workbook has, with their own frames |
| ReportGeneration.AbsentSkipped | modules/report_generation.py:88-90 | a view the workbook lacks adds no block |
| ReportGeneration.PresentTitles | modules/report_generation.py:84-98 | a title appears exactly when the view is listed and the workbook has it |
| ReportGeneration.PresentStep | modules/report_generation.py:84-90 | each view adds its block when present, nothing otherwise |
| ReportGeneration.PresentPrefix | modules/report_generation.py:84-98 | the blocks of a prefix of the views come first |
| ReportGeneration.NextCol | modules/report_generation.py:81 | the next free column never moves left |
| ReportGeneration.StartsStep | modules/report_generation.py:57-81 | the first block starts at the start column, each next one two columns after the last column of the one before |
| ReportGeneration.LayoutColumns | modules/report_generation.py:57-98 | everything laid out lies between the start column and the column before the next free one |
| ReportGeneration.LayoutHoldsBlock | modules/report_generation.py:57-98 | each block's cells are in the sheet unchanged: blocks never overlap |
| ReportGeneration.NextColPrefix | modules/report_generation.py:81 | the next free column grows along the list |
| ReportGeneration.BlankAfterBlock | modules/report_generation.py:22-23 | the column right after each block stays blank |
| ReportGeneration.BlankBetween | modules/report_generation.py:22-23 | the column between two runs of blocks stays blank |
| ReportGeneration.Fits | modules/report_generation.py:59-81 | a slice of well-formed blocks is well-formed |
| ReportGeneration.WriteBlock | modules/report_generation.py:59-81 | a block with no columns raises and writes nothing; otherwise its cells are added and the next column is start + width + 1 |
| ReportGeneration.WriteViews | modules/report_generation.py:84-98 | succeeds exactly when every present view has columns, then the sheet gains their layout and the next free column |
| ReportGeneration.WriteView | modules/report_generation.py:84-90 | one turn of the loop keeps the layout invariant |
| ReportGeneration.WriteNext | modules/report_generation.py:87 | one block is added after the others, failing exactly when it has no columns |
| ReportGeneration.WroteAll | modules/report_generation.py:84-98 | the loop invariant yields the layout |
| ReportGeneration.LayoutStep | modules/report_generation.py:87 | adding a block extends the invariant |
| ReportGeneration.NarrowStops | modules/report_generation.py:59-68 | a sheet with no columns anywhere stops the build |
| ReportGeneration.LayoutSnoc | modules/report_generation.py:84-98 | one more block lands at the next free column |
| ReportGeneration.BuildDatabase | modules/report_generation.py:14-98 | a new "Database" sheet holding exactly the layout of the export's views then the reference views, failing exactly when one has no columns |
| ReportGeneration.LayoutAppend | modules/report_generation.py:83-98 | the second loop continues the first's layout from its next free column |
| ReportGeneration.AllWideAppend | modules/report_generation.py:83-98 | both loops succeed exactly when each does |
| ViewDownload.Names | modules/view_download_operations.py:49 | the sheet names, in order |
| ViewDownload.BaseName | modules/view_download_operations.py:46 | at most 31 characters, a prefix of the view name, the whole name when it fits |
| ViewDownload.CandidatesDiffer | modules/view_download_operations.py:46-51 | different passes try different names |
| ViewDownload.UniqueName | modules/view_download_operations.py:46-51 | a name no sheet has: the base name when free, otherwise the first free suffix `_k` |
| ViewDownload.UniqueNameShape | modules/view_download_operations.py:46-51 | the name is the base name or the base name with a suffix |
| ViewDownload.SheetViews | modules/view_download_operations.py:53-70 | no more sheets than views |
| ViewDownload.FetchedRows | modules/view_download_operations.py:62-65 | no more row sets than fetches |
| ViewDownload.SheetViewsLength | modules/view_download_operations.py:53-70 | one sheet per successful fetch |
| ViewDownload.Appended | modules/view_download_operations.py:62-65 | a fetched view adds a sheet and keeps the loop invariant |
| ViewDownload.Skipped | modules/view_download_operations.py:68-70 | a failed fetch adds no sheet |
| ViewDownload.DownloadStep | modules/view_download_operations.py:45-70 | each view adds its sheet only when its fetch succeeds |
| ViewDownload.BaseNames | modules/view_download_operations.py:46 | the base name of each view |
| ViewDownload.BaseNameFree | modules/view_download_operations.py:46-51 | with distinct base names, a view's base name is still free |
| ViewDownload.DownloadViews | modules/view_download_operations.py:39-70 | distinct sheet names, one sheet per successful fetch holding its rows and named after its view, exactly its base name when base names are distinct |
| ViewDownload.ConfiguredViewsKeepTheirNames | modules/view_download_operations.py:13-27 | the configured views have distinct base names |
| MonthWindow.ShiftMonth | gui/main_window.py:266-269 | the first of a valid month exactly delta months away |
| MonthWindow.SameMonthIndex | gui/main_window.py:266-269 | equal month numbers mean the same year and month |
| MonthWindow.ShiftBack | gui/main_window.py:266-269 | shifting there and back lands on the first of the original month |
| MonthWindow.PrevDay | gui/main_window.py:273 | the day before a valid date is valid |
| MonthWindow.PrevDayOrdinal | gui/main_window.py:273 | the day before is one day number less |
| MonthWindow.PrevStart | gui/main_window.py:273-274 | a valid first of a month |
| MonthWindow.PrevStartIsPreviousMonth | gui/main_window.py:272-274 | it is the month before today's |
| MonthWindow.Months | gui/main_window.py:275 | twelve firsts of months, the month before today's and the eleven before it, most recent first |
| MonthWindow.Labels | gui/main_window.py:276 | twelve labels |
| MonthWindow.ReportWindow | gui/main_window.py:305-313 | defined exactly when the label parses, both ends valid dates |
| MonthWindow.ReportWindowBounds | gui/main_window.py:310-313 | the window runs from the first to the last day of the month, DaysInMonth days in all |
| MonthWindow.LabelsSelectTheirMonth | gui/main_window.py:275-313 | every label offered parses back to the month it was made from |
| Calendar.DaysInMonth | modules/cks_pivot_operations.py:105 | a month has 28 to 31 days |
| Calendar.ParseMonthLabel | modules/cks_pivot_operations.py:102 | `strptime(..., "%b-%y")` yields a month 1..12 of a year 1969..2068 |
| Calendar.MonthLabelRoundTrip | gui/main_window.py:276-310 | a label written with `"%b-%y"` parses back to its year and month |
| Calendar.DayBeforeNextMonth | gui/main_window.py:312-313 | the day before the first of the next month is the month's last day, across a year end too |
| Ordering.SortedDistinct | modules/pnl_pivot_operations.py:98 | `sorted(set(...))`: strictly sorted and holding exactly the elements of the input |
| Ordering.SortedUnique | modules/pnl_pivot_operations.py:98 | two strictly sorted lists of the same elements are equal, so the sorted set is unique |
| Ordering.Insert | modules/pnl_pivot_operations.py:98 | inserting keeps a list strictly sorted and adds exactly the element |

Where the code and its own comments differ, the model follows the code:

- The Necessary Adjustment row writes `=-CK-VM` for cost fields, although
  the comment beside it reads "-L2 + L4"
  (`modules/project_vm_adjustment.py:372-375`).
- `pad_days` clips the pad into `[month_start, month_end)`. A pad active for
  the whole window therefore gets `month_end - month_start` days, one fewer
  than the month has (`UnallocDistribution.FullWindowPad`).
- The allocation engine sums raw `Prop TN` with no client-factor weighting.
  It does no forward fill of blank basins. A pad whose basin has no ratio
  gets NaN, not 0.
- The CK block ends at column HG, which is column 215; the comment on
  `modules/pnl_pivot_operations.py:14` calls it 208 (`PnlPivot.CkLastCol`).
- The AUD scan opens the sheet "LOS Management Report IS29" in the USD
  workbook too, where the comment names IS19. The model takes both sheets as
  inputs, so the sheet name plays no part in it.

## Left out

- Workbook I/O is not modelled: loading and saving files, the zip check and
  backup copy, `read_excel` and `pandas.ExcelFile`. The model starts from the
  cells already read, as grids, frames or rows.
- FxOperations.UpdateFxRef: what the save at lines 214-228 writes is
  modelled as a sheet list (`SavedAsWritten`), not as a file. The corrected
  save (`SavedKeeping`) is stated and proved on its own; no other member
  consumes the saved workbook, because the workflow that chains the FX
  update and the comparison (`modules/monthly_workflow.py`) is not modelled.
- FxOperations.FxGrid: a cell that pandas holds as NaN (a blank read back,
  or the `None` of an added Date column) is written blank; how openpyxl
  writes a NaN float is not modelled.
- `_safe_load_workbook`, `_read_block` and the detail sheets "P. VM - All
  USD" … "P. VM - Unass" (`modules/project_vm_adjustment.py:136-151,461-495`)
  are left out. They copy cells and style them. The bucket masks that pick
  their rows are modelled in `ProjectVmAdjustment.Partition`.
- `_add_grand_total` and `_append_manual_rows`
  (`modules/project_vm_adjustment.py:172-181,239-254`) are left out. Their
  rows are presentation, and their SUM formulas are only written, not used
  by any modelled rule.
- The CK sums of the prior month (`modules/project_vm_adjustment.py:282-292`)
  are left out. They depend on `datetime.date.today()`.
- Fonts, fills, number formats, alignments, column widths, row heights,
  merged cells and the hidden column Z are presentation and not modelled.
- The data validation of the month dropdown is not modelled either.
- `get_column_letter` is a library call. Columns are modelled by their
  numbers, and formulas refer to cells by (column, row).
- Message boxes are not modelled. The answer to the month-mismatch prompt of
  `clean_cad_data` is a boolean parameter. The warning of
  `create_comparison_sheet` about missing groups changes nothing and is
  left out.
- Network calls are not modelled: Tableau sign-in and sign-out, and the HTTP
  fetch of each view. The outcome of each fetch is an input,
  `None` for a request that raised.
- Clocks are not modelled. Today's date and the report window are
  parameters.
- `sys.exit`, logging and the UI dialogs are not modelled. A fatal exit is
  the `Err` of a `Result`.
- Floating point is not modelled: amounts are exact reals.
- The FX factors `1/fx_cad` and `1/fx_au`
  (`modules/project_vm_adjustment.py:277-278`) are parameters of the
  conversion. The model does not compute them from the Database's last
  rates.
- NaN and infinity are not modelled in general. They appear only where a
  rule depends on them: `Option` values, `ComparisonOps.Amount.NaN`, and
  `UnallocDistribution.Extended`.
- Python's `str()` of a float is not modelled, and the rendering of
  datetimes is only partly modelled. Inputs are taken to hold no float
  keys, labels or basins.
- PnlPivot.Texts: a float is left out of the basin and month lists, when
  pandas would include its `str()`.
- PnlPivot.VmTexts: a float is likewise left out.
- PnlPivot.DateLabel: a float date cell matches no month.
- CksPivot.Carried: a float fill-down value is carried as itself rather than
  as its text.
- ComparisonOps.CompareSucceeds: headers are compared as cells, where
  pandas compares labels (`5` and `5.0` are one label). A header that already
  spells a suffixed name ("X_PnL", "X_CAD") is not modelled: the merge may
  then refuse the suffixes or find the wrong column. A month header equal to
  "Account2" is not modelled either: that column is converted and then turned
  into text. For these inputs the model's verdict can differ from the
  source's.
- ComparisonOps.Check: with the last ledger header, or the month in the CAD
  sheet, repeated, the source converts every copy. An early copy that fails
  ends the run at the conversion. The model converts one copy and fails at
  the difference. The run fails in both, and only the message can differ.
  The message for a missing CAD month does not name the month.
- ComparisonOps.Locate: a repeated "Account Desc" header writes one output
  column per copy. The model takes the first.
- ComparisonOps.KeyOf: float account keys are compared as numbers, not as
  their text.
- FxOperations.LatestMonth: a float last header gives `None` rather than its
  text.
- ProjectVmAdjustment.ToNumber: `pd.to_numeric` is taken to accept the
  finite literals of `float()` without underscores. "nan" is NaN in both.
  "inf" is infinity in the source and NaN in the model.
- FxOperations.DateText: a Date column added by line 199 of
  `modules/fx_operations.py` holds `None`, rendered "None", where the model
  renders "nan". The two differ only for a month text "nan" or "None".
- Strings.PyFloat: `float()` also accepts "inf", "infinity" and "nan" in any
  case, with a sign. The model refuses them, and it reads a literal too large
  for a double ("1e400") as its exact value rather than as infinity.
- Cells.FloatOf: inherits the spellings of infinity and NaN that
  `Strings.PyFloat` refuses.
- FxOperations.PairAt: a rate cell holding "nan" or "inf" passes `float()`
  and counts as a usable pair in the source (NaN compares unequal to 0).
  Through `Cells.FloatOf`, the model refuses it.
- FxOperations.AudRatio: inherits the `PairAt` gap for "nan" and "inf" rate
  texts.
- PnlPivot.LastRow: a rate text "nan" or "inf" is a float for the source,
  and no rate for the model.
- PnlPivot.ScanRate: inherits the `LastRow` gap.
- PnlPivot.FindCadUsdRate: inherits the `LastRow` gap.
- ComparisonOps.CadValue: a CAD text "nan" or "inf" converts in the source,
  and fails in the model.
- ComparisonOps.PnlValue: a ledger text too large for a double fails
  `astype(int)` in the source after rounding to infinity. The model rounds
  its exact value. "nan" and "inf" fail in both.
- Regular expressions, `isdigit` and `strip` are modelled on ASCII. Unicode
  digits and whitespace other than the ASCII blanks are not.
- `strptime` and `strftime` use the English month abbreviations. The `%y`
  pivot (00-68 is 2000-2068) is modelled, and locales are not.
- The pandas dtype inference of `read_excel` is not modelled, beyond
  `dataframe_to_rows` writing each cell back. Of the typing `pd.DataFrame`
  does in `sheet_to_df`, only that of the Project Number column is
  modelled (`UnallocDistribution.FloatColumn`), because the mask reads it
  as text; the cost columns are taken as numbers.
- UnallocRun.ReadDatabase: the Pad Start and Pad End cells are taken as
  already parsed dates or blanks. `pd.to_datetime` parsing text or numbers
  into dates, and the error it raises on a text that is no date (such as
  "TBD"), are not modelled, so the run's success condition holds only for
  sheets whose date columns hold dates and blanks.
- PnlPivot.FieldValue: the SUMIFS, SUMIF and IF criteria are compared by
  exact cell equality. Excel compares text case-blind, honours the `*`
  and `?` wildcards and matches a number against its text, so basins
  spelled "Permian" and "PERMIAN" each sum both spellings in Excel, where
  the model sums only its own.
- PnlPivot.CkColumn: for a header that occurs more than once it names the
  first column, where pandas gives a frame. `GeneratePivot` uses it only
  where `HeaderCount` is 1, and models the frame otherwise.
- TabOrder sorts sheets by title. A workbook is taken to have no two sheets
  of the same title, which openpyxl also refuses.
- The monthly workflow, the settings dialog, the Flask server, configuration
  loading and the logging setup only sequence the modelled operations or
  handle I/O, and are not part of this model.

## Findings

| source | as written | input that shows it | evidently intended | confidence | as-written member | corrected member |
|---|---|---|---|---|---|---|
| modules/unalloc_distribution.py:159 | `compute_ratio` replaces +inf and NaN by 0 but leaves -inf in place | numerator -100, denominator 0 (a basin with negative unallocated cost and no activity) | the guarded ratio 0, as for every other zero denominator | not executed | UnallocDistribution.NegativeOrphanGivesNegInf | UnallocDistribution.SafeRatio |
| modules/fx_operations.py:214-228 | `update_fx_ref` saves a fresh workbook holding only the sheet "FX" over the reference file | any reference workbook with an "Account Groups" sheet: the comparison run next in the workflow (monthly_workflow.py:59) reads that sheet from the same file and exits with "Worksheet 'Account Groups' not found" | replace the "FX" sheet and keep every other sheet of the reference workbook | plausible, not executed | FxOperations.GroupsLostAfterUpdate | FxOperations.SavedKeepingKeeps |
