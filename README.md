# Invoice dashboard core, modelled in Dafny

`dashboard.py` is a Streamlit dashboard over a workbook of foreign-payment
invoices ("faturas"). This project models the part between reading the sheet
and drawing the charts:

- **Loading** (`load_data`):
  - locate the eleven recognised columns by their Portuguese headers;
  - coerce missing or unparseable numbers to 0 and missing texts to their placeholders;
  - derive `status` (Pago / Pendente) from the payment date, and `valor_total_pago` as
    principal + IOF + contract fee + IRRF + CIDE;
  - split the rows into the paid and the pending table, keeping their order.
- **Global filter**: an inclusive payment-date range on the paid table only, then
  membership in the selected counterparties and RMs on both tables.
- **Aggregations** the three pages show:
  - the overview KPIs (total, largest invoice, top RM, top counterparty) and the
    per-counterparty composition chart (top 20, or all);
  - the counterparty ranking, the top-10 share chart and the pending breakdown
    per (counterparty, currency);
  - the RM selector's options and default, the rows of the selected RMs, and the
    composition of their paid part.

Rows are the `Invoice` datatype. Amounts are `real`, so sums are exact.
Timestamps are `int`. What the library parsers decided for a cell is an input
carried in the `Cell` datatype. Python's string order is `Orders.StrLess`
(lexicographic by code point), proved a strict total order.

Loading and filtering change tables step by step, so they are methods. The loops
are in `Loader.SplitRows` (one row at a time into the paid or pending table) and
`Filters.ApplyMask` (one row at a time through a mask). `Loader.LoadData` and
`Filters.FilterTables` are loop-free methods that call them. Each method is
proved equal to a specification function (`Loader.Load`, `Masks.Where`). The
aggregations are pure functions with lemmas.

Tie-breaking follows pandas. `groupby` sorts its keys, so `idxmax` returns, and
`nlargest` keeps, the smallest key among equal sums.

Three behaviours of the code are worth stating outright:

- **Absent columns are not skipped.** Line 51 keeps only the recognised columns
  that are present. Lines 53-58 then index every numeric and text column anyway,
  so a missing column raises and the load returns `(None, None)`. The model
  reports this as `MissingColumn`.
- **KPI ties.** `groupby` sorts its keys, so among equal sums `idxmax` returns the
  first key in sorted order, not the first key met in the sheet.
- **Negative amounts.** Amounts are not necessarily non-negative: the coercion
  keeps any parsed number.

## Model

| member | source | states |
|---|---|---|
| Orders.StrLessIsStrictTotal | dashboard.py:108 | Python's string comparison, which orders `sorted` and `groupby` keys, is irreflexive, transitive and total |
| Orders.PairLessIsStrictTotal | dashboard.py:156 | the order of (counterparty, currency) keys is a strict total order |
| Masks.Where | dashboard.py:61 | a boolean-mask selection keeps no more rows, and a row is kept exactly when it is in the table and the mask holds for it |
| Masks.WhereConcat | dashboard.py:107-114 | selecting from two tables put end to end is the two selections end to end, so relative order is kept |
| Masks.WhereTwice | dashboard.py:184-188 | selecting with one mask and then another equals selecting once with both |
| Masks.WhereIdempotent | dashboard.py:184-189 | selecting twice with the same mask changes nothing |
| Masks.WhereKeepsAll | dashboard.py:184 | a mask that holds for every row keeps the table unchanged (the `.copy()` when no date range applies) |
| Masks.WhereKeepsNone | dashboard.py:188-189 | a mask that holds for no row leaves an empty table |
| Masks.StatusPartition | dashboard.py:59-61 | the Pago and Pendente selections together hold every row exactly once: counts and multisets add up |
| Loader.ReadOrderComplete | dashboard.py:52-58 | the columns the loader reads are exactly the eleven recognised ones |
| Loader.Resolve | dashboard.py:49-52 | a recognised column is found by its header or its canonical name; neither is `MissingColumn`, both is `AmbiguousColumn` |
| Loader.ResolveAll | dashboard.py:52-58 | locating succeeds exactly when every column resolves; on failure the error is that of the first unresolvable column in reading order |
| Loader.Number | dashboard.py:53 | `to_numeric(errors='coerce').fillna(0)` keeps a parsed number, and any non-zero result came from a filled cell that parsed to it |
| Loader.TextOr | dashboard.py:54-57 | `fillna(placeholder)` keeps a filled cell's text, and anything other than the placeholder came from a filled cell |
| Loader.DateOf | dashboard.py:58 | `to_datetime(errors='coerce')` keeps a filled cell's parsed date, and a date is only produced from a filled cell |
| Loader.Normalize | dashboard.py:53-60 | a normalised row is well formed (total paid is the five-term sum; Pago exactly when it has a date) and is Pago exactly when the date cell parsed |
| Loader.NormalizeCoerces | dashboard.py:53-58 | every numeric column keeps its parsed number and turns blank or unparseable cells into 0; blank RM, counterparty, invoice and currency become "Não informado", "Não informado", "Não informada" and "N/A", and filled ones keep their text; a filled payment cell keeps its parsed date, and a blank one leaves the row undated and Pendente |
| Loader.Normalized | dashboard.py:53-60 | normalisation yields one well-formed row per sheet row |
| Loader.SplitStep | dashboard.py:61 | each further row joins the end of exactly one of the two selections, the one its status names |
| Loader.SplitRows | dashboard.py:59-61 | the row loop builds exactly the Pago selection and the Pendente selection of the normalised rows |
| Loader.Load | dashboard.py:49-61 | the load succeeds exactly when every recognised column is located, fails with the locating error otherwise, and on success the paid table holds only Pago rows and the pending table only Pendente rows |
| Loader.LoadData | dashboard.py:49-67 | `load_data` after the read returns exactly what the `Load` specification gives: both tables, or the column error |
| Loader.LoadPartitions | dashboard.py:58-61 | after a successful load the two table sizes add up to the sheet's rows; paid rows are Pago with a date, pending rows Pendente without one, all well formed |
| Loader.SplitShapes | dashboard.py:59-61 | the Pago selection of well-formed rows holds only dated Pago rows, the Pendente selection only undated Pendente rows |
| Loader.LoadFailsOnlyOnColumns | dashboard.py:53-67 | the load fails exactly when some recognised column cannot be located, and reports that column's error |
| Filters.DateMask | dashboard.py:185-187 | with both ends chosen, a row passes exactly when it has a payment date within [start, end]; otherwise every row passes |
| Filters.Selection | dashboard.py:188-189 | a row passes exactly when its counterparty and its RM are both selected |
| Filters.ApplyMask | dashboard.py:187-189 | the row loop keeps exactly the rows the mask holds for, in order |
| Filters.FilterTables | dashboard.py:184-189 | filtered paid is the selection by date range and both memberships; filtered pending is the selection by the two memberships only |
| Filters.FilterIdempotent | dashboard.py:184-189 | filtering the filtered tables again with the same choices changes neither |
| Filters.EmptySelectionShowsNothing | dashboard.py:188-189 | an empty counterparty or RM selection empties both tables whatever the date range |
| Filters.FilteredPaidWithinRange | dashboard.py:186-188 | a paid row survives a full range exactly when it is dated within the range, both ends included, and its counterparty and RM are selected |
| Grouping.CountWhereWitness | dashboard.py:74 | a key counted at least once is the key of some row |
| Grouping.GroupKeys | dashboard.py:74 | the group keys are distinct, every row's key is among them, and each is the key of at least one row (positive count) |
| Grouping.Groups | dashboard.py:74 | one bucket per key occurring in the rows; each bucket's count and sum are those of exactly its key's rows, and its count is positive |
| Grouping.GroupsEmpty | dashboard.py:74 | grouping yields no bucket exactly when there are no rows |
| Grouping.GroupsConserve | dashboard.py:74 | the grouped sums add up to the column sum and the counts to the number of rows |
| Grouping.Rank | dashboard.py:142 | sorting by sum is a permutation of the grouped table |
| Grouping.RankRanked | dashboard.py:142 | sorting leaves no bucket before one with a larger sum (equal sums: smaller key first) |
| Grouping.RankKeysDistinct | dashboard.py:142 | sorting keeps one bucket per key |
| Grouping.RankTotals | dashboard.py:142 | sorting keeps the total of sums and of counts |
| Grouping.RankedSumsDescend | dashboard.py:142 | in a sorted table sums never increase |
| Grouping.TopN | dashboard.py:91 | `nlargest(n)` has min(n, #groups) buckets |
| Grouping.TopNKeepsLargest | dashboard.py:91 | `nlargest` is sorted, drawn from the groups, and no bucket left out comes before one kept |
| Grouping.TopNOmitsSmaller | dashboard.py:150 | a group left out by `nlargest` has a sum no larger than any group kept |
| Overview.FirstMaxIndex | dashboard.py:74 | `idxmax` picks a row with the largest total, and every earlier row's total is strictly smaller |
| Overview.TopKey | dashboard.py:74-75 | the grouped `idxmax` is a key of the rows with the largest grouped sum; among equal sums it is the first key in sorted order |
| Overview.OverviewKpis | dashboard.py:73-77 | with no paid rows the KPIs are 0, none, "N/A" and "N/A"; otherwise the largest invoice is one of the paid rows |
| Overview.OverviewKpisCorrect | dashboard.py:73-77 | with paid rows the total is the column sum, the largest invoice is the first row with the maximal total, and the RM and counterparty KPIs are argmax keys of their grouped sums |
| Overview.PartsAddUp | dashboard.py:88-89 | adding the per-counterparty component sums (`sum(axis=1)`) gives the per-counterparty sum of each row's components |
| Overview.ComponentTotalIsTotalPaid | dashboard.py:60 | on loaded rows the component sum per key equals the `valor_total_pago` sum per key |
| Overview.Composition | dashboard.py:88-91 | the chart is empty exactly when there are no paid rows, and has at most 20 bars unless "show all" is ticked |
| Overview.CompositionShape | dashboard.py:88-91 | the chart shows min(N, #counterparties) distinct counterparties, with N = 20 or all when "show all" is ticked, in non-increasing total |
| Overview.CompositionBars | dashboard.py:88-91 | each bar is a counterparty of the paid rows; its five segments are that counterparty's sums of principal, IOF, IRRF, CIDE and contract fee, which add up to its total, the counterparty's component sum |
| Overview.CompositionOmitsSmallest | dashboard.py:91 | a counterparty left off the chart paid no more than any counterparty shown |
| Counterparties.Ranking | dashboard.py:142 | the ranking is a reordering of the per-counterparty groups, and is empty exactly when there are no paid rows |
| Counterparties.RankingCorrect | dashboard.py:142 | the ranking has one line per counterparty with that counterparty's summed totals, in non-increasing order; its sums add up to the total-paid KPI |
| Counterparties.TopShare | dashboard.py:150 | the share chart has at most 10 slices, and none exactly when there are no paid rows |
| Counterparties.TopShareCorrect | dashboard.py:150 | the share chart has min(10, #counterparties) slices, one per distinct counterparty that has paid rows, each with that counterparty's summed totals, and no counterparty left out paid more than one shown |
| Counterparties.PendingBreakdown | dashboard.py:156 | the breakdown is a reordering of the per-(counterparty, currency) groups, and is empty exactly when there are no pending rows |
| Counterparties.PendingBreakdownCorrect | dashboard.py:156 | one line per (counterparty, currency) with that pair's count and original-currency sum, in non-increasing sum; counts add up to the pending rows and sums to their foreign amount |
| RmDetail.InsertSorted | dashboard.py:108 | adding an RM to a strictly sorted list keeps it strictly sorted and adds exactly that RM |
| RmDetail.SortedKeys | dashboard.py:108 | `sorted(unique())` of a text column is strictly sorted and holds exactly the column's values; it is also the key order of `groupby` |
| RmDetail.RmOptions | dashboard.py:108 | the options are strictly sorted (hence unique) and are exactly the RMs of the rows |
| RmDetail.NatToString | dashboard.py:111 | `str(n)` writes digits only, without a leading zero unless n is 0 |
| RmDetail.NatToStringRoundTrip | dashboard.py:110-111 | `int(str(n)) == n` |
| RmDetail.CanonicalRoundTrip | dashboard.py:110-111 | `str(int(s)) == s` for digit strings without a leading zero |
| RmDetail.DigitValues | dashboard.py:110 | the numeric RMs are exactly the values of the all-digit options; the list is empty exactly when no option is all digits |
| RmDetail.MaxOf | dashboard.py:111 | `max` returns an element no smaller than any other |
| RmDetail.BestDigitRm | dashboard.py:110-111 | an option is found exactly when some option is all digits, and it carries the largest number (ties: first in sorted order) |
| RmDetail.DefaultRmAsWritten | dashboard.py:110-111 | the code's default exists exactly when there are rows |
| RmDetail.FirstOptionLeast | dashboard.py:108-111 | the first option of the sorted list is at or before every RM of the rows |
| RmDetail.DefaultRmAsWrittenPicks | dashboard.py:110-111 | with some all-digit RM, the code's default is the canonical text of a number that is the largest all-digit RM's value; with none, it is the first (smallest) option |
| RmDetail.DefaultRm | dashboard.py:108-111 | the default exists exactly when there are rows and is always one of the options; with some all-digit RM it is an all-digit option with the largest number, namely `str(max)` itself whenever that is an option, else the largest-numbered option in sorted order; with none it is the first (smallest) option |
| RmDetail.DefaultRmAsWrittenWhenValid | dashboard.py:110-112 | the code's default equals the corrected one exactly when there are no rows or the code's default is one of the options |
| RmDetail.DefaultRmAsWrittenLeavesOptions | dashboard.py:111-112 | with the single RM "007" the code's default is "7", which is not an option |
| RmDetail.DefaultRmAsWrittenOnCanonical | dashboard.py:110-111 | when no all-digit RM has a leading zero, the code's default equals the corrected one |
| RmDetail.DetailRows | dashboard.py:113-114 | nothing is shown without a selection; otherwise the rows are the selected part of the paid table followed by that of the pending table |
| RmDetail.DetailRowsExact | dashboard.py:114 | the detail table holds exactly the paid and pending rows whose RM is selected |
| RmDetail.DetailPaidIsSelectedPaid | dashboard.py:116 | the Pago part of the detail table is exactly the selected part of the paid table |
| RmDetail.RmComposition | dashboard.py:119-120 | the chart is empty exactly when no selected row is Pago |
| RmDetail.RmCompositionCorrect | dashboard.py:119-120 | one bar per counterparty of the selected paid rows and no other, listed in `groupby`'s sorted order; its five segments are that counterparty's sums of principal, IOF, IRRF, CIDE and contract fee, which add up to its total, the counterparty's component sum |

## Left out

- Reading the workbook is not modelled, because it is I/O and foreign libraries:
  - opening the file, the openpyxl round trip that sets the sheet password, and `read_excel` with `skiprows=1` (lines 36-48);
  - the file-not-found and missing-sheet branches (lines 39-41, 62-64).
  A `Sheet` value stands for the frame `read_excel` returns.
- The ten-minute `st.cache_data` memoisation is not modelled: it is framework caching with wall-clock expiry.
- All Streamlit and plotly code is not modelled (UI): widgets, metrics, tables, the treemap, chart construction, colours, hover templates and heights.
- `pd.to_numeric(errors='coerce')` and `pd.to_datetime(dayfirst=True, errors='coerce')` are not modelled. They are library parsers; their outcome is part of each `Cell`.
- A filled text cell's `shown` field is taken to be the cell's `str()` text. How pandas renders a numeric RM (such as `123.0`) is not modelled.
- A non-text counterparty or currency, which the code keeps without `astype(str)`, is not modelled either.
- Loader.Resolve: two headers renamed onto one canonical column are always a load failure. pandas fails only once a numeric or date column is doubled.
- `format_currency` and `format_foreign_currency` are not modelled: they depend on float formatting.
- The percentage column `valor / total * 100` is not modelled: it is float division and is NaN when a total is 0.
- The date picker's bounds (line 173) are not modelled: they are a UI default.
- The date range's ends are taken as timestamps already built by `pd.to_datetime`, which makes them midnight of each day.
- The RM page's formatted table (lines 130-135) is a column projection plus currency formatting. Its rows are `RmDetail.DetailRows`.
- Grouping.Rank: among equal sums the ranking and the pending breakdown put the smaller key first. `sort_values` uses an unstable sort, so the code leaves that order unspecified; the model fixes one valid order.
- RmDetail.IsDigits: `str.isdigit` also accepts non-ASCII digits, on which `int` may fail. Only ASCII digits are modelled.
- Floating-point rounding of sums is not modelled. With floats, near-equal sums may compare, and so break ties, differently.

## Findings

| source | as written | input that shows it | evidently intended | confidence | as-written member | corrected member |
|---|---|---|---|---|---|---|
| dashboard.py:111 | the default RM is `str(max(numeric_rms))`, rebuilt from the integer, so leading zeros are lost | a single row whose RM is "007": the options are ["007"] and the default is "7", which Streamlit's multiselect rejects because it is not an option | default to `str(max(numeric_rms))` when that is an option, otherwise to the all-digit option with that largest number, which always is one | not executed; follows from the code and the multiselect contract | RmDetail.DefaultRmAsWrittenLeavesOptions | RmDetail.DefaultRm |
