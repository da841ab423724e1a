# Finance dashboard core, modelled in Dafny

This project models the browser-side core of a small finance dashboard. The dashboard loads two CSV files: sales and expense transactions. It works in five steps:

- It cleans the parsed rows into records.
- It filters the records by customer, date range, payment status and payment method.
- It computes the summary figures (revenue, expenses, profit, margin and month-over-month changes).
- It aggregates the records into five charts and shows them in two sorted, paginated tables.
- It exports the filtered records and the summary figures as a CSV report.

Each source file is one module:

| module | source | form |
|---|---|---|
| `DataProcessing` (data_processor.dfy) | src/utils/dataProcessor.js | functions for cleaning, filtering and summing; class `DataProcessor` for the stored lists and period totals |
| `TableManagement` (table_manager.dfy) | src/utils/tableManager.js | class `TableManager` for page, page size and sort state per table; `RenderPage` for a sorted copy and one page of it |
| `Sorting` (sorting.dfy) | the comparator in src/utils/tableManager.js | the comparator, plus an in-place insertion sort on an array standing for `Array.prototype.sort` |
| `ChartManagement` (chart_manager.dfy) | src/utils/chartManager.js | a `forEach` accumulation into an insertion-ordered dictionary, as a loop; top-N selection; class `ChartManager` holding the per-canvas charts |
| `FilterPanel` (filters.dfy) | src/components/filters.js | class `Filters` holding the applied criteria; the criteria count and the summary text |
| `SummaryComponent` (summary.dfy) | src/components/summary.js | period change, change indicator, summary statistics |
| `ExportReport` (export_manager.dfy) | src/utils/exportManager.js | the exported selection and the report text, section by section, built by loops |

Some runtime behaviour is shared between modules:

- `Text` covers the JavaScript string primitives the code relies on: `trim`, `toLowerCase`, `includes`, `replace(/,/g, '')`, `join`, and integer rendering.
- `Dates` covers dates: calendar fields, an order key standing for `getTime()`, the previous month, and the end of a day.
- `Seqs` covers filtering and summing of sequences (`Array.prototype.filter` and `reduce`).

Parsers and formatters are passed in as parameters: `new Date(text)`, `parseFloat`, `parseInt`, `toLocaleDateString`, currency formatting and `toFixed`. The clock is also a parameter, the `now` of `calculatePreviousPeriodData`.

## Model

| member | source | states |
|---|---|---|
| Seqs.FilterMultiset | src/utils/dataProcessor.js:178-186 | `filter` keeps every copy of an element that passes the test and no copy of one that fails it |
| Text.Lower | src/utils/dataProcessor.js:180 | lower-casing keeps the length and maps every character, position by position, to its lower-case form |
| Text.LowerIdempotent | src/components/filters.js:45 | lower-casing a criterion that is already lower-cased (filterData lower-cases the stored criterion again) changes nothing |
| Text.IncludesIff | src/utils/dataProcessor.js:180 | `includes` holds exactly when the search text occurs at some position of the customer name |
| Text.EmptyIsIncluded | src/utils/exportManager.js:44 | the empty search text is included in every name, so an empty customer criterion keeps every sale |
| Text.TrimStart | src/utils/dataProcessor.js:21 | the result is a suffix of the input that does not start with whitespace; only whitespace was removed |
| Text.TrimEnd | src/utils/dataProcessor.js:21 | the result is a prefix of the input that does not end with whitespace; only whitespace was removed |
| Text.Trim | src/utils/dataProcessor.js:21 | the result is a contiguous slice of the input with only whitespace before and after it, and it has no whitespace at either end |
| Text.RemoveAll | src/utils/dataProcessor.js:26 | no comma remains; the result keeps every other character in its order (a subsequence of the input) and as often as before |
| Text.JoinStartsWithFirst | src/components/filters.js:136 | joining a non-empty list of parts gives a text that begins with the first part |
| Text.NatToString | src/utils/tableManager.js:61 | the decimal text of a count: digits only, its decimal value is the count, and it starts with "0" only when it is exactly "0" |
| Dates.EarlierDayIsEarlier | src/utils/dataProcessor.js:181 | a date on an earlier calendar day compares as earlier |
| Dates.PreviousMonth | src/utils/dataProcessor.js:90-91 | the previous month is a valid month (0..11) exactly one month before on the month line, so January goes to December of the year before |
| Dates.EndOfDay | src/components/filters.js:61-63 | `setHours(23, 59, 59, 999)` keeps the calendar day and never moves the date earlier |
| Dates.EndOfDayBound | src/components/filters.js:61-63 | comparing with the end of day `d` keeps exactly the dates on day `d` or before it |
| DataProcessing.ParenPrefixIsLeastMatch | src/utils/dataProcessor.js:20 | the computed capture is the lazy regular expression's answer: none when no capture length matches, otherwise the shortest matching one |
| DataProcessing.CustomerName | src/utils/dataProcessor.js:20-21 | the name is "N/A" for a missing customer, the raw text when the pattern fails, and otherwise the trimmed text before the first parenthesis, which holds no `(` |
| DataProcessing.CleanSaleRow | src/utils/dataProcessor.js:19-42 | a row is kept exactly when its date parses and its amount is positive. A kept row has the parsed date and amount, the customer name, the status and method as given or "N/A" when empty, and the parsed tray count, or 0 when it does not parse |
| DataProcessing.CleanTransactionRow | src/utils/dataProcessor.js:51-72 | a row is kept exactly when its date parses and its amount is positive. A kept row has the parsed date and amount, the category or "Uncategorized" when it is empty, and the name, type, method and status as given, or "N/A" for each one that is empty |
| DataProcessing.CleanSalesData | src/utils/dataProcessor.js:18-43 | the cleaned list is no longer than the rows. Every kept row's record is in it, and every record in it is the cleaned record of some row, so it has a positive amount and a date from a non-empty Date cell |
| DataProcessing.CleanTransactionsData | src/utils/dataProcessor.js:50-73 | the cleaned list is no longer than the rows. Every kept row's record is in it, and every record in it is the cleaned record of some row, so it has a positive amount and a date from a non-empty Date cell |
| DataProcessing.CleanSalesPreservesOrder | src/utils/dataProcessor.js:18-43 | cleaning works row by row: cleaning a concatenation gives the concatenation of the cleaned parts, in order |
| DataProcessing.CleanTransactionsPreservesOrder | src/utils/dataProcessor.js:50-73 | cleaning works row by row: cleaning a concatenation gives the concatenation of the cleaned parts, in order |
| DataProcessing.FilterRecords | src/utils/dataProcessor.js:175-196 | each filtered list is a subsequence of its input that keeps every copy of each record meeting every criterion and no copy of any other record |
| DataProcessing.NoFiltersKeepEverything | src/utils/dataProcessor.js:178-193 | with every criterion empty, both lists come back unchanged |
| DataProcessing.TransactionsIgnoreCustomer | src/utils/dataProcessor.js:187-193 | the customer criterion never changes which transactions are selected |
| DataProcessing.PreviousMonthSelectsMonthBefore | src/utils/dataProcessor.js:90-98 | filtering by the previous month and year, with the January wrap, selects exactly the records dated one month before `now` |
| DataProcessing.DataProcessor.constructor | src/utils/dataProcessor.js:7-11 | both lists start empty and the period totals start unset |
| DataProcessing.DataProcessor.ProcessFile | src/utils/dataProcessor.js:119-129 | the 'sales' kind replaces the sales list with the cleaned rows and any other kind replaces the transactions list; the other list is untouched. The returned count is the new list's length |
| DataProcessing.DataProcessor.CalculatePreviousPeriodData | src/utils/dataProcessor.js:78-106 | the stored totals are the revenue and expenses of the month of `now` and of the month before it |
| DataProcessing.DataProcessor.GetSummary | src/utils/dataProcessor.js:147-168 | revenue and expenses are the sums of the lists, and profit is their difference. The margin is profit over revenue in percent, or 0 when revenue is not positive. The changes are NaN while the period totals are unset, otherwise current minus previous. The profit change is the revenue change minus the expenses change |
| DataProcessing.DataProcessor.FilterData | src/utils/dataProcessor.js:175-196 | the stored lists, filtered as in `FilterRecords`: every copy of each matching record, in stored order. Everything is kept when no criterion is set |
| DataProcessing.MarginAtMostHundred | src/utils/dataProcessor.js:151 | with non-negative expenses the profit margin never exceeds 100% |
| Sorting.Compare | src/utils/tableManager.js:32-34 | the comparator is negative exactly when the first value goes first in the chosen direction, and positive exactly when the second does |
| Sorting.SortedComparatorNonPositive | src/utils/tableManager.js:22-35 | in a sorted list the comparator never returns a positive value for an earlier/later pair |
| Sorting.InsertionSort | src/utils/tableManager.js:22-35 | the array ends sorted by the comparator, is a permutation of its old contents, and is stable: records with equal keys keep their relative order |
| Sorting.SortedCopy | src/utils/tableManager.js:21-35 | the sorted copy is sorted by the comparator, is a permutation of the records, and keeps records with equal keys in their input order |
| Sorting.TieIffEqualKey | src/utils/tableManager.js:32-34 | for keys of one kind the comparator returns 0 exactly for equal keys, so the ties that stability protects are the runs of equal keys |
| Sorting.SwapKeepsTies | src/utils/tableManager.js:22-35 | exchanging two neighbours with different keys keeps every run of equal keys in order, which is the step that makes the insertion sort stable |
| TableManagement.SaleKeyUniform | src/utils/tableManager.js:23-31 | every sale yields a sort key of the same kind for a given column, so the sale keys are totally ordered |
| TableManagement.TransactionKeyUniform | src/utils/tableManager.js:74-82 | every transaction yields a sort key of the same kind for a given column |
| TableManagement.PageWindow | src/utils/tableManager.js:38-39 | "all" shows everything. Otherwise the window starts at `(page-1)*perPage`, holds at most `perPage` records, and is cut at the end of the data |
| TableManagement.Slice | src/utils/tableManager.js:40 | the page is the records between the window bounds, and is empty when the window lies past the data |
| TableManagement.RenderPage | src/utils/tableManager.js:20-65 | the sorted copy is a stable sorted permutation and the rows are its current page, at most `perPage` of them. The label is the window's "start-end of total" text, and "0" exactly for no data. Prev is disabled exactly on page 1, and Next exactly when the Next handler would not move |
| TableManagement.NextButtonMatchesHandler | src/utils/tableManager.js:141-147 | the Next button's disabled test (`end >= total`) agrees with the handler's test (`page < ceil(total/perPage)`) |
| TableManagement.NavigationKeepsPageInRange | src/utils/tableManager.js:134-147 | Prev and Next, when they move, keep a page that is in range between 1 and the last page |
| TableManagement.TableManager.constructor | src/utils/tableManager.js:7-14 | both tables start on page 1, with 25 records per page, sorted by date descending |
| TableManagement.TableManager.PopulateSalesTable | src/utils/tableManager.js:20-65 | the sales view for the sales sort state and page, as in `RenderPage`: a stable sorted copy, its current page, the page label and the button states |
| TableManagement.TableManager.PopulateTransactionsTable | src/utils/tableManager.js:71-114 | the transactions view for the transactions sort state and page, as in `RenderPage`: a stable sorted copy, its current page, the page label and the button states |
| TableManagement.TableManager.SetRecordsPerPage | src/utils/tableManager.js:121-131 | the chosen table gets the new page size and goes back to page 1; the other table and both sort states are unchanged |
| TableManagement.TableManager.PrevPage | src/utils/tableManager.js:134-139 | the page goes down by one exactly when it is above 1; nothing else changes |
| TableManagement.TableManager.NextPage | src/utils/tableManager.js:141-147 | the page goes up by one exactly when it is below `ceil(total/perPage)`; nothing else changes |
| TableManagement.TableManager.ClickSortHeader | src/utils/tableManager.js:165-190 | the same column flips the direction and a new column sorts ascending. The clicked table goes back to page 1 and the other table is untouched |
| TableManagement.TableManager.ResetPagination | src/utils/tableManager.js:233-236 | both tables go back to page 1; page sizes and sort states are unchanged |
| TableManagement.ToggledSort | src/utils/tableManager.js:171-176 | after a click the sort key is the clicked column. The direction flips for the same column and is ascending for a new one |
| TableManagement.ToggleTwiceRestores | src/utils/tableManager.js:171-176 | clicking the same header twice restores the sort state |
| ChartManagement.GroupKeys | src/utils/chartManager.js:139-149 | the dictionary's keys, in first-appearance order, without repeats |
| ChartManagement.GroupKeysMembers | src/utils/chartManager.js:139-149 | a key is in the dictionary exactly when some record carries it |
| ChartManagement.GroupTotalIsFilteredSum | src/utils/chartManager.js:145-148 | a key's total is the sum of the amounts of exactly the records with that key |
| ChartManagement.AbsentGroupIsZero | src/utils/chartManager.js:100-102 | a month that no record carries gets the total 0, which is the `|| 0` default |
| ChartManagement.GroupTotalsConserve | src/utils/chartManager.js:184-187 | the group totals add up to the whole amount of the records that have a key, so no amount is lost or counted twice |
| ChartManagement.AddRecord | src/utils/chartManager.js:140-148 | one `forEach` step, including the reset of a missing or zero entry, keeps the dictionary equal to the grouping of the records seen so far |
| ChartManagement.GroupStep | src/utils/chartManager.js:145-148 | one more record adds its key at the end if the key is new, and adds its amount to that key's total only |
| ChartManagement.GroupTotals | src/utils/chartManager.js:139-149 | after the loop, the keys are the group keys in insertion order and each entry is that group's total |
| ChartManagement.TopEntries | src/utils/chartManager.js:151-153 | the result has `min(n, count)` entries taken from the input, in non-increasing order of value, without repeats when the input has none. Every entry left out is at most every entry kept, and among equal values the kept entries are the first ones of the input, in input order |
| ChartManagement.SortedPrefix | src/utils/chartManager.js:151-153 | a prefix of a stable sort of distinct entries is distinct, and for each value it holds the first entries of the input with that value |
| ChartManagement.LeftOutEntry | src/utils/chartManager.js:151-153 | a group missing from the top list means there were more than `n` groups, and its total is at most every shown total |
| ChartManagement.TopGroups | src/utils/chartManager.js:138-153 | the ranked chart of the `n` largest groups: exactly `min(n, groups)` groups, each once with its true total, in non-increasing order. A group is left out only when there were more than `n` groups, and its total is at most every shown total. Groups with equal totals are shown in order of first appearance |
| ChartManagement.TotalOfGroupValues | src/utils/chartManager.js:184-187 | a column of group totals adds up to the groups' combined total |
| ChartManagement.SortedMonths | src/utils/chartManager.js:99 | the month labels are the same months, in strictly increasing calendar order |
| ChartManagement.MergeKeys | src/utils/chartManager.js:73-97 | the months of sales then of expenses, in insertion order without repeats, with the sales months first |
| ChartManagement.CalendarLabels | src/utils/chartManager.js:99 | the labels are exactly the sales and expense months, in strictly increasing order |
| ChartManagement.MonthKeys | src/utils/chartManager.js:75-97 | the label months are exactly the months in which some sale or expense is dated |
| ChartManagement.SaleMonths | src/utils/chartManager.js:201-211 | a month is a sales month key exactly when some sale is dated in it |
| ChartManagement.TransactionMonths | src/utils/chartManager.js:87-97 | a month is an expense month key exactly when some expense is dated in it |
| ChartManagement.TotalsOrZero | src/utils/chartManager.js:100-101 | one value per label: that month's total, or 0 for a month without records |
| ChartManagement.FinancialChartData | src/utils/chartManager.js:72-102 | the labels are every month with a sale or an expense, in calendar order. For each month: revenue and expenses are that month's totals (0 when absent) and profit is their difference |
| ChartManagement.IncreasingUnique | src/utils/chartManager.js:99 | two calendar-ordered label lists that name the same months are the same list |
| ChartManagement.FinancialSeriesUnique | src/utils/chartManager.js:72-102 | the records determine the financial series completely: any two series meeting its description are equal |
| ChartManagement.TrendsChartData | src/utils/chartManager.js:199-214 | the labels are every month with a sale, in calendar order, each with that month's revenue |
| ChartManagement.TrendSeriesUnique | src/utils/chartManager.js:199-214 | the sales determine the trends series completely |
| ChartManagement.CustomerChartData | src/utils/chartManager.js:138-153 | exactly `min(10, customers)` named customers, each once with their true total, largest first. A customer left out is outranked by every one shown, and customers with equal totals are shown in order of first appearance |
| ChartManagement.ExpenseCategoriesChartData | src/utils/chartManager.js:233-248 | exactly `min(8, categories)` named categories, each once with its true total, largest first. A category left out is outranked by every one shown, and categories with equal totals are shown in order of first appearance |
| ChartManagement.PaymentStatusChartData | src/utils/chartManager.js:171-187 | the labels are the distinct non-empty statuses of the sales in order of first appearance, each with that status's total. The slices add up to the total of the sales with a status |
| ChartManagement.ChartManager.constructor | src/utils/chartManager.js:7-9 | no charts at first |
| ChartManagement.ChartManager.CreateChart | src/utils/chartManager.js:17-24 | the canvas's chart is replaced by (or set to) the new one, and it reports whether an old one existed; other canvases are untouched |
| ChartManagement.ChartManager.DestroyAllCharts | src/utils/chartManager.js:278-285 | no charts remain |
| ChartManagement.ChartManager.UpdateFinancialChart | src/utils/chartManager.js:72-132 | only the financial canvas changes. It gets a bar chart of the records' financial series: every month with a sale or an expense in calendar order, with its revenue, expenses and profit |
| ChartManagement.ChartManager.UpdateCustomerChart | src/utils/chartManager.js:138-165 | only the customer canvas changes. It gets a doughnut of the ranked top ten customers with their totals |
| ChartManagement.ChartManager.UpdatePaymentStatusChart | src/utils/chartManager.js:171-193 | only the status canvas changes. It gets a pie with every status in order of first appearance and its total; the values add up to the sales total |
| ChartManagement.ChartManager.UpdateTrendsChart | src/utils/chartManager.js:199-227 | only the trends canvas changes. It gets a line of every month with a sale, in calendar order, with its revenue |
| ChartManagement.ChartManager.UpdateExpenseCategoriesChart | src/utils/chartManager.js:233-260 | only the expense canvas changes. It gets bars for the ranked top eight categories with their totals |
| ChartManagement.ChartManager.UpdateAllCharts | src/utils/chartManager.js:267-273 | all five canvases hold their chart, of the right kind and shape, each showing the content its own update gives for the same records |
| FilterPanel.ActiveFieldsMeaning | src/components/filters.js:177-188 | the active fields are exactly the non-empty criteria, in field order, at most five. There are none exactly when no criterion is set |
| FilterPanel.PartsFollowActiveFields | src/components/filters.js:116-134 | there is one summary part per active criterion, in field order, each labelled for its field |
| FilterPanel.JoinedSummaryIsNotNoFilters | src/components/filters.js:116-136 | with any criterion set, the parts are non-empty and their join never reads "No filters applied" |
| FilterPanel.AppliedFilters | src/components/filters.js:43-63 | the stored criteria: the customer text lower-cased, the start date as given, the end date moved to 23:59:59.999 of its day, and status and method as given |
| FilterPanel.DateRangeCheckMeaning | src/components/filters.js:104-110 | a range that passes `validateDateRange` contains its start date. A refused range that starts at midnight selects no date at all |
| FilterPanel.Filters.constructor | src/components/filters.js:7-20 | the panel starts with every criterion empty |
| FilterPanel.Filters.GetActiveFilterCount | src/components/filters.js:177-188 | the count is the number of non-empty criteria: at most 5, and 0 exactly when no criterion is set |
| FilterPanel.Filters.HasActiveFilters | src/components/filters.js:194-196 | true exactly when some criterion is set |
| FilterPanel.Filters.GetFilterSummary | src/components/filters.js:116-137 | the joined parts of the active criteria, or "No filters applied". The latter appears exactly when no criterion is set |
| FilterPanel.Filters.ApplyFilters | src/components/filters.js:56-66 | stores the criteria read from the inputs and returns the stored records that meet them |
| FilterPanel.Filters.ResetFilters | src/components/filters.js:77-85 | after a reset no criterion is active and both stored lists come back whole |
| SummaryComponent.CalculatePeriodChange | src/components/summary.js:129-146 | the change always takes `previous` to `current`. The percentage is the change relative to `previous`, or 100/0 against a zero baseline. "Positive" means growth, or a positive value against a zero baseline |
| SummaryComponent.PercentageSignAgrees | src/components/summary.js:138-144 | against a positive baseline the percentage is non-negative exactly when the change counts as positive |
| SummaryComponent.ChangeIndicator | src/components/summary.js:49-57 | '+' and the positive style exactly for a change of at least 0; '-' otherwise, including for NaN. The magnitude is non-negative, and NaN exactly for NaN |
| SummaryComponent.IndicatorRoundTrip | src/components/summary.js:53-56 | the shown sign and magnitude give back the change |
| SummaryComponent.IndicatorText | src/components/summary.js:53-56 | the indicator text is the sign followed by the formatted magnitude `|change|` (the formatted NaN for NaN); the sign is '+' exactly for a change of at least 0 |
| SummaryComponent.GetSummaryStats | src/components/summary.js:107-121 | the statistics are the data processor's summary figures of the same lists, plus the two list lengths |
| ExportReport.ExportedSales | src/utils/exportManager.js:42-50 | the exported sales are a subsequence of the stored ones holding every copy of each sale meeting the export's criteria and no other sale |
| ExportReport.ExportedTransactions | src/utils/exportManager.js:60-67 | the exported expenses are a subsequence of the stored ones holding every copy of each expense meeting the export's criteria and no other expense |
| ExportReport.ExportAgreesWithFilterData | src/utils/exportManager.js:42-67 | the export selects exactly the records the dashboard's `filterData` selects for the same criteria |
| ExportReport.ExportWithoutFiltersKeepsAll | src/utils/exportManager.js:42-67 | with no criteria, every stored record is exported |
| ExportReport.ExportedSummaryMatchesDashboard | src/utils/exportManager.js:74 | the report's statistics equal the dashboard's summary for the same criteria: revenue and expenses of the filtered lists |
| ExportReport.SaleLinesAppend | src/utils/exportManager.js:52-54 | the lines of two runs of sales are the first run's lines followed by the second's |
| ExportReport.SaleLineBreaks | src/utils/exportManager.js:53 | a sale whose fields hold no line break gives exactly one line |
| ExportReport.TransactionLineBreaks | src/utils/exportManager.js:70 | an expense whose fields hold no line break gives exactly one line |
| ExportReport.OneLinePerSale | src/utils/exportManager.js:52-54 | with single-line fields, the sales section holds exactly one line per exported sale |
| ExportReport.OneLinePerTransaction | src/utils/exportManager.js:69-71 | with single-line fields, the transactions section holds exactly one line per exported expense |
| ExportReport.AppendSaleLines | src/utils/exportManager.js:52-54 | the `forEach` appends the lines of all the sales, in order, to the text so far |
| ExportReport.AppendTransactionLines | src/utils/exportManager.js:69-71 | the `forEach` appends the lines of all the expenses, in order, to the text so far |
| ExportReport.ExportManager.constructor | src/utils/exportManager.js:7-9 | no data processor at first |
| ExportReport.ExportManager.SetDataProcessor | src/utils/exportManager.js:15-17 | the processor is stored |
| ExportReport.ExportManager.ExportData | src/utils/exportManager.js:23-79 | nothing without a data processor. Otherwise the report has five parts in order: the `data:text/csv;charset=utf-8,` prefix, the header with the criteria, the sales section, the expenses section, and the summary statistics of the exported lists |

## Left out

- The DOM is not modelled: reading the inputs, writing cells, labels and classes, and the event wiring (`setupEventListeners`, `setupTableControls`, tab switching). The handlers become methods of the classes that own the state.
- Chart.js rendering and chart options (colours, axes, tooltips) are not modelled. A chart is its kind, labels and data series, and `destroy` is replacing or dropping the map entry.
- Canvas element ids are a datatype of the five canvases the code uses. `createChart` on any other id is not modelled.
- `Papa.parse` and the Promise of `processFile` are not modelled. `ProcessFile` is the completion step on the parsed rows, and the parser's error path is left out.
- Parsing and formatting are parameters: `new Date(text)`, `parseFloat`, `parseInt`, `toLocaleDateString`, `toLocaleString`, `Intl.NumberFormat`, `toFixed`, `toISOString`. An Invalid Date is modelled as an absent date.
- Floating point is not modelled. Amounts are reals, so rounding in the sums is not captured. A NaN amount cannot occur in a cleaned record, because the cleaners reject it. NaN is modelled only for the changes of an unset period total.
- `Lower` lower-cases ASCII letters only. Unicode case mapping is not modelled.
- `Array.prototype.sort` is modelled as an in-place insertion sort. Like the runtime's sort, which the language has required to be stable since ES2019, it is stable: the contracts give a sorted permutation in which records with equal keys keep their input order. Strings compare character by character as Unicode scalar values; JavaScript compares UTF-16 code units, which orders differently only for characters above U+FFFF.
- ChartManagement.AddRecord: the accumulating dictionaries are plain objects, so a key that names an inherited property behaves differently in the source. For "constructor", "toString" or "valueOf" the inherited value is truthy, so there is no reset and `+=` concatenates strings. A "__proto__" key is never stored as an entry. The model treats every key as an ordinary dictionary key.
- Object key order is modelled as insertion order. JavaScript lists integer-like keys first (a customer named "123", say), and that is not modelled.
- Chart month labels are month indices (`year*12 + month`), not the locale text "Jan 2024". Sorting them with `new Date(label)` is modelled as calendar order. Two months that the locale prints identically are not merged.
- Calendar month lengths, time zones and the exact millisecond value of a date are not modelled. A date is its calendar fields plus an order key.
- TableManagement.TableManager.SetRecordsPerPage: the handler reads the selector through `this.salesRecordsPerPage`, a property the class never sets, so as written it fails. The model takes the selected value (a count, or "all" as `Infinity`) as the evidently intended input.
- `populateTables` is not modelled separately. It stores the lists in `window` globals and renders both tables. The Prev/Next handlers take the shown list's length as a parameter instead.
- `applyFilters` also refreshes the summary cards, charts and tables. The model returns the filtered records, and the refresh is the other modules' operations on them.
- Not modelled: `showFilterSummary` (logging), `clearFilter`/`setFilter` (DOM writes followed by `applyFilters`), the `exportData` wrapper in the filter panel, and the `alert` of `validateDateRange`.
- `downloadCSV`, `exportChartAsImage`, `exportAllCharts` and `exportSummaryReport` are not modelled, because they are browser downloads and alerts. `ExportData` returns the report text instead of downloading it, and the generation date is a parameter.
- `formatCurrency`, `updateSummary`, `updateMarginChange`, `showLoading`, `showError`, `updateSummaryWithComparison` and `animateSummaryValues` are not modelled. They only write formatted values to the page and animate them; the arithmetic behind them is in `CalculatePeriodChange`, `ChangeIndicator` and `GetSummaryStats`.
- ExportReport.OneLinePerSale: stated for records whose fields hold no line break. The report quotes the customer but does not escape it, so a field with a line break adds lines.
- ExportReport.OneLinePerTransaction: stated for records whose fields hold no line break, for the same reason.
- The header's rendering of an absent date criterion is a parameter: the constructor's initial criteria hold `''` while applied criteria hold `null`.
- Console warnings for skipped records are not modelled. Skipping itself is: a record without a key is left out of a chart.
