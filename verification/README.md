# Sales analytics dashboard: filter-and-aggregate model

A Dafny model of the two pieces of logic in the sales dashboard project.

1. **The dashboard callback `update_dashboard`.** It filters the sales rows by a date range, a category selection and a region selection. If nothing is left, it shows "Нет данных" in all eight outputs. Otherwise it computes:
   - total revenue, average order value, order count and the top region;
   - the revenue-by-date line, the revenue-by-category pie and the revenue-by-region bars;
   - the month × year seasonality matrix with missing cells set to 0, and the month labels of its rows.
2. **The body of the generator's loop.** Seven random draws become one row: category, product, date, price, quantity, region and customer type. Revenue is `price * quantity`.

Modules, one per file:

- `Ordering`: the key orders pandas sorts groups by. This is Python string order (code points, lexicographic), integer order, and pair order. Each is proved a strict total order.
- `Calendar`: `(year, month, day)` dates and chronological order. It has Python's `toordinal`, and `date + timedelta(days=n)` built from single-day steps. Past 9999-12-31 the result is `None`, where Python raises OverflowError.
- `Sales`: the row record, the revenue total, and the reference sum "revenue of the rows whose key is k".
- `GroupBy`: `groupby(key)['Выручка'].sum()` as a key-sorted list of (key, total) entries, plus `idxmax`.
- `Pivot`: `pivot_table(...).fillna(0)` and the month-label lookup.
- `Dashboard`: the mask, the empty branch, the metrics and the chart data.
- `Generator`: the draws, the record builder and the properties of generated rows.
- `GeneratedMetrics`: what the dashboard's number cards show on generated rows.
- `Scenarios`: two worked inputs with their concrete results.

Revenue is an `int`, because price and quantity are integers. The average is an exact `real`.

## Model

| member | source | states |
|---|---|---|
| `Dashboard.FilterRows` | dashboard.py:104-109 | A row is kept iff start ≤ date ≤ end, its category is selected and its region is selected; each kept row occurs as often as in the input, and no other row occurs |
| `Dashboard.FilterRowsAppend` | dashboard.py:104-109 | Filtering a concatenation is the concatenation of the filtered parts, so kept rows keep their original relative order |
| `Dashboard.UpdateDashboard` | dashboard.py:103-120 | The "Нет данных" branch is taken exactly when no row passes the mask; otherwise the order count is the number of kept rows |
| `Dashboard.EmptySelectionShowsNoData` | dashboard.py:104-115 | With no category selected, no region selected, or a start date after the end date, the filter keeps nothing and the callback takes the no-data branch, whatever the rows |
| `Dashboard.Summarize` | dashboard.py:117-145 | For a non-empty selection, the order count is the number of rows. The date, category and region series and the whole seasonality matrix each add up to the total revenue. The average is the mean of the revenues. The top region belongs to some selected row |
| `Dashboard.Mean` | dashboard.py:118 | The average times the number of orders gives back the total, computed exactly |
| `Dashboard.Metrics` | dashboard.py:117-119 | Shown metrics: order count = number of kept rows, total revenue = their revenue sum, average × order count = total revenue |
| `Dashboard.TopRegion` | dashboard.py:120 | The top region is the region of some kept row, and no region's revenue sum exceeds its sum. Among regions with an equal sum it is the smallest in string order, because the groups are sorted and idxmax takes the first maximum |
| `Dashboard.TopRegionOf` | dashboard.py:120 | The same maximality and tie-break, for any non-empty row list |
| `Dashboard.RevenueByDate` | dashboard.py:123 | The trend series has one entry per distinct kept date and no other. Dates strictly ascend, each value is that date's revenue, and the values add up to the total revenue |
| `Dashboard.Breakdowns` | dashboard.py:128-133 | The category and region series each contain every key present in the kept rows exactly once and no other key. Each value is that key's revenue, and the values add up to the total revenue |
| `GroupBy.GroupSum` | dashboard.py:120-133 | A group-by sum's keys are exactly the keys present in the rows, and its values add up to the rows' total revenue |
| `GroupBy.GroupSumAscending` | dashboard.py:120-133 | A group-by sum lists its keys in strictly ascending order, so no key appears twice |
| `GroupBy.GroupSumTotalFor` | dashboard.py:140-145 | Looking up any key in a group-by sum gives the revenue of the rows with that key, and 0 for a key no row has |
| `GroupBy.GroupSumEntries` | dashboard.py:120-133 | Each entry carries its key's revenue, keys are distinct and exactly those present, and the total is conserved |
| `GroupBy.AddAscending` | dashboard.py:120-133 | Adding one row's revenue to a key-sorted series keeps it key-sorted |
| `GroupBy.AddTotalFor` | dashboard.py:120-133 | Adding one row's revenue raises only that row's key by that revenue |
| `GroupBy.TotalFor` | dashboard.py:145 | A key missing from the index reads as 0 (`fillna(0)`) |
| `GroupBy.FirstMax` | dashboard.py:120 | `idxmax`: the position of a largest value such that every earlier value is strictly smaller |
| `Pivot.SeasonalityAxes` | dashboard.py:137-145 | The matrix rows are exactly the months present and its columns exactly the years present, both strictly ascending. Every month lies in 1..12 |
| `Pivot.SeasonalityCells` | dashboard.py:140-145 | Cell (m, y) is the revenue of the rows dated in month m of year y, and 0 when there are none |
| `Pivot.SeasonalityTotal` | dashboard.py:140-145 | All cells of the matrix together add up to the total revenue |
| `Pivot.PartitionTotal` | dashboard.py:140-145 | Summing the groups of a list of distinct keys that covers every row gives the total revenue |
| `Pivot.Seasonality` | dashboard.py:140-145 | The matrix has one row per month and one column per year |
| `Pivot.MonthLabels` | dashboard.py:147-153 | `month_names[i - 1]` stays within the 12 names for every matrix row, and gives one label per row |
| `Ordering.StrLtIsStrictTotal` | dashboard.py:120 | Python string order, which sorts the region and category groups, is irreflexive, transitive and total |
| `Calendar.OrdinalOrder` | dashboard.py:105-106 | One date is before another exactly when its ordinal is smaller, and two dates are equal exactly when their ordinals are equal |
| `Calendar.NextDay` | generate_data.py:30 | The next calendar day has the next ordinal |
| `Calendar.AddDays` | generate_data.py:30 | `d + timedelta(days=n)` is a date exactly when the ordinal d + n is within the calendar, and then its ordinal is that of d plus n |
| `Generator.SpanIs730` | generate_data.py:11-12 | `(end_date - start_date).days` is 730 |
| `Generator.EveryCategoryHasProducts` | generate_data.py:15-22 | Each of the five categories has its own list of five products |
| `Generator.MakeRecord` | generate_data.py:28-45 | A generated row: revenue = price × quantity, price in [500, 100000], quantity in [1, 10], and the date is the start date plus the drawn offset, so it falls in 2023-01-01..2024-12-31. The category is one of the five, the product comes from that category's own list, the region is one of the five, and the customer type is 'Новый' or 'Постоянный' |
| `Generator.Generate` | generate_data.py:27-45 | One well-formed row per loop iteration, in iteration order |
| `Generator.RevenueBounds` | generate_data.py:31-42 | A generated row's revenue lies in [500, 1000000] |
| `GeneratedMetrics.GeneratedDataMetrics` | generate_data.py:31-42 | On generated rows, any selection that shows data has total revenue ≥ 500 × orders, hence positive, and an average order of at least 500 |
| `Scenarios.TwoRows` | dashboard.py:104-120 | North 100 and South 50 over two selected days give total 150, 2 orders, average 75 and top region North |
| `Scenarios.TiedRegions` | dashboard.py:120 | When South and North earn the same, the top region is North, with either row first |

## Behaviour notes

- **Ties for the top region.** `groupby('Регион')` sorts the region keys in Python string order, and `idxmax` returns the first maximum (dashboard.py:120). So on a tie the smallest key in code-point order wins. `Dashboard.TopRegion` proves exactly that.
- **Selections are lists.** The category and region dropdown values are lists tested with `isin` (dashboard.py:107-108). Only membership matters, which is what `Keeps` states.
- **Empty result.** When no row passes the mask, the callback puts "Нет данных" in all four cards and an empty figure titled "Нет данных" in all four charts (dashboard.py:111-115). `View.NoData` stands for that whole branch.

## Left out

- Dash app, layout, style dictionaries and callback wiring (dashboard.py:20-102, 187-190): user-interface plumbing.
- Plotly figures (line, pie, bar, heatmap): rendering. The model produces the grouped data the figures are drawn from.
- Card text formatting `f"{...:,.0f} ₽"`: floating-point rounding and presentation.
- CSV reading and writing, UTF-8-BOM encoding, the file-exists check, `exit(1)` and prints (dashboard.py:9-18; generate_data.py:7, 47-57): file I/O.
- The `random` module and the 10,000-iteration driver. Each draw is a `Draw` field, constrained by `Possible` to the values `random` can return. `Generate` takes any number of iterations.
- Parsing of the CSV's and the date picker's date strings (dashboard.py:17, 105-106): dates arrive already parsed as calendar dates. Unparsable dates and missing fields are left out with the parsing.
- Dashboard.Mean: exact `real` division instead of the float `.mean()`, so rounding is not modelled.
- Integer width: pandas sums revenue in int64 and the filled pivot (dashboard.py:140-145) is float64; the model's sums and `Table.cells` are unbounded `int`. Sums of generated data (at most 10,000 × 1,000,000 = 10^10) are exact in both.
- `filtered_df` gets two added columns before the pivot (dashboard.py:137-138). In the model, `MonthOf` and `YearOf` read the date directly instead.
