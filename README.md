# Sales analytics dashboard: filter and chart data

This project models the data pipeline of a client-side sales dashboard and
proves properties of it in Dafny. The dashboard holds a list of sales records
(`date`, `category`, `region`, `sales`). It keeps the records whose date lies
in a selected range and whose category matches the selected one, where the
selector value `"All"` means any category. That one filtered list then feeds
three charts:

- the line chart, with one point per record, in input order;
- the bar chart, with total sales per category;
- the pie chart, with total sales per region.

The two grouped charts run the same computation on different keys. Their
labels are the distinct keys, in the order in which each first occurs. A
JavaScript `Set` built from the mapped keys produces that order. Each total
is the sum of `sales` over the records carrying that label.

Modules, one per source component plus two shared ones:

- `Sales` (`sales.dfy`): the record, the parsed date, the chart data shape,
  and the sum of sales.
- `Arrays` (`arrays.dfy`): the JavaScript operations the components are
  written with, each defined once. These are `filter` (`Select`), `map`
  (`Map`), the spread of a `Set` (`Dedup`) and a numeric sum (`Sum`).
- `App` (`app.dfy`): the range/category filter, and the dashboard that
  passes the filtered records to all three charts.
- `Grouping` (`group_sum.dfy`): the shared group-and-sum, `GroupSum(records, key)`,
  with `Key = Category | Region`.
- `BarChart`, `PieChart`, `LineChart`: the three chart components.

Dates are modelled as luxon leaves them after parsing: either a valid day,
numbered so that integer order is day order, or an invalid DateTime. Luxon
compares DateTimes through their epoch value, and an invalid one has none,
so every comparison with it is false. The model therefore drops a record
whose date is invalid. It also keeps nothing when either end of the range
is invalid, which is what happens when a date input is cleared.

The filter raises no error for a record date that luxon cannot parse, nor
for a range whose start lies after its end. Such records are silently
dropped, and an inverted range gives an empty result. The model does the
same. `App.Keep`, `App.EmptyWhenStartAfterEnd`, `App.EmptyWhenBoundInvalid`
and `App.InvalidRecordDateDropped` state that behaviour.

## Model

| member | source | states |
|---|---|---|
| `App.FilteredSalesData` | src/App.tsx:16-24 | A record is in the result iff it is in the input, its date lies between the start and the end of the range inclusive (all three dates valid), and the selected category is "All" or equals the record's. A kept record keeps its number of occurrences, a dropped one has none, and the result is no longer than the input. |
| `App.Keep` | src/App.tsx:17-23 | The predicate on one record. A kept record has a valid date, lies between the start and the end of the range, and is of the selected category unless "All" is selected. Both ends of the range are valid and it is not inverted. A matching record dated at either end of a valid range is kept. With "All" selected, only the date range decides. |
| `App.FilterKeepsOrder` | src/App.tsx:16 | The filtered records are a subsequence of the input: relative order is kept. |
| `App.BoundsInclusive` | src/App.tsx:18-20 | A matching record dated exactly at the start or exactly at the end of a valid range is kept. |
| `App.EmptyWhenStartAfterEnd` | src/App.tsx:18-20 | A valid range whose start is after its end keeps no record, and no error is raised. |
| `App.EmptyWhenBoundInvalid` | src/App.tsx:17-20 | If either end of the range is an invalid DateTime, no record is kept. |
| `App.InvalidRecordDateDropped` | src/App.tsx:17-20 | A record whose own date is invalid is never kept. |
| `App.AllIgnoresCategory` | src/App.tsx:21-22 | With "All" selected, a record is kept iff it is in the input and in the date range. Filtering that result by a category gives the same list as filtering the input by it directly. |
| `App.FilterIdempotent` | src/App.tsx:16-24 | Filtering the filtered records again with the same range and category returns them unchanged. |
| `App.NoRecordsNoneKept` | src/App.tsx:16 | An empty record list filters to an empty list. |
| `App.RenderDashboard` | src/App.tsx:67-77 | The three charts are given the same filtered records. Point i of the line is kept record i: its label is that record's formatted date and its value that record's sales. The bar labels are the distinct categories of the kept records, and the pie labels their distinct regions, each in order of first appearance. Value i is the sales of exactly the kept records carrying label i. The line, bar and pie values each add up to the total sales of the kept records. |
| `App.EmptyDashboard` | src/App.tsx:16-77 | With no records, all three charts are empty, whatever the selection. |
| `App.JanuaryAllCategoriesFilter` | src/App.tsx:16-24 | January 2024 with "All", on a January and a February record, keeps only the January record. |
| `App.JanuaryAllCategoriesCharts` | src/App.tsx:69-75 | For that selection the bar chart is Electronics: 100, the pie chart is North: 100, and the line is the single value 100. |
| `App.BothMonthsClothing` | src/App.tsx:16-24 | A range covering both records with "Clothing" selected keeps only the February record, and the bar chart is Clothing: 50. |
| `Arrays.Select` | src/App.tsx:16 | Array filtering: an element is in the result iff it is in the input and satisfies the predicate. Multiplicities are kept for satisfying elements and are zero otherwise. |
| `Arrays.SelectIsSubsequence` | src/App.tsx:16 | A filtered array is a subsequence of its input. |
| `Arrays.SelectNarrow` | src/App.tsx:16-24 | Filtering by p and then by a stricter q equals filtering by q alone. Idempotence is the case q = p. |
| `Arrays.Map` | src/components/LineChart.tsx:26-29 | Array mapping: same length, and element i of the result is f applied to element i of the input. |
| `Arrays.Dedup` | src/components/BarChart.tsx:23 | Spreading a Set built from a list gives a list with no duplicates. Its elements are exactly those of the input, and it is no longer than the input. |
| `Arrays.DedupOrder` | src/components/BarChart.tsx:23 | That list is in order of first appearance in the input. |
| `Arrays.DedupUnique` | src/components/BarChart.tsx:23 | Any list with no duplicates, with the same elements, in first-appearance order, equals the spread Set. So the three properties characterise it completely. |
| `Grouping.WithKey` | src/components/BarChart.tsx:26 | Filtering on a key keeps exactly the records carrying that key, each as often as in the input. |
| `Grouping.KeysOf` | src/components/BarChart.tsx:23 | Mapping records to their keys gives one key per record, in record order. A string is among the keys iff some record carries it. |
| `Grouping.Reduce` | src/components/BarChart.tsx:27 | The left fold of `sum + item.sales` from a seed equals the seed plus the total sales of the records. |
| `Grouping.KeyTotal` | src/components/BarChart.tsx:25-27 | The total of one key, filtered and then reduced from 0, is the total sales of exactly the records carrying that key. |
| `Grouping.GroupSum` | src/components/BarChart.tsx:23-28 | The labels have no duplicates. A string is a label iff some record carries it as its key, so an absent key gets no zero entry. Labels are in first-appearance order. There is one total per label, and total i is the sales of exactly the records whose key is label i. The totals add up to the total sales of the input. |
| `Grouping.TotalsAddUp` | src/components/BarChart.tsx:23-28 | The totals of the distinct keys add up to the total sales of the records. |
| `Grouping.LabelsDetermined` | src/components/BarChart.tsx:23 | Any listing with those three properties is the label list. |
| `Grouping.ChartDetermined` | src/components/BarChart.tsx:23-28 | Any chart with distinct labels that are exactly the occurring keys in first-appearance order, and with the total of label i as value i, equals the grouped chart. |
| `Grouping.SumOfTotalsCovers` | src/components/BarChart.tsx:24-28 | Summing the per-key totals over any duplicate-free key list that covers every record's key gives the total sales. |
| `Grouping.SingleRecord` | src/components/BarChart.tsx:23-28 | A single record forms one group: its key, with its sales. |
| `BarChart.Categories` | src/components/BarChart.tsx:23 | `categories` has no duplicates. It contains a string iff some record has that category. It lists the categories in the order of their first occurrence. |
| `BarChart.CategorySales` | src/components/BarChart.tsx:24-28 | `categorySales` is as long as `categories`. Entry i is the sum of sales over exactly the records of category i. The entries add up to the total sales of all records. |
| `BarChart.ChartData` | src/components/BarChart.tsx:30-41 | The chart pairs label i with value i, and value i is the sales of exactly the records of category i. The labels have no duplicates, are in order of first appearance, and are exactly the categories that occur. The values add up to the total sales. |
| `BarChart.NoRecordsNoBars` | src/components/BarChart.tsx:23-28 | No records give empty `categories` and `categorySales`. |
| `PieChart.Regions` | src/components/PieChart.tsx:8 | `regions` has no duplicates. It contains a string iff some record has that region. It lists the regions in the order of their first occurrence. |
| `PieChart.RegionSales` | src/components/PieChart.tsx:9-13 | `regionSales` is as long as `regions`. Entry i is the sum of sales over exactly the records of region i. The entries add up to the total sales of all records. |
| `PieChart.ChartData` | src/components/PieChart.tsx:15-34 | The chart pairs label i with value i, and value i is the sales of exactly the records of region i. The labels have no duplicates, are in order of first appearance, and are exactly the regions that occur. The values add up to the total sales. |
| `PieChart.NoRecordsNoSlices` | src/components/PieChart.tsx:8-13 | No records give empty `regions` and `regionSales`. |
| `LineChart.Labels` | src/components/LineChart.tsx:26-28 | One label per record, and label i is the formatted date of record i. |
| `LineChart.SalesPoints` | src/components/LineChart.tsx:29 | One value per record, and value i is the sales of record i. Nothing is sorted, merged or dropped. |
| `LineChart.ChartData` | src/components/LineChart.tsx:26-42 | Point i is record i: its label is the formatted date of that record and its value that record's sales. Labels, values and records are equally many, and the values add up to the total sales. |
| `LineChart.SalesPointsSum` | src/components/LineChart.tsx:29 | The line's values add up to the total sales of the records. |
| `LineChart.SalesPointsConcat` | src/components/LineChart.tsx:26-29 | The points of two record lists joined are the two point lists joined. Records with equal dates are never merged. |
| `LineChart.LabelsFromDatesOnly` | src/components/LineChart.tsx:26-28 | Two record lists with the same dates position by position get the same labels. |
| `LineChart.NoRecordsNoPoints` | src/components/LineChart.tsx:26-29 | No records give empty labels and values. |

## Left out

- React state and UI are left out: `useState`, the two change handlers, the JSX and `React.memo`. They are presentation, and the model takes the selected range and category as parameters.
- The initial selection is left out. It comes from `DateTime.now()` (the last month), which depends on the wall clock.
- Chart.js registration, colours and `options` objects are left out. They are configuration passed to a foreign library.
- Luxon's parsing of ISO strings is not modelled. Dates are taken as already parsed: a day number, or `InvalidDate` for a string luxon rejects.
- Dates are compared by day. Luxon compares milliseconds, which matters only for ISO strings that carry a time of day.
- `LineChart.Labels`: luxon's `toLocaleString(DateTime.DATE_SHORT)` is locale-dependent and foreign. The function takes it as a parameter `format`, so the contract says only that a label is the formatted date of its own record.
- Sales amounts are exact natural numbers. The source sums JavaScript floating-point numbers, so rounding is not modelled. Negative amounts are excluded by the type.
- The records come from the static module `./data/salesData`. That file is not part of this model.
- Records of the untyped `any[]` input that miss a field, or that have a non-string category or region, are not modelled. The record datatype always has all four fields.
- Referential transparency, where equal inputs give equal dashboards, holds for every Dafny function and needs no lemma.

