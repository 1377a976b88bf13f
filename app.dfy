/** The dashboard component: it keeps the records whose date lies in the
    selected range and whose category matches the selected one, and hands
    that single filtered list to the line, bar and pie charts. */
module App {
  import opened Sales
  import opened Arrays
  import LineChart
  import BarChart
  import PieChart
  import Grouping

  /** The category selector's value that lifts the category restriction. */
  const AllCategories: string := "All"

  /** The selected date range, as luxon has parsed its two ends. */
  datatype DateRange = DateRange(startDate: Date, endDate: Date)

  /** `date >= start && date <= end` on luxon DateTimes. Those comparisons
      go through the epoch value, which an invalid DateTime lacks, so any
      comparison involving an invalid date is false. */
  predicate IsWithinDateRange(date: Date, range: DateRange)
  {
    && date.Day? && range.startDate.Day? && range.endDate.Day?
    && range.startDate.ordinal <= date.ordinal
    && date.ordinal <= range.endDate.ordinal
  }

  predicate IsCategoryMatch(r: Record, selectedCategory: string)
  {
    selectedCategory == AllCategories || r.category == selectedCategory
  }

  /** The filter's predicate on one record. A kept record and both ends of
      the range are valid dates and the range is not inverted, so neither an
      unparseable date nor a start after the end ever keeps a record (and
      neither raises an error); a kept record lies in the range and is of
      the selected category unless that is "All"; both ends are inclusive;
      and with "All" selected only the date decides. */
  predicate Keep(r: Record, range: DateRange, selectedCategory: string): (keep: bool)
    ensures keep ==> r.date.Day? && range.startDate.Day? && range.endDate.Day?
    ensures keep ==> IsWithinDateRange(r.date, range)
    ensures keep ==> range.startDate.ordinal <= range.endDate.ordinal
    ensures keep ==> selectedCategory == AllCategories || r.category == selectedCategory
    ensures (&& IsCategoryMatch(r, selectedCategory)
             && range.startDate.Day? && range.endDate.Day?
             && range.startDate.ordinal <= range.endDate.ordinal
             && (r.date == range.startDate || r.date == range.endDate))
            ==> keep
    ensures selectedCategory == AllCategories ==> (keep <==> IsWithinDateRange(r.date, range))
  {
    IsWithinDateRange(r.date, range) && IsCategoryMatch(r, selectedCategory)
  }

  function KeepFn(range: DateRange, selectedCategory: string): Record -> bool
  {
    (r: Record) => Keep(r, range, selectedCategory)
  }

  /** `filteredSalesData`: a record is kept exactly when it lies in the
      range and matches the category, and then with all its occurrences. */
  function FilteredSalesData(salesData: seq<Record>, range: DateRange, selectedCategory: string)
    : (filtered: seq<Record>)
    ensures |filtered| <= |salesData|
    ensures forall r :: r in filtered <==> r in salesData && Keep(r, range, selectedCategory)
    ensures forall r ::
              multiset(filtered)[r] ==
              if Keep(r, range, selectedCategory) then multiset(salesData)[r] else 0
  {
    Select(salesData, KeepFn(range, selectedCategory))
  }

  // ------------------------------------------------------------ filter lemmas

  /** The kept records appear in their original relative order. */
  lemma FilterKeepsOrder(salesData: seq<Record>, range: DateRange, selectedCategory: string)
    ensures IsSubsequence(FilteredSalesData(salesData, range, selectedCategory), salesData)
  {
    SelectIsSubsequence(salesData, KeepFn(range, selectedCategory));
  }

  /** Both ends of the range are inclusive. */
  lemma BoundsInclusive(salesData: seq<Record>, range: DateRange, selectedCategory: string, r: Record)
    requires r in salesData && IsCategoryMatch(r, selectedCategory)
    requires range.startDate.Day? && range.endDate.Day?
    requires range.startDate.ordinal <= range.endDate.ordinal
    requires r.date == range.startDate || r.date == range.endDate
    ensures r in FilteredSalesData(salesData, range, selectedCategory)
  {
  }

  /** A range whose start lies after its end keeps nothing; no error is
      raised. */
  lemma EmptyWhenStartAfterEnd(salesData: seq<Record>, range: DateRange, selectedCategory: string)
    requires range.startDate.Day? && range.endDate.Day?
    requires range.startDate.ordinal > range.endDate.ordinal
    ensures FilteredSalesData(salesData, range, selectedCategory) == []
  {
    SelectNone(salesData, KeepFn(range, selectedCategory));
  }

  /** An end of the range that luxon cannot parse (a cleared date input)
      keeps nothing either. */
  lemma EmptyWhenBoundInvalid(salesData: seq<Record>, range: DateRange, selectedCategory: string)
    requires range.startDate == InvalidDate || range.endDate == InvalidDate
    ensures FilteredSalesData(salesData, range, selectedCategory) == []
  {
    SelectNone(salesData, KeepFn(range, selectedCategory));
  }

  /** A record whose own date cannot be parsed is dropped, whatever the range. */
  lemma InvalidRecordDateDropped(salesData: seq<Record>, range: DateRange, selectedCategory: string, r: Record)
    requires r.date == InvalidDate
    ensures r !in FilteredSalesData(salesData, range, selectedCategory)
  {
  }

  /** With "All" selected only the date range decides, and filtering by a
      particular category afterwards is the same as filtering by it directly. */
  lemma AllIgnoresCategory(salesData: seq<Record>, range: DateRange, category: string)
    ensures forall r ::
              r in FilteredSalesData(salesData, range, AllCategories) <==>
              r in salesData && IsWithinDateRange(r.date, range)
    ensures FilteredSalesData(FilteredSalesData(salesData, range, AllCategories), range, category)
         == FilteredSalesData(salesData, range, category)
  {
    SelectNarrow(salesData, KeepFn(range, AllCategories), KeepFn(range, category));
  }

  /** Filtering the filtered records again with the same selection changes
      nothing. */
  lemma FilterIdempotent(salesData: seq<Record>, range: DateRange, selectedCategory: string)
    ensures var once := FilteredSalesData(salesData, range, selectedCategory);
      FilteredSalesData(once, range, selectedCategory) == once
  {
    var p := KeepFn(range, selectedCategory);
    SelectNarrow(salesData, p, p);
  }

  /** No records in, no records out. */
  lemma NoRecordsNoneKept(range: DateRange, selectedCategory: string)
    ensures FilteredSalesData([], range, selectedCategory) == []
  {
  }

  // --------------------------------------------------------------- dashboard

  /** The three chart inputs the component renders. */
  datatype Dashboard = Dashboard(line: Chart, bar: Chart, pie: Chart)

  /** One filtered list feeds all three charts, so they agree: point i of
      the line is kept record i, the bars and slices are the distinct
      categories and regions of the kept records in order of first
      appearance, each valued at the sales of exactly the kept records
      carrying it, and the three charts show the same grand total. `format` stands for
      luxon's short-date rendering of a date. */
  function RenderDashboard(salesData: seq<Record>, range: DateRange, selectedCategory: string,
                           format: Date -> string): (d: Dashboard)
    ensures var total := TotalSales(FilteredSalesData(salesData, range, selectedCategory));
      && |d.line.data| == |FilteredSalesData(salesData, range, selectedCategory)|
      && Sum(d.line.data) == total
      && Sum(d.bar.data) == total
      && Sum(d.pie.data) == total
    ensures var f := FilteredSalesData(salesData, range, selectedCategory);
      && |d.line.labels| == |f|
      && forall i :: 0 <= i < |f| ==>
           d.line.labels[i] == format(f[i].date) && d.line.data[i] == f[i].sales
    ensures var f := FilteredSalesData(salesData, range, selectedCategory);
      && NoDup(d.bar.labels)
      && InFirstAppearanceOrder(d.bar.labels, Grouping.KeysOf(f, Grouping.Category))
      && |d.bar.data| == |d.bar.labels|
      && forall i :: 0 <= i < |d.bar.data| ==>
           d.bar.data[i] == TotalSales(Grouping.WithKey(f, Grouping.Category, d.bar.labels[i]))
    ensures var f := FilteredSalesData(salesData, range, selectedCategory);
      && NoDup(d.pie.labels)
      && InFirstAppearanceOrder(d.pie.labels, Grouping.KeysOf(f, Grouping.Region))
      && |d.pie.data| == |d.pie.labels|
      && forall i :: 0 <= i < |d.pie.data| ==>
           d.pie.data[i] == TotalSales(Grouping.WithKey(f, Grouping.Region, d.pie.labels[i]))
    ensures forall c :: c in d.bar.labels <==>
      exists r :: r in salesData && Keep(r, range, selectedCategory) && r.category == c
    ensures forall g :: g in d.pie.labels <==>
      exists r :: r in salesData && Keep(r, range, selectedCategory) && r.region == g
  {
    var filtered := FilteredSalesData(salesData, range, selectedCategory);
    Dashboard(LineChart.ChartData(filtered, format),
              BarChart.ChartData(filtered),
              PieChart.ChartData(filtered))
  }

  /** No records give three empty charts, whatever the selection. */
  lemma EmptyDashboard(range: DateRange, selectedCategory: string, format: Date -> string)
    ensures RenderDashboard([], range, selectedCategory, format)
         == Dashboard(Chart([], []), Chart([], []), Chart([], []))
  {
    NoRecordsNoneKept(range, selectedCategory);
    LineChart.NoRecordsNoPoints(format);
    BarChart.NoRecordsNoBars();
    PieChart.NoRecordsNoSlices();
  }

  // ---------------------------------------------------------------- examples

  /** January 2024 with every category: of a January and a February record
      only the January one is kept. Dates are day numbers counted from
      1970-01-01 (2024-01-01 is day 19723). */
  lemma JanuaryAllCategoriesFilter(jan: Record, feb: Record)
    requires jan == Record(Day(19727), "Electronics", "North", 100)
    requires feb == Record(Day(19763), "Clothing", "South", 50)
    ensures FilteredSalesData([jan, feb], DateRange(Day(19723), Day(19753)), AllCategories) == [jan]
  {
    var p := KeepFn(DateRange(Day(19723), Day(19753)), AllCategories);
    assert p(jan) && !p(feb);
    assert [jan, feb][1..] == [feb] && [feb][1..] == [];
  }

  /** The same selection rendered: the bar and the pie each show the one
      kept record's category or region with its sales, and the line has its
      single point. */
  lemma JanuaryAllCategoriesCharts(jan: Record, feb: Record, format: Date -> string)
    requires jan == Record(Day(19727), "Electronics", "North", 100)
    requires feb == Record(Day(19763), "Clothing", "South", 50)
    ensures var d := RenderDashboard([jan, feb], DateRange(Day(19723), Day(19753)), AllCategories, format);
      && d.bar == Chart(["Electronics"], [100])
      && d.pie == Chart(["North"], [100])
      && d.line.data == [100]
  {
    JanuaryAllCategoriesFilter(jan, feb);
    Grouping.SingleRecord(jan, Grouping.Category);
    Grouping.SingleRecord(jan, Grouping.Region);
  }

  /** Both months with "Clothing" selected: only the February record is kept. */
  lemma BothMonthsClothing(jan: Record, feb: Record)
    requires jan == Record(Day(19727), "Electronics", "North", 100)
    requires feb == Record(Day(19763), "Clothing", "South", 50)
    ensures var filtered := FilteredSalesData([jan, feb], DateRange(Day(19723), Day(19782)), "Clothing");
      && filtered == [feb]
      && BarChart.ChartData(filtered) == Chart(["Clothing"], [50])
  {
    var p := KeepFn(DateRange(Day(19723), Day(19782)), "Clothing");
    assert !p(jan) by {
      assert jan.category[0] != "Clothing"[0];
    }
    assert p(feb);
    assert [jan, feb][1..] == [feb] && [feb][1..] == [];
    Grouping.SingleRecord(feb, Grouping.Category);
  }
}
