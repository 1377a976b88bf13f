/** The line chart: one point per record, in input order. The x-axis label
    of a point is luxon's short-date rendering of the record's date, which
    this model takes as the parameter `format`. */
module LineChart {
  import opened Sales
  import opened Arrays

  function SalesOf(r: Record): nat
  {
    r.sales
  }

  /** `(data) => format(data.date)` as a function value. */
  function LabelFn(format: Date -> string): Record -> string
  {
    (r: Record) => format(r.date)
  }

  /** `labels`: one label per record, computed from that record's date. */
  function Labels(salesData: seq<Record>, format: Date -> string): (labels: seq<string>)
    ensures |labels| == |salesData|
    ensures forall i :: 0 <= i < |salesData| ==> labels[i] == format(salesData[i].date)
  {
    Map(salesData, LabelFn(format))
  }

  /** `sales`: one value per record, the record's own amount, at the
      record's own position: nothing is sorted, merged or dropped. */
  function SalesPoints(salesData: seq<Record>): (sales: seq<nat>)
    ensures |sales| == |salesData|
    ensures forall i :: 0 <= i < |salesData| ==> sales[i] == salesData[i].sales
  {
    Map(salesData, SalesOf)
  }

  /** The `data` object handed to `<Line>`: point i is record i, labelled
      with its formatted date and valued at its sales, so the points add up
      to the sales of all records. */
  function ChartData(salesData: seq<Record>, format: Date -> string): (chart: Chart)
    ensures |chart.labels| == |chart.data| == |salesData|
    ensures forall i :: 0 <= i < |salesData| ==>
      chart.labels[i] == format(salesData[i].date) && chart.data[i] == salesData[i].sales
    ensures Sum(chart.data) == TotalSales(salesData)
  {
    SalesPointsSum(salesData);
    Chart(Labels(salesData, format), SalesPoints(salesData))
  }

  /** The points of the line add up to the sales of all records. */
  lemma {:induction false} SalesPointsSum(salesData: seq<Record>)
    ensures Sum(SalesPoints(salesData)) == TotalSales(salesData)
    decreases |salesData|
  {
    if salesData != [] {
      assert SalesPoints(salesData)[1..] == SalesPoints(salesData[1..]);
      SalesPointsSum(salesData[1..]);
    }
  }

  /** Records are never merged: the points of two lists of records, one after
      the other, are the points of the joined list, even where dates repeat. */
  lemma SalesPointsConcat(a: seq<Record>, b: seq<Record>)
    ensures SalesPoints(a + b) == SalesPoints(a) + SalesPoints(b)
  {
  }

  /** A label depends on its record's date alone. */
  lemma LabelsFromDatesOnly(a: seq<Record>, b: seq<Record>, format: Date -> string)
    requires |a| == |b|
    requires forall i :: 0 <= i < |a| ==> a[i].date == b[i].date
    ensures Labels(a, format) == Labels(b, format)
  {
  }

  /** No records, no points. */
  lemma NoRecordsNoPoints(format: Date -> string)
    ensures ChartData([], format) == Chart([], [])
  {
  }
}
