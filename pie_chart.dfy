/** The pie chart: total sales per region
    (`regions`, `regionSales`). */
module PieChart {
  import opened Sales
  import opened Arrays
  import opened Grouping

  /** `regions`: each region of the records once, in the order in which
      it first occurs, and no region that no record carries. */
  function Regions(salesData: seq<Record>): (regions: seq<string>)
    ensures NoDup(regions)
    ensures forall g :: g in regions <==> exists r :: r in salesData && r.region == g
    ensures InFirstAppearanceOrder(regions, KeysOf(salesData, Region))
  {
    GroupSum(salesData, Region).labels
  }

  /** `regionSales`: one total per region, the sales of exactly the
      records of that region; together they account for every sale. */
  function RegionSales(salesData: seq<Record>): (regionSales: seq<nat>)
    ensures |regionSales| == |Regions(salesData)|
    ensures forall i :: 0 <= i < |regionSales| ==>
      regionSales[i] == TotalSales(WithKey(salesData, Region, Regions(salesData)[i]))
    ensures Sum(regionSales) == TotalSales(salesData)
  {
    GroupSum(salesData, Region).data
  }

  /** The `data` object handed to `<Pie>`: label i and value i belong
      together, value i being the sales of exactly the records whose region
      is label i; the labels are the regions that occur, and the values
      account for every sale. */
  function ChartData(salesData: seq<Record>): (chart: Chart)
    ensures NoDup(chart.labels)
    ensures InFirstAppearanceOrder(chart.labels, KeysOf(salesData, Region))
    ensures |chart.data| == |chart.labels|
    ensures forall i :: 0 <= i < |chart.data| ==>
      chart.data[i] == TotalSales(WithKey(salesData, Region, chart.labels[i]))
    ensures forall g :: g in chart.labels <==> exists r :: r in salesData && r.region == g
    ensures Sum(chart.data) == TotalSales(salesData)
  {
    Chart(Regions(salesData), RegionSales(salesData))
  }

  /** No records, no slices. */
  lemma NoRecordsNoSlices()
    ensures ChartData([]) == Chart([], [])
  {
    HeadIsMember(Regions([]));
  }
}
