/** The bar chart: total sales per product category
    (`categories`, `categorySales`). */
module BarChart {
  import opened Sales
  import opened Arrays
  import opened Grouping

  /** `categories`: each category of the records once, in the order in which
      it first occurs, and no category that no record carries. */
  function Categories(salesData: seq<Record>): (categories: seq<string>)
    ensures NoDup(categories)
    ensures forall c :: c in categories <==> exists r :: r in salesData && r.category == c
    ensures InFirstAppearanceOrder(categories, KeysOf(salesData, Category))
  {
    GroupSum(salesData, Category).labels
  }

  /** `categorySales`: one total per category, the sales of exactly the
      records of that category; together they account for every sale. */
  function CategorySales(salesData: seq<Record>): (categorySales: seq<nat>)
    ensures |categorySales| == |Categories(salesData)|
    ensures forall i :: 0 <= i < |categorySales| ==>
      categorySales[i] == TotalSales(WithKey(salesData, Category, Categories(salesData)[i]))
    ensures Sum(categorySales) == TotalSales(salesData)
  {
    GroupSum(salesData, Category).data
  }

  /** The `data` object handed to `<Bar>`: label i and value i belong
      together, value i being the sales of exactly the records whose category
      is label i; the labels are the categorys that occur, and the values
      account for every sale. */
  function ChartData(salesData: seq<Record>): (chart: Chart)
    ensures NoDup(chart.labels)
    ensures InFirstAppearanceOrder(chart.labels, KeysOf(salesData, Category))
    ensures |chart.data| == |chart.labels|
    ensures forall i :: 0 <= i < |chart.data| ==>
      chart.data[i] == TotalSales(WithKey(salesData, Category, chart.labels[i]))
    ensures forall c :: c in chart.labels <==> exists r :: r in salesData && r.category == c
    ensures Sum(chart.data) == TotalSales(salesData)
  {
    Chart(Categories(salesData), CategorySales(salesData))
  }

  /** No records, no bars. */
  lemma NoRecordsNoBars()
    ensures ChartData([]) == Chart([], [])
  {
    HeadIsMember(Categories([]));
  }
}
