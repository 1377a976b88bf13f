/** The record model shared by the filter and the three charts. */
module Sales {

  /** A calendar date as luxon's `DateTime.fromISO` leaves it: either a valid
      date, identified by its day number so that the natural order of
      integers is the order of days, or an invalid DateTime (an unparseable
      or empty ISO string). */
  datatype Date = Day(ordinal: int) | InvalidDate

  /** One sales observation: `{ date, category, region, sales }`. */
  datatype Record = Record(date: Date, category: string, region: string, sales: nat)

  /** What a chart component hands to Chart.js: parallel label and value arrays. */
  datatype Chart = Chart(labels: seq<string>, data: seq<nat>)

  /** The sum of `sales` over a list of records. */
  function TotalSales(rs: seq<Record>): nat
    decreases |rs|
  {
    if rs == [] then 0 else rs[0].sales + TotalSales(rs[1..])
  }

  lemma {:induction false} TotalSalesConcat(a: seq<Record>, b: seq<Record>)
    ensures TotalSales(a + b) == TotalSales(a) + TotalSales(b)
    decreases |a|
  {
    if a == [] {
      assert a + b == b;
    } else {
      assert (a + b)[1..] == a[1..] + b;
      TotalSalesConcat(a[1..], b);
    }
  }
}
