/** The group-and-sum computation that the bar chart runs keyed on
    `category` and the pie chart keyed on `region`. The labels are the keys
    of the records with duplicates removed by a JavaScript `Set`; the total
    of a label is obtained by filtering the records on that key and reducing
    their `sales` with `+` from 0. */
module Grouping {
  import opened Sales
  import opened Arrays

  /** The record field a chart groups on. */
  datatype Key = Category | Region

  function KeyOf(r: Record, k: Key): string
  {
    match k
    case Category => r.category
    case Region => r.region
  }

  /** The key of a record as a function value, for mapping the records. */
  function KeyFn(k: Key): Record -> string
  {
    (r: Record) => KeyOf(r, k)
  }

  /** The predicate "the record's key is `v`", for filtering the records. */
  function HasKey(k: Key, v: string): Record -> bool
  {
    (r: Record) => KeyOf(r, k) == v
  }

  /** Some record carries the key `v`. */
  ghost predicate KeyOccurs(rs: seq<Record>, k: Key, v: string)
  {
    exists r :: r in rs && KeyOf(r, k) == v
  }

  /** The keys of the records, one per record, in record order; a string is
      among them exactly when some record carries it. */
  function KeysOf(rs: seq<Record>, k: Key): (ks: seq<string>)
    ensures |ks| == |rs|
    ensures forall i :: 0 <= i < |rs| ==> ks[i] == KeyOf(rs[i], k)
    ensures forall v :: v in ks <==> KeyOccurs(rs, k, v)
  {
    KeysOccur(rs, k);
    Map(rs, KeyFn(k))
  }

  /** The mapped keys are exactly the keys that occur. */
  lemma KeysOccur(rs: seq<Record>, k: Key)
    ensures forall v :: v in Map(rs, KeyFn(k)) <==> KeyOccurs(rs, k, v)
  {
    var ks := Map(rs, KeyFn(k));
    forall v | KeyOccurs(rs, k, v) ensures v in ks {
      var r :| r in rs && KeyOf(r, k) == v;
      var i :| 0 <= i < |rs| && rs[i] == r;
      assert ks[i] == v;
    }
  }

  /** Filtering on one key: exactly the records carrying the key `v`, each
      as often as in the input, in input order. */
  function WithKey(rs: seq<Record>, k: Key, v: string): (w: seq<Record>)
    ensures forall r :: r in w <==> r in rs && KeyOf(r, k) == v
    ensures forall r :: multiset(w)[r] == if KeyOf(r, k) == v then multiset(rs)[r] else 0
  {
    Select(rs, HasKey(k, v))
  }

  /** Reducing `sales` with `+` from the seed `acc`, left to right: the seed
      plus the total sales of the records. */
  function Reduce(acc: nat, rs: seq<Record>): (sum: nat)
    ensures sum == acc + TotalSales(rs)
    decreases |rs|
  {
    if rs == [] then acc else Reduce(acc + rs[0].sales, rs[1..])
  }

  /** The total shown for one key: the records carrying it are filtered out
      and their `sales` reduced with `+` from 0, which gives exactly their
      total sales. */
  function KeyTotal(rs: seq<Record>, k: Key, v: string): (total: nat)
    ensures total == TotalSales(WithKey(rs, k, v))
  {
    Reduce(0, WithKey(rs, k, v))
  }

  /** `(k) => <the total for k>` as a function value, for mapping the keys. */
  function TotalFn(rs: seq<Record>, k: Key): string -> nat
  {
    (v: string) => KeyTotal(rs, k, v)
  }

  /** Labels and totals of a grouped chart. The labels have no duplicates,
      are exactly the keys that occur (so an absent key gets no zero entry)
      and come in order of first appearance; there is one total per label,
      the sales of exactly the records carrying it; and the totals add up to
      the sales of all records. */
  function GroupSum(rs: seq<Record>, k: Key): (g: Chart)
    ensures NoDup(g.labels)
    ensures forall v :: v in g.labels <==> KeyOccurs(rs, k, v)
    ensures InFirstAppearanceOrder(g.labels, KeysOf(rs, k))
    ensures |g.data| == |g.labels|
    ensures forall i :: 0 <= i < |g.data| ==> g.data[i] == TotalSales(WithKey(rs, k, g.labels[i]))
    ensures Sum(g.data) == TotalSales(rs)
  {
    var labels := Dedup(KeysOf(rs, k));
    DedupOrder(KeysOf(rs, k));
    TotalsAddUp(rs, k);
    Chart(labels, Map(labels, TotalFn(rs, k)))
  }

  /** The totals of the distinct keys add up to the sales of all records. */
  lemma TotalsAddUp(rs: seq<Record>, k: Key)
    ensures Sum(Map(Dedup(KeysOf(rs, k)), TotalFn(rs, k))) == TotalSales(rs)
  {
    var labels := Dedup(KeysOf(rs, k));
    forall r | r in rs ensures KeyOf(r, k) in labels {
      assert KeyOccurs(rs, k, KeyOf(r, k));
    }
    SummedTotals(rs, k, labels);
    SumOfTotalsCovers(rs, k, labels);
  }

  // -------------------------------------------------------------- lemmas

  /** The properties GroupSum promises of its labels determine them: any
      other listing with them is the same list. */
  lemma LabelsDetermined(rs: seq<Record>, k: Key, t: seq<string>)
    requires NoDup(t)
    requires forall v :: v in t <==> KeyOccurs(rs, k, v)
    requires InFirstAppearanceOrder(t, KeysOf(rs, k))
    ensures t == GroupSum(rs, k).labels
  {
    DedupUnique(KeysOf(rs, k), t);
  }

  /** GroupSum's contract pins the whole chart down: any chart with
      distinct labels that are exactly the occurring keys in first-appearance
      order, and with the total of label i as value i, is the grouped chart. */
  lemma ChartDetermined(rs: seq<Record>, k: Key, c: Chart)
    requires NoDup(c.labels)
    requires forall v :: v in c.labels <==> KeyOccurs(rs, k, v)
    requires InFirstAppearanceOrder(c.labels, KeysOf(rs, k))
    requires |c.data| == |c.labels|
    requires forall i :: 0 <= i < |c.data| ==> c.data[i] == TotalSales(WithKey(rs, k, c.labels[i]))
    ensures c == GroupSum(rs, k)
  {
    LabelsDetermined(rs, k, c.labels);
    var g := GroupSum(rs, k);
    assert c.data == g.data;
  }

  /** A single record forms a single group holding its own sales. */
  lemma SingleRecord(r: Record, k: Key)
    ensures GroupSum([r], k) == Chart([KeyOf(r, k)], [r.sales])
  {
    var ks := KeysOf([r], k);
    assert ks == [KeyOf(r, k)];
    assert ks[..0] == [];
    assert Dedup(ks) == [KeyOf(r, k)];
    var w := WithKey([r], k, KeyOf(r, k));
    assert [r][1..] == [];
    assert w == [r];
    assert Map([KeyOf(r, k)], TotalFn([r], k)) == [r.sales];
  }

  /** The sum, over a list of keys, of the per-key totals. */
  function SumOfTotals(rs: seq<Record>, k: Key, ks: seq<string>): nat
    decreases |ks|
  {
    if ks == [] then 0 else TotalSales(WithKey(rs, k, ks[0])) + SumOfTotals(rs, k, ks[1..])
  }

  lemma {:induction false} SummedTotals(rs: seq<Record>, k: Key, ks: seq<string>)
    ensures Sum(Map(ks, TotalFn(rs, k))) == SumOfTotals(rs, k, ks)
    decreases |ks|
  {
    if ks != [] {
      assert Map(ks, TotalFn(rs, k))[1..] == Map(ks[1..], TotalFn(rs, k));
      SummedTotals(rs, k, ks[1..]);
    }
  }

  lemma {:induction false} SumOfTotalsOfNone(k: Key, ks: seq<string>)
    ensures SumOfTotals([], k, ks) == 0
    decreases |ks|
  {
    if ks != [] {
      SumOfTotalsOfNone(k, ks[1..]);
    }
  }

  /** Prepending one record adds its sales to the sum of totals when, and
      only when, its key is one of the (distinct) keys summed over. */
  lemma {:induction false} SumOfTotalsCons(r: Record, rs: seq<Record>, k: Key, ks: seq<string>)
    requires NoDup(ks)
    ensures SumOfTotals([r] + rs, k, ks)
         == (if KeyOf(r, k) in ks then r.sales else 0) + SumOfTotals(rs, k, ks)
    decreases |ks|
  {
    if ks != [] {
      var rs' := [r] + rs;
      assert rs'[1..] == rs;
      assert WithKey(rs', k, ks[0])
          == (if KeyOf(r, k) == ks[0] then [r] else []) + WithKey(rs, k, ks[0]);
      TotalSalesConcat(if KeyOf(r, k) == ks[0] then [r] else [], WithKey(rs, k, ks[0]));
      assert NoDup(ks[1..]) by {
        forall i, j | 0 <= i < j < |ks[1..]| ensures ks[1..][i] != ks[1..][j] {
          assert ks[1..][i] == ks[i + 1] && ks[1..][j] == ks[j + 1];
        }
      }
      SumOfTotalsCons(r, rs, k, ks[1..]);
      if KeyOf(r, k) == ks[0] {
        assert KeyOf(r, k) !in ks[1..] by {
          forall j | 0 <= j < |ks[1..]| ensures ks[1..][j] != ks[0] {
            assert ks[1..][j] == ks[j + 1];
          }
        }
      }
    }
  }

  /** Summing the per-key totals over a duplicate-free list that covers
      every record's key gives the total of all sales. */
  lemma {:induction false} SumOfTotalsCovers(rs: seq<Record>, k: Key, ks: seq<string>)
    requires NoDup(ks)
    requires forall r :: r in rs ==> KeyOf(r, k) in ks
    ensures SumOfTotals(rs, k, ks) == TotalSales(rs)
    decreases |rs|
  {
    if rs == [] {
      SumOfTotalsOfNone(k, ks);
    } else {
      assert rs == [rs[0]] + rs[1..];
      SumOfTotalsCons(rs[0], rs[1..], k, ks);
      SumOfTotalsCovers(rs[1..], k, ks);
    }
  }
}
