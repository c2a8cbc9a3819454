/** The reports screen: the top-five products by revenue, the per-status
    invoice counts, the overall statistics, and the day/month revenue
    buckets. The screen reads invoices through its own narrow record, with
    the status as free text. Dates, the clock and the time window are
    parameters. */
module Reports {
  import opened Seqs
  import T = Text

  datatype SoldItem = SoldItem(productName: string, quantity: int, total: real)

  datatype Sale = Sale(id: string, date: string, total: real, status: string, items: seq<SoldItem>)

  /** Every line of every invoice, in the order the nested `forEach` visits
      them. */
  function AllItems(sales: seq<Sale>): seq<SoldItem>
  {
    if |sales| == 0 then [] else AllItems(sales[..|sales| - 1]) + sales[|sales| - 1].items
  }

  // ---------------------------------------------------------------------
  // Top products

  datatype ProductSales = ProductSales(name: string, quantity: int, revenue: real)

  function NameOf(p: ProductSales): string { p.name }

  /** Whether some line sells `name`. */
  predicate Mentions(items: seq<SoldItem>, name: string)
  {
    |items| > 0 && (Mentions(items[..|items| - 1], name) || items[|items| - 1].productName == name)
  }

  /** The quantity summed over the lines that sell `name`. */
  function QuantityOf(items: seq<SoldItem>, name: string): int
  {
    if |items| == 0 then 0
    else
      var it := items[|items| - 1];
      QuantityOf(items[..|items| - 1], name) + (if it.productName == name then it.quantity else 0)
  }

  /** The line totals summed over the lines that sell `name`. */
  function RevenueOf(items: seq<SoldItem>, name: string): real
  {
    if |items| == 0 then 0.0
    else
      var it := items[|items| - 1];
      RevenueOf(items[..|items| - 1], name) + (if it.productName == name then it.total else 0.0)
  }

  /** The `productSales` table: one entry per product name, created at the
      name's first line and accumulated at every later one. */
  function Aggregate(items: seq<SoldItem>): seq<ProductSales>
  {
    if |items| == 0 then []
    else
      var acc := Aggregate(items[..|items| - 1]);
      var it := items[|items| - 1];
      var i := FirstIndex(acc, NameOf, it.productName);
      if i < 0 then acc + [ProductSales(it.productName, it.quantity, it.total)]
      else acc[i := acc[i].(quantity := acc[i].quantity + it.quantity, revenue := acc[i].revenue + it.total)]
  }

  predicate DistinctNames(ps: seq<ProductSales>)
  {
    forall i, j :: 0 <= i < j < |ps| ==> ps[i].name != ps[j].name
  }

  /** A product has an entry exactly when some line sells it. */
  lemma {:induction false} AggregateHas(items: seq<SoldItem>, name: string)
    ensures FirstIndex(Aggregate(items), NameOf, name) >= 0 <==> Mentions(items, name)
  {
    if |items| > 0 {
      var n := |items| - 1;
      var acc := Aggregate(items[..n]);
      var it := items[n];
      var i := FirstIndex(acc, NameOf, it.productName);
      AggregateHas(items[..n], name);
      assert Mentions(items, name) <==> Mentions(items[..n], name) || it.productName == name;
      if i < 0 {
        assert Aggregate(items) == acc + [ProductSales(it.productName, it.quantity, it.total)];
        FirstIndexAppend(acc, NameOf, name, ProductSales(it.productName, it.quantity, it.total));
      } else {
        assert Aggregate(items) == acc[i := acc[i].(quantity := acc[i].quantity + it.quantity,
                                                     revenue := acc[i].revenue + it.total)];
        FirstIndexUpdate(acc, NameOf, name, i, acc[i].(quantity := acc[i].quantity + it.quantity,
                                                       revenue := acc[i].revenue + it.total));
      }
    }
  }

  /** A product's entry holds the exact sums of quantity and revenue over
      the lines that sell it. */
  lemma {:induction false} AggregateSums(items: seq<SoldItem>, name: string)
    ensures var agg := Aggregate(items);
            var k := FirstIndex(agg, NameOf, name);
            k >= 0 ==> agg[k].quantity == QuantityOf(items, name) && agg[k].revenue == RevenueOf(items, name)
  {
    if |items| > 0 {
      var n := |items| - 1;
      var acc := Aggregate(items[..n]);
      var it := items[n];
      var i := FirstIndex(acc, NameOf, it.productName);
      AggregateSums(items[..n], name);
      assert items == items[..n] + [it];
      if i < 0 {
        AggregateHas(items[..n], it.productName);
        AggregateSumsNew(items[..n], it, name);
      } else {
        AggregateSumsOld(items[..n], it, name);
      }
    }
  }

  /** The step that adds to an existing entry. */
  lemma {:induction false} AggregateSumsOld(items: seq<SoldItem>, it: SoldItem, name: string)
    requires FirstIndex(Aggregate(items), NameOf, it.productName) >= 0
    requires var k := FirstIndex(Aggregate(items), NameOf, name);
             k >= 0 ==> Aggregate(items)[k].quantity == QuantityOf(items, name)
                        && Aggregate(items)[k].revenue == RevenueOf(items, name)
    ensures var all := items + [it];
            var agg := Aggregate(all);
            var k := FirstIndex(agg, NameOf, name);
            k >= 0 ==> agg[k].quantity == QuantityOf(all, name) && agg[k].revenue == RevenueOf(all, name)
  {
    var all := items + [it];
    assert all[..|items|] == items;
    var acc := Aggregate(items);
    var i := FirstIndex(acc, NameOf, it.productName);
    var y := acc[i].(quantity := acc[i].quantity + it.quantity, revenue := acc[i].revenue + it.total);
    assert Aggregate(all) == acc[i := y];
    FirstIndexUpdate(acc, NameOf, name, i, y);
    var k := FirstIndex(acc, NameOf, name);
    if k >= 0 {
      assert QuantityOf(all, name) == QuantityOf(items, name) + (if it.productName == name then it.quantity else 0);
      assert RevenueOf(all, name) == RevenueOf(items, name) + (if it.productName == name then it.total else 0.0);
      if it.productName == name {
        assert k == i;
      } else {
        assert k != i;
      }
    }
  }

  /** The step that opens a new entry. */
  lemma {:induction false} AggregateSumsNew(items: seq<SoldItem>, it: SoldItem, name: string)
    requires !Mentions(items, it.productName)
    requires FirstIndex(Aggregate(items), NameOf, it.productName) < 0
    requires var k := FirstIndex(Aggregate(items), NameOf, name);
             k >= 0 ==> Aggregate(items)[k].quantity == QuantityOf(items, name)
                        && Aggregate(items)[k].revenue == RevenueOf(items, name)
    ensures var all := items + [it];
            var agg := Aggregate(all);
            var k := FirstIndex(agg, NameOf, name);
            k >= 0 ==> agg[k].quantity == QuantityOf(all, name) && agg[k].revenue == RevenueOf(all, name)
  {
    var all := items + [it];
    assert all[..|items|] == items;
    var acc := Aggregate(items);
    assert Aggregate(all) == acc + [ProductSales(it.productName, it.quantity, it.total)];
    FirstIndexAppend(acc, NameOf, name, ProductSales(it.productName, it.quantity, it.total));
    if name == it.productName {
      Unmentioned(items, name);
    }
  }

  lemma {:induction false} Unmentioned(items: seq<SoldItem>, name: string)
    requires !Mentions(items, name)
    ensures QuantityOf(items, name) == 0 && RevenueOf(items, name) == 0.0
  {
    if |items| > 0 {
      Unmentioned(items[..|items| - 1], name);
    }
  }

  /** No product appears twice in the table. */
  lemma {:induction false} AggregateDistinct(items: seq<SoldItem>)
    ensures DistinctNames(Aggregate(items))
  {
    if |items| > 0 {
      var n := |items| - 1;
      AggregateDistinct(items[..n]);
    }
  }

  predicate SortedByRevenue(ps: seq<ProductSales>)
  {
    forall i, j :: 0 <= i < j < |ps| ==> ps[i].revenue >= ps[j].revenue
  }

  /** Places `x` after every entry with at least its revenue, so equal
      revenues keep their order (the stable sort of the comparator
      `b.revenue - a.revenue`). */
  function Insert(x: ProductSales, t: seq<ProductSales>): (r: seq<ProductSales>)
    ensures |r| == |t| + 1
    ensures r[0] == x || (|t| > 0 && r[0] == t[0])
    ensures multiset(r) == multiset(t) + multiset{x}
  {
    if |t| == 0 then [x]
    else if t[0].revenue >= x.revenue then
      assert t == [t[0]] + t[1..];
      [t[0]] + Insert(x, t[1..])
    else [x] + t
  }

  /** Inserting into a sorted list keeps it sorted. */
  lemma {:induction false} InsertSorted(x: ProductSales, t: seq<ProductSales>)
    requires SortedByRevenue(t)
    ensures SortedByRevenue(Insert(x, t))
  {
    if |t| > 0 && t[0].revenue >= x.revenue {
      var rest := Insert(x, t[1..]);
      InsertSorted(x, t[1..]);
      var r := [t[0]] + rest;
      assert |t| > 1 ==> t[0].revenue >= t[1].revenue;
      forall i, j | 0 <= i < j < |r|
        ensures r[i].revenue >= r[j].revenue
      {
        if i > 0 {
          assert r[i] == rest[i - 1] && r[j] == rest[j - 1];
        } else {
          assert rest[0].revenue <= t[0].revenue;
          assert r[j] == rest[j - 1];
        }
      }
    }
  }

  /** `sort((a, b) => b.revenue - a.revenue)`: a permutation in
      non-increasing order of revenue. */
  function SortByRevenue(ps: seq<ProductSales>): (r: seq<ProductSales>)
    ensures SortedByRevenue(r)
    ensures multiset(r) == multiset(ps)
  {
    if |ps| == 0 then []
    else
      assert ps == ps[..|ps| - 1] + [ps[|ps| - 1]];
      InsertSorted(ps[|ps| - 1], SortByRevenue(ps[..|ps| - 1]));
      Insert(ps[|ps| - 1], SortByRevenue(ps[..|ps| - 1]))
  }

  /** `getTopProducts`. */
  function TopProducts(sales: seq<Sale>): seq<ProductSales>
  {
    var sorted := SortByRevenue(Aggregate(AllItems(sales)));
    if |sorted| <= 5 then sorted else sorted[..5]
  }

  /** At most five entries, best first, each a real table entry; a product
      that is left out earns no more than any of the five shown. */
  lemma {:induction false} TopProductsAreTop(sales: seq<Sale>, e: ProductSales)
    ensures var r := TopProducts(sales);
            |r| <= 5 && SortedByRevenue(r)
            && (forall k :: 0 <= k < |r| ==> r[k] in Aggregate(AllItems(sales)))
            && (e in Aggregate(AllItems(sales)) && e !in r ==>
                  |r| == 5 && forall k :: 0 <= k < 5 ==> r[k].revenue >= e.revenue)
  {
    var agg := Aggregate(AllItems(sales));
    var sorted := SortByRevenue(agg);
    var r := TopProducts(sales);
    assert r == if |sorted| <= 5 then sorted else sorted[..5];
    TakeKeeps(sorted, r);
    if e in agg && e !in r {
      assert e in multiset(sorted);
      LeftOut(sorted, r, e);
    }
  }

  /** A prefix of a sorted permutation is sorted and draws from the
      original. */
  lemma {:induction false} TakeKeeps(sorted: seq<ProductSales>, r: seq<ProductSales>)
    requires SortedByRevenue(sorted)
    requires r == if |sorted| <= 5 then sorted else sorted[..5]
    ensures |r| <= 5 && SortedByRevenue(r)
    ensures forall k :: 0 <= k < |r| ==> r[k] in multiset(sorted)
  {
    forall k | 0 <= k < |r|
      ensures r[k] in multiset(sorted)
    {
      assert r[k] == sorted[k];
    }
  }

  /** What the first five of a sorted list leave out earns no more than
      any of them. */
  lemma {:induction false} LeftOut(sorted: seq<ProductSales>, r: seq<ProductSales>, e: ProductSales)
    requires SortedByRevenue(sorted)
    requires r == if |sorted| <= 5 then sorted else sorted[..5]
    requires e in multiset(sorted) && e !in r
    ensures |r| == 5 && forall k :: 0 <= k < 5 ==> r[k].revenue >= e.revenue
  {
    var idx :| 0 <= idx < |sorted| && sorted[idx] == e;
    forall k | 0 <= k < 5
      ensures r[k].revenue >= e.revenue
    {
      assert r[k] == sorted[k];
    }
  }

  // ---------------------------------------------------------------------
  // Status counts

  datatype StatusCount = StatusCount(status: string, count: nat)

  function StatusOf(c: StatusCount): string { c.status }

  /** The statuses the table always lists, in this order. */
  const SeededStatuses: seq<string> := ["draft", "sent", "paid", "overdue"]

  const SeedCounts: seq<StatusCount> :=
    [StatusCount("draft", 0), StatusCount("sent", 0), StatusCount("paid", 0), StatusCount("overdue", 0)]

  /** `statusCounts[s] = (statusCounts[s] || 0) + 1`: an existing row is
      incremented in place, a new status is appended with count 1. */
  function Bump(cs: seq<StatusCount>, status: string): seq<StatusCount>
  {
    var i := FirstIndex(cs, StatusOf, status);
    if i < 0 then cs + [StatusCount(status, 1)] else cs[i := cs[i].(count := cs[i].count + 1)]
  }

  /** The `statusCounts` table after the `forEach` over the invoices. */
  function CountStatuses(sales: seq<Sale>): seq<StatusCount>
  {
    if |sales| == 0 then SeedCounts else Bump(CountStatuses(sales[..|sales| - 1]), sales[|sales| - 1].status)
  }

  /** How many invoices carry `status`. */
  function CountOf(sales: seq<Sale>, status: string): nat
  {
    if |sales| == 0 then 0
    else CountOf(sales[..|sales| - 1], status) + (if sales[|sales| - 1].status == status then 1 else 0)
  }

  function SumCounts(cs: seq<StatusCount>): nat
  {
    if |cs| == 0 then 0 else SumCounts(cs[..|cs| - 1]) + cs[|cs| - 1].count
  }

  lemma {:induction false} SumCountsReplace(cs: seq<StatusCount>, i: nat, y: StatusCount)
    requires i < |cs|
    ensures SumCounts(cs[i := y]) + cs[i].count == SumCounts(cs) + y.count
  {
    var n := |cs| - 1;
    if i < n {
      assert cs[i := y][..n] == cs[..n][i := y];
      SumCountsReplace(cs[..n], i, y);
    } else {
      assert cs[i := y][..n] == cs[..n];
    }
  }

  /** The four seeded statuses stay first, in order, whatever the invoices. */
  lemma {:induction false} StatusCountsSeeded(sales: seq<Sale>)
    ensures var cs := CountStatuses(sales);
            |cs| >= 4 && forall k :: 0 <= k < 4 ==> cs[k].status == SeededStatuses[k]
  {
    if |sales| > 0 {
      StatusCountsSeeded(sales[..|sales| - 1]);
    }
  }

  /** Every invoice is counted exactly once: the counts sum to the number of
      invoices. */
  lemma {:induction false} StatusCountsSum(sales: seq<Sale>)
    ensures SumCounts(CountStatuses(sales)) == |sales|
  {
    if |sales| > 0 {
      var n := |sales| - 1;
      var cs := CountStatuses(sales[..n]);
      StatusCountsSum(sales[..n]);
      assert CountStatuses(sales) == Bump(cs, sales[n].status);
      BumpSum(cs, sales[n].status);
    } else {
      SumCountsZero(SeedCounts);
    }
  }

  /** One bump adds exactly one to the total count. */
  lemma {:induction false} BumpSum(cs: seq<StatusCount>, s: string)
    ensures SumCounts(Bump(cs, s)) == SumCounts(cs) + 1
  {
    var i := FirstIndex(cs, StatusOf, s);
    if i < 0 {
      var r := cs + [StatusCount(s, 1)];
      assert Bump(cs, s) == r;
      assert r[..|cs|] == cs;
    } else {
      assert Bump(cs, s) == cs[i := cs[i].(count := cs[i].count + 1)];
      SumCountsReplace(cs, i, cs[i].(count := cs[i].count + 1));
    }
  }

  lemma {:induction false} SumCountsZero(cs: seq<StatusCount>)
    requires forall k :: 0 <= k < |cs| ==> cs[k].count == 0
    ensures SumCounts(cs) == 0
  {
    if |cs| > 0 {
      SumCountsZero(cs[..|cs| - 1]);
    }
  }

  /** A status has a row exactly when it is seeded or some invoice carries
      it, and the row's count is the number of invoices carrying it. */
  lemma {:induction false} StatusCountsExact(sales: seq<Sale>, status: string)
    ensures var cs := CountStatuses(sales);
            var k := FirstIndex(cs, StatusOf, status);
            (k >= 0 <==> status in SeededStatuses || CountOf(sales, status) > 0)
            && (k >= 0 ==> cs[k].count == CountOf(sales, status))
  {
    if |sales| == 0 {
      SeedExact(status);
    } else {
      var n := |sales| - 1;
      StatusCountsExact(sales[..n], status);
      assert sales == sales[..n] + [sales[n]];
      ExactStep(sales[..n], sales[n], status);
    }
  }

  lemma {:induction false} SeedExact(status: string)
    ensures var k := FirstIndex(SeedCounts, StatusOf, status);
            (k >= 0 <==> status in SeededStatuses) && (k >= 0 ==> SeedCounts[k].count == 0)
  {
    var k := FirstIndex(SeedCounts, StatusOf, status);
    assert k >= 0 ==> status == SeedCounts[k].status;
    assert status in SeededStatuses ==> exists j :: 0 <= j < 4 && SeedCounts[j].status == status;
  }

  lemma {:induction false} ExactStep(sales: seq<Sale>, x: Sale, status: string)
    requires var cs := CountStatuses(sales);
             var k := FirstIndex(cs, StatusOf, status);
             (k >= 0 <==> status in SeededStatuses || CountOf(sales, status) > 0)
             && (k >= 0 ==> cs[k].count == CountOf(sales, status))
    ensures var all := sales + [x];
            var cs := CountStatuses(all);
            var k := FirstIndex(cs, StatusOf, status);
            (k >= 0 <==> status in SeededStatuses || CountOf(all, status) > 0)
            && (k >= 0 ==> cs[k].count == CountOf(all, status))
  {
    var all := sales + [x];
    assert all[..|sales|] == sales;
    assert CountStatuses(all) == Bump(CountStatuses(sales), x.status);
    assert CountOf(all, status) == CountOf(sales, status) + (if x.status == status then 1 else 0);
    BumpStep(CountStatuses(sales), x.status, status);
  }

  /** One bump moves exactly one row's count, or opens a row. */
  lemma {:induction false} BumpStep(cs: seq<StatusCount>, s: string, status: string)
    ensures var r := Bump(cs, s);
            var k0 := FirstIndex(cs, StatusOf, status);
            var k := FirstIndex(r, StatusOf, status);
            (k >= 0 <==> k0 >= 0 || s == status)
            && (k >= 0 && k0 >= 0 ==> r[k].count == cs[k0].count + (if s == status then 1 else 0))
            && (k >= 0 && k0 < 0 ==> r[k].count == 1)
  {
    var i := FirstIndex(cs, StatusOf, s);
    if i < 0 {
      assert Bump(cs, s) == cs + [StatusCount(s, 1)];
      BumpNew(cs, s, status);
    } else {
      assert Bump(cs, s) == cs[i := cs[i].(count := cs[i].count + 1)];
      BumpOld(cs, s, status, i);
    }
  }

  lemma {:induction false} BumpNew(cs: seq<StatusCount>, s: string, status: string)
    requires FirstIndex(cs, StatusOf, s) < 0
    ensures var r := cs + [StatusCount(s, 1)];
            var k0 := FirstIndex(cs, StatusOf, status);
            var k := FirstIndex(r, StatusOf, status);
            (k >= 0 <==> k0 >= 0 || s == status)
            && (k >= 0 && k0 >= 0 ==> r[k].count == cs[k0].count + (if s == status then 1 else 0))
            && (k >= 0 && k0 < 0 ==> r[k].count == 1)
  {
    FirstIndexAppend(cs, StatusOf, status, StatusCount(s, 1));
    var k0 := FirstIndex(cs, StatusOf, status);
    if k0 >= 0 {
      assert cs[k0].status == status;
      assert (cs + [StatusCount(s, 1)])[k0] == cs[k0];
    }
  }

  lemma {:induction false} BumpOld(cs: seq<StatusCount>, s: string, status: string, i: nat)
    requires i < |cs| && FirstIndex(cs, StatusOf, s) == i
    ensures var r := cs[i := cs[i].(count := cs[i].count + 1)];
            var k0 := FirstIndex(cs, StatusOf, status);
            var k := FirstIndex(r, StatusOf, status);
            k == k0 && (k >= 0 ==> r[k].count == cs[k0].count + (if s == status then 1 else 0))
  {
    FirstIndexUpdate(cs, StatusOf, status, i, cs[i].(count := cs[i].count + 1));
    var k0 := FirstIndex(cs, StatusOf, status);
    if k0 >= 0 && s != status {
      assert cs[k0].status == status && cs[i].status == s;
    }
  }

  /** `toUpperCase` on one character, for the ASCII letters. */
  function UpperAscii(c: char): char
  {
    if 'a' <= c <= 'z' then (c as int - 32) as char else c
  }

  /** `s.charAt(0).toUpperCase() + s.slice(1)`. */
  function Capitalize(s: string): (r: string)
    ensures |r| == |s|
    ensures |s| > 0 ==> r[0] == UpperAscii(s[0]) && r[1..] == s[1..]
  {
    if |s| == 0 then "" else [UpperAscii(s[0])] + s[1..]
  }

  /** `getInvoiceStatusData`: the table's rows with capitalised labels. */
  function StatusData(sales: seq<Sale>): (r: seq<StatusCount>)
    ensures |r| == |CountStatuses(sales)|
    ensures forall k :: 0 <= k < |r| ==>
              r[k].count == CountStatuses(sales)[k].count && r[k].status == Capitalize(CountStatuses(sales)[k].status)
  {
    Relabel(CountStatuses(sales))
  }

  function Relabel(cs: seq<StatusCount>): (r: seq<StatusCount>)
    ensures |r| == |cs|
    ensures forall k :: 0 <= k < |r| ==> r[k] == StatusCount(Capitalize(cs[k].status), cs[k].count)
  {
    if |cs| == 0 then [] else [StatusCount(Capitalize(cs[0].status), cs[0].count)] + Relabel(cs[1..])
  }

  /** The chart always starts with Draft, Sent, Paid and Overdue, and its
      counts add up to the number of invoices. */
  lemma {:induction false} StatusDataShape(sales: seq<Sale>)
    ensures var r := StatusData(sales);
            |r| >= 4 && r[0].status == "Draft" && r[1].status == "Sent"
            && r[2].status == "Paid" && r[3].status == "Overdue"
            && SumCounts(r) == |sales|
  {
    StatusCountsSeeded(sales);
    StatusCountsSum(sales);
    SumCountsRelabel(CountStatuses(sales));
    SeededLabels();
  }

  lemma {:induction false} SeededLabels()
    ensures Capitalize("draft") == "Draft" && Capitalize("sent") == "Sent"
    ensures Capitalize("paid") == "Paid" && Capitalize("overdue") == "Overdue"
  {
    assert [UpperAscii('d')] + "raft" == "Draft";
    assert [UpperAscii('s')] + "ent" == "Sent";
    assert [UpperAscii('p')] + "aid" == "Paid";
    assert [UpperAscii('o')] + "verdue" == "Overdue";
  }

  lemma {:induction false} SumCountsRelabel(cs: seq<StatusCount>)
    ensures SumCounts(Relabel(cs)) == SumCounts(cs)
  {
    if |cs| > 0 {
      var n := |cs| - 1;
      SumCountsRelabel(cs[..n]);
      assert Relabel(cs)[..n] == Relabel(cs[..n]);
    }
  }

  // ---------------------------------------------------------------------
  // Overall statistics

  /** The invoice totals summed, as the `reduce` from 0 does. */
  function Revenue(sales: seq<Sale>): real
  {
    if |sales| == 0 then 0.0 else sales[0].total + Revenue(sales[1..])
  }

  predicate IsPaid(s: Sale) { s.status == "paid" }

  datatype Stats = Stats(totalRevenue: real, paidRevenue: real, averageInvoiceValue: real,
                         totalInvoices: nat, paidInvoices: nat)

  /** `getOverallStats`: the revenue over all invoices and over the paid
      ones, their counts, and the mean invoice value (0 for no invoices). */
  function OverallStats(sales: seq<Sale>): (r: Stats)
    ensures r.totalInvoices == |sales| && r.paidInvoices <= r.totalInvoices
    ensures r.totalRevenue == Revenue(sales)
    ensures r.paidRevenue == Revenue(Filter(sales, IsPaid)) && r.paidInvoices == |Filter(sales, IsPaid)|
    ensures |sales| > 0 ==> r.averageInvoiceValue * (|sales| as real) == r.totalRevenue
    ensures |sales| == 0 ==> r.averageInvoiceValue == 0.0 && r.totalRevenue == 0.0 && r.paidInvoices == 0
  {
    if |sales| == 0 then MakeStats(0.0, 0.0, 0, 0)
    else
      var paid := Filter(sales, IsPaid);
      MakeStats(Revenue(sales), Revenue(paid), |sales|, |paid|)
  }

  /** The record `getOverallStats` returns, with the mean invoice value
      `total / n`, or 0 when there are no invoices. */
  function MakeStats(total: real, paidTotal: real, n: nat, paidCount: nat): (r: Stats)
    ensures r.totalRevenue == total && r.paidRevenue == paidTotal
    ensures r.totalInvoices == n && r.paidInvoices == paidCount
    ensures n > 0 ==> r.averageInvoiceValue * (n as real) == total
    ensures n == 0 ==> r.averageInvoiceValue == 0.0
  {
    Stats(total, paidTotal, if n > 0 then total / (n as real) else 0.0, n, paidCount)
  }

  /** The paid invoices' revenue and the others' add up to the total. */
  lemma {:induction false} PaidAndUnpaidRevenue(sales: seq<Sale>)
    ensures Revenue(Filter(sales, IsPaid)) + Revenue(Filter(sales, IsUnpaid)) == Revenue(sales)
  {
    if |sales| > 0 {
      var x := sales[0];
      var p, u := Filter(sales[1..], IsPaid), Filter(sales[1..], IsUnpaid);
      PaidAndUnpaidRevenue(sales[1..]);
      if IsPaid(x) {
        assert Filter(sales, IsPaid) == [x] + p && Filter(sales, IsUnpaid) == u;
        assert ([x] + p)[1..] == p;
      } else {
        assert Filter(sales, IsPaid) == p && Filter(sales, IsUnpaid) == [x] + u;
        assert ([x] + u)[1..] == u;
      }
    }
  }

  predicate IsUnpaid(s: Sale) { !IsPaid(s) }

  /** With no negative invoice totals, the paid revenue lies between 0 and
      the total revenue. */
  lemma {:induction false} PaidRevenueBounded(sales: seq<Sale>)
    requires forall i :: 0 <= i < |sales| ==> sales[i].total >= 0.0
    ensures 0.0 <= OverallStats(sales).paidRevenue <= OverallStats(sales).totalRevenue
  {
    PaidAndUnpaidRevenue(sales);
    var unpaid := Filter(sales, IsUnpaid);
    RevenueNonNegative(Filter(sales, IsPaid));
    RevenueNonNegative(unpaid);
  }

  /** One more invoice adds its total to the revenue and one to the count;
      the paid figures move exactly when it is paid. */
  lemma {:induction false} OverallStatsAppend(sales: seq<Sale>, x: Sale)
    ensures var before, after := OverallStats(sales), OverallStats(sales + [x]);
            after.totalInvoices == before.totalInvoices + 1
            && after.totalRevenue == before.totalRevenue + x.total
            && after.paidInvoices == before.paidInvoices + (if IsPaid(x) then 1 else 0)
            && after.paidRevenue == before.paidRevenue + (if IsPaid(x) then x.total else 0.0)
  {
    RevenueAppend(sales, [x]);
    FilterAppend(sales, [x], IsPaid);
    var p := Filter(sales, IsPaid);
    if IsPaid(x) {
      assert Filter([x], IsPaid) == [x];
      RevenueAppend(p, [x]);
    } else {
      assert Filter([x], IsPaid) == [];
      assert p + [] == p;
    }
  }

  /** The revenue of a concatenation is the sum of the parts' revenues. */
  lemma {:induction false} RevenueAppend(a: seq<Sale>, b: seq<Sale>)
    ensures Revenue(a + b) == Revenue(a) + Revenue(b)
  {
    if |a| == 0 {
      assert a + b == b;
    } else {
      assert (a + b)[1..] == a[1..] + b;
      RevenueAppend(a[1..], b);
    }
  }

  lemma {:induction false} RevenueNonNegative(sales: seq<Sale>)
    requires forall x :: x in sales ==> x.total >= 0.0
    ensures Revenue(sales) >= 0.0
  {
    if |sales| > 0 {
      RevenueNonNegative(sales[1..]);
    }
  }

  // ---------------------------------------------------------------------
  // Revenue buckets

  datatype RevenueBucket = RevenueBucket(key: string, revenue: real)

  function KeyOf(b: RevenueBucket): string { b.key }

  /** `keyFor(m - 1), ..., keyFor(0)`: the `for (i = m - 1; i >= 0; i--)`
      loop, where `keyFor(i)` is the key of the day (month) `i` steps
      before now. */
  function Countdown(m: nat, keyFor: nat -> string): (r: seq<string>)
    ensures |r| == m
    ensures forall k :: 0 <= k < m ==> r[k] == keyFor(m - 1 - k)
  {
    if m == 0 then [] else [keyFor(m - 1)] + Countdown(m - 1, keyFor)
  }

  /** The keys seeded for the chosen period: seven days or twelve months. */
  function SeedKeys(daily: bool, keyFor: nat -> string): (r: seq<string>)
    ensures |r| == if daily then 7 else 12
  {
    Countdown(if daily then 7 else 12, keyFor)
  }

  /** `data[key] = 0` for each seeded key: a repeated key keeps its first
      position. */
  function Seed(keys: seq<string>): seq<RevenueBucket>
  {
    if |keys| == 0 then []
    else
      var acc := Seed(keys[..|keys| - 1]);
      var k := keys[|keys| - 1];
      if FirstIndex(acc, KeyOf, k) >= 0 then acc else acc + [RevenueBucket(k, 0.0)]
  }

  predicate DistinctKeys(bs: seq<RevenueBucket>)
  {
    forall i, j :: 0 <= i < j < |bs| ==> bs[i].key != bs[j].key
  }

  predicate Distinct(keys: seq<string>)
  {
    forall i, j :: 0 <= i < j < |keys| ==> keys[i] != keys[j]
  }

  /** With distinct keys the seeded table lists exactly those keys, in
      order, each at 0. */
  lemma {:induction false} SeedShape(keys: seq<string>)
    requires Distinct(keys)
    ensures |Seed(keys)| == |keys|
    ensures forall i :: 0 <= i < |keys| ==> Seed(keys)[i] == RevenueBucket(keys[i], 0.0)
  {
    if |keys| > 0 {
      var n := |keys| - 1;
      SeedShape(keys[..n]);
      var acc := Seed(keys[..n]);
      assert forall i :: 0 <= i < n ==> acc[i].key == keys[i];
      assert FirstIndex(acc, KeyOf, keys[n]) < 0;
    }
  }

  /** `if (data.hasOwnProperty(key)) data[key] += amount`. */
  function Credit(bs: seq<RevenueBucket>, key: string, amount: real): (r: seq<RevenueBucket>)
    ensures |r| == |bs|
    ensures forall i :: 0 <= i < |bs| ==> r[i].key == bs[i].key
  {
    var i := FirstIndex(bs, KeyOf, key);
    if i < 0 then bs else bs[i := bs[i].(revenue := bs[i].revenue + amount)]
  }

  /** The `forEach` that credits every sale to its bucket. */
  function CreditAll(bs: seq<RevenueBucket>, sales: seq<Sale>, keyOf: Sale -> string): (r: seq<RevenueBucket>)
    ensures |r| == |bs|
    ensures forall i :: 0 <= i < |bs| ==> r[i].key == bs[i].key
  {
    if |sales| == 0 then bs
    else
      var last := sales[|sales| - 1];
      Credit(CreditAll(bs, sales[..|sales| - 1], keyOf), keyOf(last), last.total)
  }

  /** The totals of the sales whose key is `key`. */
  function RevenueFor(sales: seq<Sale>, keyOf: Sale -> string, key: string): real
  {
    if |sales| == 0 then 0.0
    else
      var last := sales[|sales| - 1];
      RevenueFor(sales[..|sales| - 1], keyOf, key) + (if keyOf(last) == key then last.total else 0.0)
  }

  /** Each bucket gains exactly the totals of the sales with its key; a sale
      whose key has no bucket adds to none. */
  lemma {:induction false} CreditAllSums(bs: seq<RevenueBucket>, sales: seq<Sale>, keyOf: Sale -> string)
    requires DistinctKeys(bs)
    ensures forall i :: 0 <= i < |bs| ==>
              CreditAll(bs, sales, keyOf)[i].revenue == bs[i].revenue + RevenueFor(sales, keyOf, bs[i].key)
  {
    if |sales| > 0 {
      var n := |sales| - 1;
      CreditAllSums(bs, sales[..n], keyOf);
      var acc := CreditAll(bs, sales[..n], keyOf);
      var key := keyOf(sales[n]);
      var k := FirstIndex(acc, KeyOf, key);
      forall i | 0 <= i < |bs|
        ensures CreditAll(bs, sales, keyOf)[i].revenue == bs[i].revenue + RevenueFor(sales, keyOf, bs[i].key)
      {
        if k >= 0 && i != k {
          assert acc[i].key == bs[i].key && acc[k].key == bs[k].key;
        }
      }
    }
  }

  /** The chart before its labels are formatted: the seeded buckets, each
      credited with the sales inside the window that carry its key. */
  function Chart(keys: seq<string>, sales: seq<Sale>, inWindow: Sale -> bool, keyOf: Sale -> string)
    : seq<RevenueBucket>
  {
    CreditAll(Seed(keys), Filter(sales, inWindow), keyOf)
  }

  /** `date.toISOString().split('T')[0]`: the date part of an ISO
      timestamp. */
  function DateKey(iso: string): string { T.FirstSegment(iso, 'T') }

  /** The seeded key `i` steps before now: the date part of the ISO
      timestamp of `i` days ago, or the `YYYY-MM` key of `i` months ago. */
  function PeriodKey(daily: bool, isoDaysAgo: nat -> string, monthKeyAgo: nat -> string): nat -> string
  {
    if daily then (i: nat) => DateKey(isoDaysAgo(i)) else monthKeyAgo
  }

  /** The key a sale is credited under: in daily mode the stored
      `invoice.date` text itself, in monthly mode the `YYYY-MM` of the
      parsed date. */
  function SaleKey(daily: bool, monthOf: Sale -> string): Sale -> string
  {
    if daily then (s: Sale) => s.date else monthOf
  }

  /** `getRevenueData` before its labels are formatted. */
  function RevenueData(daily: bool, isoDaysAgo: nat -> string, monthKeyAgo: nat -> string, sales: seq<Sale>,
                       inWindow: Sale -> bool, monthOf: Sale -> string): seq<RevenueBucket>
  {
    Chart(SeedKeys(daily, PeriodKey(daily, isoDaysAgo, monthKeyAgo)), sales, inWindow, SaleKey(daily, monthOf))
  }

  /** With distinct period keys there are exactly seven (daily) or twelve
      (monthly) buckets, oldest first, and each holds exactly the revenue of
      the in-window sales with its key. */
  lemma {:induction false} RevenueDataBuckets(daily: bool, isoDaysAgo: nat -> string, monthKeyAgo: nat -> string,
                                              sales: seq<Sale>, inWindow: Sale -> bool, monthOf: Sale -> string)
    requires Distinct(SeedKeys(daily, PeriodKey(daily, isoDaysAgo, monthKeyAgo)))
    ensures var r := RevenueData(daily, isoDaysAgo, monthKeyAgo, sales, inWindow, monthOf);
            var keyFor := PeriodKey(daily, isoDaysAgo, monthKeyAgo);
            var m := if daily then 7 else 12;
            |r| == m
            && forall i :: 0 <= i < m ==>
                 r[i].key == keyFor(m - 1 - i)
                 && r[i].revenue == RevenueFor(Filter(sales, inWindow), SaleKey(daily, monthOf), keyFor(m - 1 - i))
  {
    var keys := SeedKeys(daily, PeriodKey(daily, isoDaysAgo, monthKeyAgo));
    SeedShape(keys);
    CreditAllSums(Seed(keys), Filter(sales, inWindow), SaleKey(daily, monthOf));
  }

  /** A sale whose key has no bucket leaves the chart as it was. */
  lemma {:induction false} UnseededSaleIgnored(keys: seq<string>, sales: seq<Sale>, s: Sale,
                                               inWindow: Sale -> bool, keyOf: Sale -> string)
    requires keyOf(s) !in keys
    ensures Chart(keys, sales + [s], inWindow, keyOf) == Chart(keys, sales, inWindow, keyOf)
  {
    var bs := Seed(keys);
    var f := Filter(sales, inWindow);
    var acc := CreditAll(bs, f, keyOf);
    FilterAppend(sales, [s], inWindow);
    if inWindow(s) {
      calc {
        Chart(keys, sales + [s], inWindow, keyOf);
        CreditAll(bs, Filter(sales + [s], inWindow), keyOf);
        { assert Filter(sales + [s], inWindow) == f + [s]; }
        CreditAll(bs, f + [s], keyOf);
        { assert (f + [s])[..|f|] == f; }
        Credit(acc, keyOf(s), s.total);
        { SeedKeysAbsent(keys, keyOf(s));
          SameKeysFirstIndex(acc, bs, keyOf(s)); }
        acc;
      }
    } else {
      assert Filter(sales + [s], inWindow) == f;
    }
  }

  /** No daily seed key contains a `T`: each is cut at the first one. */
  lemma {:induction false} DailyKeysHaveNoT(isoDaysAgo: nat -> string, monthKeyAgo: nat -> string, key: string)
    requires key in SeedKeys(true, PeriodKey(true, isoDaysAgo, monthKeyAgo))
    ensures 'T' !in key
  {
    var keys := SeedKeys(true, PeriodKey(true, isoDaysAgo, monthKeyAgo));
    var k :| 0 <= k < 7 && keys[k] == key;
    assert key == DateKey(isoDaysAgo(6 - k));
  }

  /** In daily mode an invoice whose stored date is a full ISO timestamp
      (`2025-01-15T10:30:00.000Z`, as the mobile page writes it) never
      reaches the chart: its key is compared with date-only keys. */
  lemma {:induction false} TimestampedSaleNotCharted(isoDaysAgo: nat -> string, monthKeyAgo: nat -> string,
                                                     sales: seq<Sale>, s: Sale, inWindow: Sale -> bool,
                                                     monthOf: Sale -> string)
    requires 'T' in s.date
    ensures RevenueData(true, isoDaysAgo, monthKeyAgo, sales + [s], inWindow, monthOf)
            == RevenueData(true, isoDaysAgo, monthKeyAgo, sales, inWindow, monthOf)
  {
    var keys := SeedKeys(true, PeriodKey(true, isoDaysAgo, monthKeyAgo));
    var keyOf := SaleKey(true, monthOf);
    assert keyOf(s) == s.date;
    if s.date in keys {
      DailyKeysHaveNoT(isoDaysAgo, monthKeyAgo, s.date);
      assert false;
    }
    UnseededSaleIgnored(keys, sales, s, inWindow, keyOf);
  }

  /** The daily key as evidently intended: the date part of the stored
      date, so that a timestamp and a plain date of the same day agree. */
  function SaleKeyByDay(daily: bool, monthOf: Sale -> string): Sale -> string
  {
    if daily then (s: Sale) => DateKey(s.date) else monthOf
  }

  /** The revenue chart with each sale credited under the date part of its
      date in daily mode. */
  function RevenueDataByDay(daily: bool, isoDaysAgo: nat -> string, monthKeyAgo: nat -> string, sales: seq<Sale>,
                            inWindow: Sale -> bool, monthOf: Sale -> string): seq<RevenueBucket>
  {
    Chart(SeedKeys(daily, PeriodKey(daily, isoDaysAgo, monthKeyAgo)), sales, inWindow, SaleKeyByDay(daily, monthOf))
  }

  /** With the date-part key, an in-window timestamped invoice adds its
      total to the bucket of its day. */
  lemma {:induction false} TimestampedSaleCharted(isoDaysAgo: nat -> string, monthKeyAgo: nat -> string,
                                                  sales: seq<Sale>, s: Sale, inWindow: Sale -> bool,
                                                  monthOf: Sale -> string, i: nat)
    requires Distinct(SeedKeys(true, PeriodKey(true, isoDaysAgo, monthKeyAgo)))
    requires i < 7 && inWindow(s) && DateKey(s.date) == DateKey(isoDaysAgo(6 - i))
    ensures |RevenueDataByDay(true, isoDaysAgo, monthKeyAgo, sales, inWindow, monthOf)| == 7
    ensures |RevenueDataByDay(true, isoDaysAgo, monthKeyAgo, sales + [s], inWindow, monthOf)| == 7
    ensures RevenueDataByDay(true, isoDaysAgo, monthKeyAgo, sales + [s], inWindow, monthOf)[i].revenue
            == RevenueDataByDay(true, isoDaysAgo, monthKeyAgo, sales, inWindow, monthOf)[i].revenue + s.total
  {
    var keys := SeedKeys(true, PeriodKey(true, isoDaysAgo, monthKeyAgo));
    var keyOf := SaleKeyByDay(true, monthOf);
    var f := Filter(sales, inWindow);
    SeedShape(keys);
    CreditAllSums(Seed(keys), f, keyOf);
    FilterAppend(sales, [s], inWindow);
    assert Filter(sales + [s], inWindow) == f + [s];
    CreditAllSums(Seed(keys), f + [s], keyOf);
    assert keys[i] == DateKey(isoDaysAgo(6 - i));
    assert keyOf(s) == keys[i];
    assert (f + [s])[..|f|] == f;
    assert RevenueFor(f + [s], keyOf, keys[i]) == RevenueFor(f, keyOf, keys[i]) + s.total;
  }

  /** On invoices stored with plain `YYYY-MM-DD` dates the corrected chart
      is the chart as written. */
  lemma {:induction false} ByDayAgreesOnPlainDates(daily: bool, isoDaysAgo: nat -> string, monthKeyAgo: nat -> string,
                                                   sales: seq<Sale>, inWindow: Sale -> bool, monthOf: Sale -> string)
    requires forall k :: 0 <= k < |sales| ==> 'T' !in sales[k].date
    ensures RevenueDataByDay(daily, isoDaysAgo, monthKeyAgo, sales, inWindow, monthOf)
            == RevenueData(daily, isoDaysAgo, monthKeyAgo, sales, inWindow, monthOf)
  {
    var f := Filter(sales, inWindow);
    forall x | x in f
      ensures SaleKeyByDay(daily, monthOf)(x) == SaleKey(daily, monthOf)(x)
    {
      if daily {
        T.FirstSegmentWhole(x.date, 'T');
      }
    }
    CreditAllSameKeys(Seed(SeedKeys(daily, PeriodKey(daily, isoDaysAgo, monthKeyAgo))), f,
                      SaleKeyByDay(daily, monthOf), SaleKey(daily, monthOf));
  }

  /** Two key functions that agree on every sale credit alike. */
  lemma {:induction false} CreditAllSameKeys(bs: seq<RevenueBucket>, sales: seq<Sale>, k1: Sale -> string,
                                             k2: Sale -> string)
    requires forall x :: x in sales ==> k1(x) == k2(x)
    ensures CreditAll(bs, sales, k1) == CreditAll(bs, sales, k2)
  {
    if |sales| > 0 {
      var n := |sales| - 1;
      assert forall x :: x in sales[..n] ==> x in sales;
      CreditAllSameKeys(bs, sales[..n], k1, k2);
      assert sales[n] in sales;
    }
  }

  /** Tables with the same keys in the same places find a key at the same
      place. */
  lemma {:induction false} SameKeysFirstIndex(a: seq<RevenueBucket>, b: seq<RevenueBucket>, key: string)
    requires |a| == |b| && forall i :: 0 <= i < |a| ==> a[i].key == b[i].key
    ensures FirstIndex(a, KeyOf, key) == FirstIndex(b, KeyOf, key)
  {
    var i, j := FirstIndex(a, KeyOf, key), FirstIndex(b, KeyOf, key);
    if i >= 0 && j >= 0 {
      assert !(i < j) && !(j < i);
    }
  }

  /** A key that is not seeded has no bucket. */
  lemma {:induction false} SeedKeysAbsent(keys: seq<string>, key: string)
    requires key !in keys
    ensures FirstIndex(Seed(keys), KeyOf, key) < 0
  {
    if |keys| > 0 {
      var n := |keys| - 1;
      SeedKeysAbsent(keys[..n], key);
      FirstIndexAppend(Seed(keys[..n]), KeyOf, key, RevenueBucket(keys[n], 0.0));
    }
  }
}
