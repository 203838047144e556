/**
 * The CEASA report page: the month and supplier filter, the total and average of the listed
 * purchases, the per-product and per-supplier summaries (largest total first) and the daily
 * totals behind the bar chart.
 */
module CeasaReports {
  import opened Wrappers
  import opened Text
  import opened Entities
  import opened Tally
  import Calendar
  import Sorting
  import CeasaPurchases

  predicate Kept(p: Purchase, month: string, supplier: string) {
    (month == "" || StartsWith(p.date, month)) && (supplier == "all" || p.supplierId == supplier)
  }

  /** `filteredPurchases`: exactly the purchases of the month (when one is set) and of the supplier (unless "all"). */
  function FilteredPurchases(purchases: seq<Purchase>, month: string, supplier: string): (r: seq<Purchase>)
    ensures forall i :: 0 <= i < |r| ==> r[i] in purchases && Kept(r[i], month, supplier)
    ensures forall i :: 0 <= i < |purchases| && Kept(purchases[i], month, supplier) ==> purchases[i] in r
  {
    Filter(purchases, (p: Purchase) => Kept(p, month, supplier))
  }

  /** `avgPurchase`: the total over the number of purchases, 0 for none. */
  function Average(rows: seq<Purchase>): (a: real)
    ensures rows == [] ==> a == 0.0
    ensures rows != [] ==> a * |rows| as real == CeasaPurchases.TotalPurchases(rows)
  {
    if |rows| > 0 then CeasaPurchases.TotalPurchases(rows) / |rows| as real else 0.0
  }

  // ----- Products -----

  /** Every line of every purchase, purchase by purchase (the two nested `forEach`). */
  function AllItems(rows: seq<Purchase>): (r: seq<Item>)
    ensures forall p, i :: p in rows && i in p.items ==> i in r
  {
    if rows == [] then [] else AllItems(rows[..|rows| - 1]) + rows[|rows| - 1].items
  }

  function ItemName(i: Item): string { i.productName }

  /** `item.quantity || 0`. */
  function Quantity(i: Item): real { OrDefault(i.quantity, 0.0) }

  /** One line of the inner `forEach`: create the product's entry if missing, then add the line to it. */
  method AddLine(summary0: map<string, (real, real)>, order0: seq<string>, item: Item)
    returns (summary: map<string, (real, real)>, order: seq<string>)
    ensures (summary, order) == AddTo(summary0, order0, item, ItemName, Quantity, TotalPrice)
  {
    summary, order := summary0, order0;
    LineStep(summary, order, item);
    var name := item.productName;
    if name !in summary {
      summary := summary[name := (0.0, 0.0)];
      order := order + [name];
    }
    summary := summary[name := (summary[name].0 + Quantity(item), summary[name].1 + item.totalPrice)];
  }

  /** The inner `forEach`: adds one purchase's lines to the summary built so far from `before`. */
  method AddLines(summary0: map<string, (real, real)>, order0: seq<string>, ghost before: seq<Item>, items: seq<Item>)
    returns (summary: map<string, (real, real)>, order: seq<string>)
    requires (summary0, order0) == Tallied(before, ItemName, Quantity, TotalPrice)
    ensures (summary, order) == Tallied(before + items, ItemName, Quantity, TotalPrice)
  {
    summary, order := summary0, order0;
    assert before + items[..0] == before;
    for j := 0 to |items|
      invariant (summary, order) == Tallied(before + items[..j], ItemName, Quantity, TotalPrice)
    {
      TalliedNext(before, items, j);
      summary, order := AddLine(summary, order, items[j]);
    }
    assert items[..|items|] == items;
  }

  /** The tally up to line `j + 1` is the tally up to line `j` with line `j` added. */
  lemma TalliedNext(before: seq<Item>, items: seq<Item>, j: int)
    requires 0 <= j < |items|
    ensures var r := Tallied(before + items[..j], ItemName, Quantity, TotalPrice);
            Tallied(before + items[..j + 1], ItemName, Quantity, TotalPrice)
            == AddTo(r.0, r.1, items[j], ItemName, Quantity, TotalPrice)
  {
    assert before + items[..j + 1] == (before + items[..j]) + [items[j]];
    TalliedLine(before + items[..j], items[j]);
  }

  /** The tally of one more line is the previous tally with that line added. */
  lemma TalliedLine(done: seq<Item>, item: Item)
    ensures var r := Tallied(done, ItemName, Quantity, TotalPrice);
            Tallied(done + [item], ItemName, Quantity, TotalPrice) == AddTo(r.0, r.1, item, ItemName, Quantity, TotalPrice)
  {
    assert (done + [item])[..|done|] == done;
  }

  /** The loop body's two updates (create the entry, then add to it) are one `AddTo` step. */
  lemma LineStep(m: map<string, (real, real)>, order: seq<string>, item: Item)
    ensures var name := item.productName;
            var m1 := if name in m then m else m[name := (0.0, 0.0)];
            var o1 := if name in m then order else order + [name];
            (m1[name := (m1[name].0 + Quantity(item), m1[name].1 + item.totalPrice)], o1)
              == AddTo(m, order, item, ItemName, Quantity, TotalPrice)
  {
    var name := item.productName;
    var m1 := if name in m then m else m[name := (0.0, 0.0)];
    assert m1[name := (m1[name].0 + Quantity(item), m1[name].1 + item.totalPrice)]
           == m[name := (m1[name].0 + Quantity(item), m1[name].1 + item.totalPrice)];
  }

  /** `productsSummary`: per product name, the quantity and the total of its lines, names in the order first seen. */
  method ProductsSummary(rows: seq<Purchase>) returns (summary: map<string, (real, real)>, order: seq<string>)
    ensures Tallies(AllItems(rows), ItemName, Quantity, TotalPrice, summary, order)
  {
    summary, order := map[], [];
    for i := 0 to |rows|
      invariant (summary, order) == Tallied(AllItems(rows[..i]), ItemName, Quantity, TotalPrice)
    {
      summary, order := AddLines(summary, order, AllItems(rows[..i]), rows[i].items);
      assert rows[..i + 1][..i] == rows[..i];
    }
    assert rows[..|rows|] == rows;
    TalliedTallies(AllItems(rows), ItemName, Quantity, TotalPrice);
  }

  datatype ProductRow = ProductRow(name: string, quantity: real, total: real)

  function ProductTotal(r: ProductRow): real { r.total }

  /** `Object.values(productsSummary)`: one row per name, in the order first seen. */
  function ProductRows(summary: map<string, (real, real)>, order: seq<string>): (r: seq<ProductRow>)
    requires forall k :: k in order ==> k in summary
    ensures |r| == |order|
    ensures forall i :: 0 <= i < |r| ==> r[i] == ProductRow(order[i], summary[order[i]].0, summary[order[i]].1)
  {
    seq(|order|, i requires 0 <= i < |order| => ProductRow(order[i], summary[order[i]].0, summary[order[i]].1))
  }

  /** The rows' totals add up to the totals of their names' lines. */
  lemma {:induction false} ProductRowsSum(xs: seq<Item>, summary: map<string, (real, real)>, order: seq<string>)
    requires forall k :: k in order ==> k in summary
    requires forall k :: k in summary ==> summary[k].1 == GroupSum(xs, ItemName, TotalPrice, k)
    ensures Sum(ProductRows(summary, order), ProductTotal) == SumOverKeys(xs, ItemName, TotalPrice, order)
  {
    if order != [] {
      var init := order[..|order| - 1];
      ProductRowsSum(xs, summary, init);
      assert ProductRows(summary, order)[..|order| - 1] == ProductRows(summary, init);
    }
  }

  /** Every row of the summary is one product name's quantity and total. */
  lemma ProductRowsFrom(xs: seq<Item>, summary: map<string, (real, real)>, order: seq<string>)
    requires Tallies(xs, ItemName, Quantity, TotalPrice, summary, order)
    ensures forall row :: row in ProductRows(summary, order) ==>
              row.name in Keys(xs, ItemName)
              && row.quantity == GroupSum(xs, ItemName, Quantity, row.name)
              && row.total == GroupSum(xs, ItemName, TotalPrice, row.name)
  {
  }

  /** Every product name has its row. */
  lemma ProductRowsCover(xs: seq<Item>, summary: map<string, (real, real)>, order: seq<string>)
    requires Tallies(xs, ItemName, Quantity, TotalPrice, summary, order)
    ensures forall k :: k in Keys(xs, ItemName) ==> exists row :: row in ProductRows(summary, order) && row.name == k
  {
    var rows := ProductRows(summary, order);
    forall k | k in Keys(xs, ItemName)
      ensures exists row :: row in rows && row.name == k
    {
      var i :| 0 <= i < |order| && order[i] == k;
      assert rows[i] in rows;
    }
  }

  /**
   * `productsData`: one row per product name with its quantity and total, largest total first;
   * the rows' totals add up to the total of all lines.
   */
  method ProductsData(rows: seq<Purchase>) returns (r: seq<ProductRow>)
    ensures Sorting.SortedDesc(r, ProductTotal)
    ensures |r| == |Keys(AllItems(rows), ItemName)|
    ensures forall row :: row in r ==>
              row.name in Keys(AllItems(rows), ItemName)
              && row.quantity == GroupSum(AllItems(rows), ItemName, Quantity, row.name)
              && row.total == GroupSum(AllItems(rows), ItemName, TotalPrice, row.name)
    ensures forall k :: k in Keys(AllItems(rows), ItemName) ==> exists row :: row in r && row.name == k
    ensures Sum(r, ProductTotal) == Sum(AllItems(rows), TotalPrice)
  {
    var summary, order := ProductsSummary(rows);
    var values := ProductRows(summary, order);
    ProductRowsFrom(AllItems(rows), summary, order);
    ProductRowsCover(AllItems(rows), summary, order);
    ProductRowsSum(AllItems(rows), summary, order);
    GroupsAddUp(AllItems(rows), ItemName, TotalPrice);
    r := Sorting.SortDesc(values, ProductTotal);
    Sorting.SortKeepsAll(values, ProductTotal);
    SumPermutation(r, values, ProductTotal);
  }

  // ----- Suppliers -----

  function SupplierName(p: Purchase): string { p.supplierName }

  function One(p: Purchase): real { 1.0 }

  /** `supplierSummary`: per supplier name, the total and the number of its purchases. */
  method SupplierSummary(rows: seq<Purchase>) returns (summary: map<string, (real, real)>, order: seq<string>)
    ensures Tallies(rows, SupplierName, TotalAmount, One, summary, order)
  {
    summary, order := map[], [];
    for i := 0 to |rows|
      invariant (summary, order) == Tallied(rows[..i], SupplierName, TotalAmount, One)
    {
      var p := rows[i];
      assert rows[..i + 1][..i] == rows[..i];
      ghost var base := summary;
      if p.supplierName !in summary {
        summary := summary[p.supplierName := (0.0, 0.0)];
        order := order + [p.supplierName];
      }
      summary := summary[p.supplierName := (summary[p.supplierName].0 + p.totalAmount, summary[p.supplierName].1 + 1.0)];
      assert summary == base[p.supplierName := summary[p.supplierName]];
    }
    assert rows[..|rows|] == rows;
    TalliedTallies(rows, SupplierName, TotalAmount, One);
  }

  /** A supplier's row; `count` is a JavaScript number, so a `real`. */
  datatype SupplierRow = SupplierRow(name: string, total: real, count: real)

  function SupplierTotal(r: SupplierRow): real { r.total }

  function SupplierCount(r: SupplierRow): real { r.count }

  function SupplierRows(summary: map<string, (real, real)>, order: seq<string>): (r: seq<SupplierRow>)
    requires forall k :: k in order ==> k in summary
    ensures |r| == |order|
    ensures forall i :: 0 <= i < |r| ==> r[i] == SupplierRow(order[i], summary[order[i]].0, summary[order[i]].1)
  {
    seq(|order|, i requires 0 <= i < |order| => SupplierRow(order[i], summary[order[i]].0, summary[order[i]].1))
  }

  /** The rows' totals and counts add up to those of their suppliers' purchases. */
  lemma {:induction false} SupplierRowsSum(xs: seq<Purchase>, summary: map<string, (real, real)>, order: seq<string>)
    requires forall k :: k in order ==> k in summary
    requires forall k :: k in summary ==>
               summary[k] == (GroupSum(xs, SupplierName, TotalAmount, k), GroupSum(xs, SupplierName, One, k))
    ensures Sum(SupplierRows(summary, order), SupplierTotal) == SumOverKeys(xs, SupplierName, TotalAmount, order)
    ensures Sum(SupplierRows(summary, order), SupplierCount) == SumOverKeys(xs, SupplierName, One, order)
  {
    if order != [] {
      var init := order[..|order| - 1];
      SupplierRowsSum(xs, summary, init);
      assert SupplierRows(summary, order)[..|order| - 1] == SupplierRows(summary, init);
    }
  }

  lemma SupplierRowsFrom(xs: seq<Purchase>, summary: map<string, (real, real)>, order: seq<string>)
    requires Tallies(xs, SupplierName, TotalAmount, One, summary, order)
    ensures forall row :: row in SupplierRows(summary, order) ==>
              row.name in Keys(xs, SupplierName)
              && row.total == GroupSum(xs, SupplierName, TotalAmount, row.name)
              && row.count == GroupSum(xs, SupplierName, One, row.name)
  {
  }

  /**
   * `supplierData`: one row per supplier name, largest total first; the totals add up to the
   * purchases' total and the counts to the number of purchases.
   */
  method SupplierData(rows: seq<Purchase>) returns (r: seq<SupplierRow>)
    ensures Sorting.SortedDesc(r, SupplierTotal)
    ensures |r| == |Keys(rows, SupplierName)|
    ensures forall row :: row in r ==>
              row.name in Keys(rows, SupplierName)
              && row.total == GroupSum(rows, SupplierName, TotalAmount, row.name)
              && row.count == GroupSum(rows, SupplierName, One, row.name)
    ensures Sum(r, SupplierTotal) == CeasaPurchases.TotalPurchases(rows)
    ensures Sum(r, SupplierCount) == |rows| as real
  {
    var summary, order := SupplierSummary(rows);
    var values := SupplierRows(summary, order);
    SupplierRowsFrom(rows, summary, order);
    SupplierRowsSum(rows, summary, order);
    GroupsAddUp(rows, SupplierName, TotalAmount);
    GroupsAddUp(rows, SupplierName, One);
    SumOfOnes(rows, One);
    r := Sorting.SortDesc(values, SupplierTotal);
    Sorting.SortKeepsAll(values, SupplierTotal);
    SumPermutation(r, values, SupplierTotal);
    SumPermutation(r, values, SupplierCount);
  }

  // ----- Daily totals -----

  /** `moment(date).format("DD/MM")`, or moment's "Invalid date" for a text that is not a date. */
  function DayKey(p: Purchase): (k: string)
    ensures Calendar.ParseIso(p.date).None? ==> k == Calendar.InvalidDateText
    ensures Calendar.ParseIso(p.date).Some? ==>
              |k| == 5 && k[2] == '/' && k[..2] == Pad2(Calendar.ParseIso(p.date).value.day)
              && k[3..] == Pad2(Calendar.ParseIso(p.date).value.month)
  {
    match Calendar.ParseIso(p.date)
    case Some(d) => Pad2(d.day) + "/" + Pad2(d.month)
    case None => Calendar.InvalidDateText
  }

  /** `dailyData`: per day key, the total of that day's purchases, keys in the order first seen. */
  method DailyData(rows: seq<Purchase>) returns (daily: map<string, real>, order: seq<string>)
    ensures Totals(rows, DayKey, TotalAmount, daily, order)
  {
    daily, order := map[], [];
    for i := 0 to |rows|
      invariant (daily, order) == Totalled(rows[..i], DayKey, TotalAmount)
    {
      var p := rows[i];
      assert rows[..i + 1][..i] == rows[..i];
      var day := DayKey(p);
      ghost var base := daily;
      if day !in daily {
        daily := daily[day := 0.0];
        order := order + [day];
      }
      daily := daily[day := daily[day] + p.totalAmount];
      assert daily == base[day := daily[day]];
    }
    assert rows[..|rows|] == rows;
    TotalledTotals(rows, DayKey, TotalAmount);
  }

  datatype DayTotal = DayTotal(day: string, total: real)

  /** `xs.slice(-n)`: the last `n` elements, or all of them when there are fewer. */
  function LastN<T>(xs: seq<T>, n: nat): (r: seq<T>)
    ensures |r| == if |xs| < n then |xs| else n
    ensures r == xs[|xs| - |r|..]
  {
    if |xs| <= n then xs else xs[|xs| - n..]
  }

  /** `chartData`: the last 15 days in the order first seen, each with its total. */
  function ChartData(daily: map<string, real>, order: seq<string>): (r: seq<DayTotal>)
    requires forall k :: k in order ==> k in daily
    ensures |r| <= 15 && |r| <= |order|
    ensures |order| >= 15 ==> |r| == 15
    ensures forall i :: 0 <= i < |r| ==> r[i] == DayTotal(order[|order| - |r| + i], daily[order[|order| - |r| + i]])
  {
    LastN(seq(|order|, i requires 0 <= i < |order| => DayTotal(order[i], daily[order[i]])), 15)
  }

  /** Each bar of the chart is one day of the list with that day's total. */
  lemma ChartDataFrom(rows: seq<Purchase>, daily: map<string, real>, order: seq<string>)
    requires Totals(rows, DayKey, TotalAmount, daily, order)
    ensures forall e :: e in ChartData(daily, order) ==>
              e.day in Keys(rows, DayKey) && e.total == GroupSum(rows, DayKey, TotalAmount, e.day)
  {
  }
}
