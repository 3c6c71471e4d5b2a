/**
 * The reports view: revenue and average ticket, sales grouped by product and
 * by size, the five best-selling products, and the last seven days' rollup.
 * Every report is a fold over the current sale ledger and changes nothing.
 */
module Reports {
  import opened Types
  import opened Sequences

  // ---------------------------------------------------------------------------
  // Average ticket

  /** `totalSales > 0 ? totalRevenue / totalSales : 0`. */
  function AverageTicket(sales: seq<Sale>): (avg: real)
    ensures |sales| == 0 ==> avg == 0.0
    ensures |sales| > 0 ==> avg * (|sales| as real) == TotalRevenue(sales)
  {
    if |sales| > 0 then TotalRevenue(sales) / (|sales| as real) else 0.0
  }

  lemma {:induction false} RevenueBounds(sales: seq<Sale>, lo: real, hi: real)
    requires forall i :: 0 <= i < |sales| ==> lo <= sales[i].totalPrice <= hi
    ensures (|sales| as real) * lo <= TotalRevenue(sales) <= (|sales| as real) * hi
  {
    if sales != [] {
      RevenueBounds(sales[..|sales| - 1], lo, hi);
    }
  }

  /** The average ticket lies between the cheapest and the dearest sale. */
  lemma AverageTicketBounds(sales: seq<Sale>, lo: real, hi: real)
    requires |sales| > 0
    requires forall i :: 0 <= i < |sales| ==> lo <= sales[i].totalPrice <= hi
    ensures lo <= AverageTicket(sales) <= hi
  {
    RevenueBounds(sales, lo, hi);
    var n := |sales| as real;
    var avg := AverageTicket(sales);
    assert (avg - lo) * n >= 0.0;
    assert (hi - avg) * n >= 0.0;
  }

  // ---------------------------------------------------------------------------
  // Sales grouped by product

  datatype ProductTotals = ProductTotals(productId: Id, productName: string, quantity: int, revenue: real)

  predicate Sold(sales: seq<Sale>, id: Id)
  {
    exists i :: 0 <= i < |sales| && sales[i].productId == id
  }

  /** The product ids that occur in `sales`, each once, in order of first occurrence. */
  function SoldProducts(sales: seq<Sale>): (ids: seq<Id>)
    ensures forall id :: id in ids <==> Sold(sales, id)
    ensures forall i, j :: 0 <= i < j < |ids| ==> ids[i] != ids[j]
  {
    if sales == [] then []
    else
      var init := sales[..|sales| - 1];
      var ids := SoldProducts(init);
      var id := sales[|sales| - 1].productId;
      assert forall x :: Sold(init, x) ==> Sold(sales, x) by {
        forall x | Sold(init, x) ensures Sold(sales, x) {
          var i :| 0 <= i < |init| && init[i].productId == x;
          assert sales[i] == init[i];
        }
      }
      assert forall x :: Sold(sales, x) ==> Sold(init, x) || x == id by {
        forall x | Sold(sales, x) ensures Sold(init, x) || x == id {
          var i :| 0 <= i < |sales| && sales[i].productId == x;
          if i < |init| { assert init[i] == sales[i]; }
        }
      }
      if id in ids then ids else ids + [id]
  }

  /** Units of product `id` in the ledger. */
  function QuantityOf(sales: seq<Sale>, id: Id): int
  {
    if sales == [] then 0
    else
      var last := sales[|sales| - 1];
      QuantityOf(sales[..|sales| - 1], id) + (if last.productId == id then last.quantity else 0)
  }

  /** Revenue of product `id` in the ledger. */
  function RevenueOf(sales: seq<Sale>, id: Id): real
  {
    if sales == [] then 0.0
    else
      var last := sales[|sales| - 1];
      RevenueOf(sales[..|sales| - 1], id) + (if last.productId == id then last.totalPrice else 0.0)
  }

  /** The product name recorded by the earliest sale of `id`. */
  function FirstName(sales: seq<Sale>, id: Id): string
  {
    if sales == [] then ""
    else if sales[0].productId == id then sales[0].productName
    else FirstName(sales[1..], id)
  }

  /**
   * What the `productSales` dictionary holds, in the order `Object.values`
   * lists it: one entry per product sold, in order of first sale, with the
   * name of its first sale and the sums of its quantities and revenues.
   */
  function ProductSales(sales: seq<Sale>): seq<ProductTotals>
  {
    var ids := SoldProducts(sales);
    seq(|ids|, k requires 0 <= k < |ids| =>
      ProductTotals(ids[k], FirstName(sales, ids[k]), QuantityOf(sales, ids[k]), RevenueOf(sales, ids[k])))
  }

  lemma {:induction false} UnsoldHasNoTotals(sales: seq<Sale>, id: Id)
    requires !Sold(sales, id)
    ensures QuantityOf(sales, id) == 0 && RevenueOf(sales, id) == 0.0
  {
    if sales != [] {
      UnsoldHasNoTotals(sales[..|sales| - 1], id);
    }
  }

  lemma {:induction false} FirstNameOfAppend(sales: seq<Sale>, x: Sale, id: Id)
    ensures FirstName(sales + [x], id) ==
            if Sold(sales, id) then FirstName(sales, id)
            else if x.productId == id then x.productName
            else ""
  {
    if sales == [] {
      assert [x][1..] == [];
    } else {
      assert (sales + [x])[1..] == sales[1..] + [x];
      FirstNameOfAppend(sales[1..], x, id);
      if sales[0].productId != id {
        assert Sold(sales, id) <==> Sold(sales[1..], id) by {
          if Sold(sales, id) {
            var i :| 0 <= i < |sales| && sales[i].productId == id;
            assert sales[1..][i - 1] == sales[i];
          }
          if Sold(sales[1..], id) {
            var i :| 0 <= i < |sales[1..]| && sales[1..][i].productId == id;
            assert sales[i + 1] == sales[1..][i];
          }
        }
      }
    }
  }

  /**
   * One step of the reduce: the entry for the sale's product, found at index
   * `k` or created empty at the end, receives the sale's quantity and revenue.
   */
  lemma ProductSalesOfAppend(sales: seq<Sale>, x: Sale, k: int)
    requires 0 <= k <= |ProductSales(sales)|
    requires forall j :: 0 <= j < k ==> ProductSales(sales)[j].productId != x.productId
    requires k < |ProductSales(sales)| ==> ProductSales(sales)[k].productId == x.productId
    ensures var g := ProductSales(sales);
            var h := if k < |g| then g else g + [ProductTotals(x.productId, x.productName, 0, 0.0)];
            ProductSales(sales + [x]) ==
              h[k := h[k].(quantity := h[k].quantity + x.quantity, revenue := h[k].revenue + x.totalPrice)]
  {
    var s' := sales + [x];
    assert s'[..|s'| - 1] == sales;
    var ids := SoldProducts(sales);
    var g := ProductSales(sales);
    var h := if k < |g| then g else g + [ProductTotals(x.productId, x.productName, 0, 0.0)];
    var want := h[k := h[k].(quantity := h[k].quantity + x.quantity, revenue := h[k].revenue + x.totalPrice)];
    var got := ProductSales(s');
    if k < |g| {
      assert x.productId in ids;
    } else {
      forall j | 0 <= j < |ids|
        ensures ids[j] != x.productId
      {
        assert g[j].productId == ids[j];
      }
    }
    assert |got| == |want|;
    forall j | 0 <= j < |ids|
      ensures got[j] == want[j]
    {
      FirstNameOfAppend(sales, x, ids[j]);
      assert Sold(sales, ids[j]);
    }
    if k == |g| {
      assert !Sold(sales, x.productId);
      UnsoldHasNoTotals(sales, x.productId);
      FirstNameOfAppend(sales, x, x.productId);
      assert got[k] == want[k];
    }
  }

  /**
   * The `productSales` reduce: for each sale, find its product's entry (or
   * create it with zero sums) and add the sale's quantity and revenue to it.
   */
  method TallyProductSales(sales: seq<Sale>) returns (acc: seq<ProductTotals>)
    ensures acc == ProductSales(sales)
  {
    acc := [];
    var i := 0;
    while i < |sales|
      invariant 0 <= i <= |sales|
      invariant acc == ProductSales(sales[..i])
    {
      var sale := sales[i];
      var k := 0;
      while k < |acc| && acc[k].productId != sale.productId
        invariant 0 <= k <= |acc|
        invariant forall j :: 0 <= j < k ==> acc[j].productId != sale.productId
      {
        k := k + 1;
      }
      ProductSalesOfAppend(sales[..i], sale, k);
      if k == |acc| {
        acc := acc + [ProductTotals(sale.productId, sale.productName, 0, 0.0)];
      }
      acc := acc[k := acc[k].(quantity := acc[k].quantity + sale.quantity,
                              revenue := acc[k].revenue + sale.totalPrice)];
      assert sales[..i + 1] == sales[..i] + [sale];
      i := i + 1;
    }
    assert sales[..i] == sales;
  }

  function SumQuantities(gs: seq<ProductTotals>): int
  {
    if gs == [] then 0 else SumQuantities(gs[..|gs| - 1]) + gs[|gs| - 1].quantity
  }

  function SumRevenues(gs: seq<ProductTotals>): real
  {
    if gs == [] then 0.0 else SumRevenues(gs[..|gs| - 1]) + gs[|gs| - 1].revenue
  }

  lemma {:induction false} SumsOfUpdate(gs: seq<ProductTotals>, k: int, t: ProductTotals)
    requires 0 <= k < |gs|
    ensures SumQuantities(gs[k := t]) == SumQuantities(gs) - gs[k].quantity + t.quantity
    ensures SumRevenues(gs[k := t]) == SumRevenues(gs) - gs[k].revenue + t.revenue
  {
    var n := |gs| - 1;
    if k == n {
      assert gs[k := t][..n] == gs[..n];
    } else {
      assert gs[k := t][..n] == gs[..n][k := t];
      SumsOfUpdate(gs[..n], k, t);
    }
  }

  /** Where the reduce's search for `id` stops: at its entry, or past the end when there is none. */
  lemma EntryIndex(sales: seq<Sale>, id: Id) returns (k: int)
    ensures 0 <= k <= |ProductSales(sales)|
    ensures forall j :: 0 <= j < k ==> ProductSales(sales)[j].productId != id
    ensures k < |ProductSales(sales)| ==> ProductSales(sales)[k].productId == id
  {
    var ids := SoldProducts(sales);
    if id in ids {
      k :| 0 <= k < |ids| && ids[k] == id;
    } else {
      k := |ids|;
    }
  }

  /** One step of the reduce adds the sale's quantity and revenue to the sums of the entries. */
  lemma SumsOfStep(g: seq<ProductTotals>, x: Sale, k: int)
    requires 0 <= k <= |g|
    ensures var h := if k < |g| then g else g + [ProductTotals(x.productId, x.productName, 0, 0.0)];
            var g' := h[k := h[k].(quantity := h[k].quantity + x.quantity, revenue := h[k].revenue + x.totalPrice)];
            && SumQuantities(g') == SumQuantities(g) + x.quantity
            && SumRevenues(g') == SumRevenues(g) + x.totalPrice
  {
    var h := if k < |g| then g else g + [ProductTotals(x.productId, x.productName, 0, 0.0)];
    if k == |g| {
      assert h[..|h| - 1] == g;
    }
    SumsOfUpdate(h, k, h[k].(quantity := h[k].quantity + x.quantity, revenue := h[k].revenue + x.totalPrice));
  }

  /** Grouping by product loses and invents nothing: the entries add up to the ledger's totals. */
  lemma {:induction false} ProductSalesAddUp(sales: seq<Sale>)
    ensures SumQuantities(ProductSales(sales)) == TotalQuantity(sales)
    ensures SumRevenues(ProductSales(sales)) == TotalRevenue(sales)
  {
    if sales != [] {
      var init := sales[..|sales| - 1];
      var x := sales[|sales| - 1];
      assert sales == init + [x];
      ProductSalesAddUp(init);
      ProductSalesStepSums(init, x);
    }
  }

  /** Recording one more sale adds its quantity and revenue to the sums of the entries. */
  lemma ProductSalesStepSums(sales: seq<Sale>, x: Sale)
    ensures SumQuantities(ProductSales(sales + [x])) == SumQuantities(ProductSales(sales)) + x.quantity
    ensures SumRevenues(ProductSales(sales + [x])) == SumRevenues(ProductSales(sales)) + x.totalPrice
  {
    var k := EntryIndex(sales, x.productId);
    ProductSalesOfAppend(sales, x, k);
    SumsOfStep(ProductSales(sales), x, k);
  }

  /** Each entry holds the sums of exactly its product's sales, under the name of its first sale. */
  lemma ProductSalesEntries(sales: seq<Sale>, k: int)
    requires 0 <= k < |ProductSales(sales)|
    ensures var e := ProductSales(sales)[k];
            && Sold(sales, e.productId)
            && e.quantity == QuantityOf(sales, e.productId)
            && e.revenue == RevenueOf(sales, e.productId)
            && e.productName == FirstName(sales, e.productId)
            && forall j :: 0 <= j < |ProductSales(sales)| && j != k ==> ProductSales(sales)[j].productId != e.productId
  {
    assert SoldProducts(sales)[k] in SoldProducts(sales);
  }

  // ---------------------------------------------------------------------------
  // The five best-selling products

  const TopCount := 5

  predicate NonIncreasing(gs: seq<ProductTotals>)
  {
    forall i, j :: 0 <= i < j < |gs| ==> gs[i].quantity >= gs[j].quantity
  }

  /** Insertion into a list sorted by non-increasing quantity; an entry goes before its equals. */
  function InsertByQuantity(g: ProductTotals, sorted: seq<ProductTotals>): (r: seq<ProductTotals>)
    ensures multiset(r) == multiset(sorted) + multiset{g}
  {
    if sorted == [] || g.quantity >= sorted[0].quantity then [g] + sorted
    else
      assert sorted == [sorted[0]] + sorted[1..];
      [sorted[0]] + InsertByQuantity(g, sorted[1..])
  }

  lemma {:induction false} InsertKeepsOrder(g: ProductTotals, sorted: seq<ProductTotals>)
    requires NonIncreasing(sorted)
    ensures NonIncreasing(InsertByQuantity(g, sorted))
  {
    if sorted != [] && g.quantity < sorted[0].quantity {
      var rest := InsertByQuantity(g, sorted[1..]);
      InsertKeepsOrder(g, sorted[1..]);
      forall j | 0 <= j < |rest|
        ensures rest[j].quantity <= sorted[0].quantity
      {
        assert rest[j] in multiset(rest);
        if rest[j] != g {
          assert rest[j] in sorted[1..];
        }
      }
    }
  }

  /** `.sort((a, b) => b.quantity - a.quantity)`: a stable sort by non-increasing quantity. */
  function SortByQuantity(gs: seq<ProductTotals>): (r: seq<ProductTotals>)
    ensures multiset(r) == multiset(gs)
    ensures NonIncreasing(r)
  {
    if gs == [] then []
    else
      assert gs == [gs[0]] + gs[1..];
      var sortedRest := SortByQuantity(gs[1..]);
      InsertKeepsOrder(gs[0], sortedRest);
      InsertByQuantity(gs[0], sortedRest)
  }

  /** `topProducts`: the first five entries of the sorted groups. */
  function TopProducts(sales: seq<Sale>): seq<ProductTotals>
  {
    var sorted := SortByQuantity(ProductSales(sales));
    sorted[..Min(TopCount, |sorted|)]
  }

  /**
   * At most five entries, sorted by non-increasing quantity, each one a group
   * of `productSales`; and no group left out sold more than the last one shown.
   */
  lemma TopProductsAreTheBest(sales: seq<Sale>)
    ensures var top := TopProducts(sales);
            && |top| == Min(TopCount, |ProductSales(sales)|)
            && NonIncreasing(top)
            && multiset(top) <= multiset(ProductSales(sales))
            && (forall e :: e in top ==> e in ProductSales(sales))
            && (forall e :: e in ProductSales(sales) && e !in top ==>
                  |top| == TopCount && e.quantity <= top[TopCount - 1].quantity)
  {
    var groups := ProductSales(sales);
    var sorted := SortByQuantity(groups);
    var top := TopProducts(sales);
    PrefixMultiset(sorted, Min(TopCount, |sorted|));
    assert |sorted| == |groups| by {
      assert |multiset(sorted)| == |multiset(groups)|;
    }
    forall e | e in top
      ensures e in groups
    {
      assert e in multiset(sorted);
    }
    forall e | e in groups && e !in top
      ensures |top| == TopCount && e.quantity <= top[TopCount - 1].quantity
    {
      assert e in multiset(groups);
      assert e in multiset(sorted);
      var j :| 0 <= j < |sorted| && sorted[j] == e;
    }
  }

  // ---------------------------------------------------------------------------
  // Sales grouped by size

  datatype SizeTotals = SizeTotals(quantity: int, revenue: real)

  predicate SizeSold(sales: seq<Sale>, z: Size)
  {
    exists i :: 0 <= i < |sales| && sales[i].size == z
  }

  function QuantityOfSize(sales: seq<Sale>, z: Size): int
  {
    if sales == [] then 0
    else
      var last := sales[|sales| - 1];
      QuantityOfSize(sales[..|sales| - 1], z) + (if last.size == z then last.quantity else 0)
  }

  function RevenueOfSize(sales: seq<Sale>, z: Size): real
  {
    if sales == [] then 0.0
    else
      var last := sales[|sales| - 1];
      RevenueOfSize(sales[..|sales| - 1], z) + (if last.size == z then last.totalPrice else 0.0)
  }

  /**
   * The `sizeSales` reduce: a key exactly for the sizes that were sold, each
   * holding the sums of that size's quantities and revenues.
   */
  method TallySizeSales(sales: seq<Sale>) returns (acc: map<Size, SizeTotals>)
    ensures forall z :: z in acc <==> SizeSold(sales, z)
    ensures forall z :: z in acc ==> acc[z] == SizeTotals(QuantityOfSize(sales, z), RevenueOfSize(sales, z))
  {
    acc := map[];
    var i := 0;
    while i < |sales|
      invariant 0 <= i <= |sales|
      invariant forall z :: z in acc <==> SizeSold(sales[..i], z)
      invariant forall z :: z in acc ==> acc[z] == SizeTotals(QuantityOfSize(sales[..i], z), RevenueOfSize(sales[..i], z))
    {
      var sale := sales[i];
      TallySizeStep(sales, i);
      if sale.size !in acc {
        acc := acc[sale.size := SizeTotals(0, 0.0)];
      }
      acc := acc[sale.size := SizeTotals(acc[sale.size].quantity + sale.quantity,
                                         acc[sale.size].revenue + sale.totalPrice)];
      UnsoldSizeHasNoTotals(sales[..i], sale.size);
      i := i + 1;
    }
    assert sales[..i] == sales;
  }

  /** One more sale: its size becomes sold and its sums grow by that sale alone. */
  lemma TallySizeStep(sales: seq<Sale>, i: int)
    requires 0 <= i < |sales|
    ensures forall z :: SizeSold(sales[..i + 1], z) <==> SizeSold(sales[..i], z) || z == sales[i].size
    ensures forall z :: QuantityOfSize(sales[..i + 1], z)
                        == QuantityOfSize(sales[..i], z) + (if sales[i].size == z then sales[i].quantity else 0)
    ensures forall z :: RevenueOfSize(sales[..i + 1], z)
                        == RevenueOfSize(sales[..i], z) + (if sales[i].size == z then sales[i].totalPrice else 0.0)
  {
    var prefix := sales[..i + 1];
    assert prefix[..i] == sales[..i] && prefix[i] == sales[i];
    forall z
      ensures SizeSold(prefix, z) <==> SizeSold(sales[..i], z) || z == sales[i].size
    {
      if SizeSold(prefix, z) {
        var j :| 0 <= j < |prefix| && prefix[j].size == z;
        if j < i { assert sales[..i][j] == prefix[j]; }
      }
      if SizeSold(sales[..i], z) {
        var j :| 0 <= j < i && sales[..i][j].size == z;
        assert prefix[j] == sales[..i][j];
      }
    }
  }

  lemma {:induction false} UnsoldSizeHasNoTotals(sales: seq<Sale>, z: Size)
    ensures !SizeSold(sales, z) ==> QuantityOfSize(sales, z) == 0 && RevenueOfSize(sales, z) == 0.0
  {
    if sales != [] {
      var init := sales[..|sales| - 1];
      if SizeSold(init, z) {
        var i :| 0 <= i < |init| && init[i].size == z;
        assert sales[i] == init[i];
      }
      UnsoldSizeHasNoTotals(init, z);
    }
  }

  /** The per-size sums add up to the ledger's total quantity and revenue. */
  lemma {:induction false} SizeSalesAddUp(sales: seq<Sale>)
    ensures QuantityOfSize(sales, PP) + QuantityOfSize(sales, P) + QuantityOfSize(sales, M)
            + QuantityOfSize(sales, G) + QuantityOfSize(sales, GG) + QuantityOfSize(sales, XG)
            == TotalQuantity(sales)
    ensures RevenueOfSize(sales, PP) + RevenueOfSize(sales, P) + RevenueOfSize(sales, M)
            + RevenueOfSize(sales, G) + RevenueOfSize(sales, GG) + RevenueOfSize(sales, XG)
            == TotalRevenue(sales)
  {
    if sales != [] {
      SizeSalesAddUp(sales[..|sales| - 1]);
    }
  }

  // ---------------------------------------------------------------------------
  // The last seven days

  const ReportDays := 7

  /** `last7Days`: today and the six days before it, oldest first. */
  function Last7Days(today: Day): (days: seq<Day>)
    ensures |days| == ReportDays
    ensures forall k :: 0 <= k < ReportDays ==> days[k] == today - (ReportDays - 1) + k
  {
    Reverse(seq(ReportDays, i => today - i))
  }

  /** The sales whose creation day is `day`, in ledger order. */
  function SalesOn(sales: seq<Sale>, day: Day): seq<Sale>
  {
    if sales == [] then []
    else
      var init := SalesOn(sales[..|sales| - 1], day);
      if sales[|sales| - 1].createdAt == day then init + [sales[|sales| - 1]] else init
  }

  /** The sales whose creation day lies in `[first, last]`, in ledger order. */
  function SalesBetween(sales: seq<Sale>, first: Day, last: Day): seq<Sale>
  {
    if sales == [] then []
    else
      var init := SalesBetween(sales[..|sales| - 1], first, last);
      var x := sales[|sales| - 1];
      if first <= x.createdAt <= last then init + [x] else init
  }

  datatype DayTotals = DayTotals(date: Day, quantity: int, revenue: real)

  /** `dailySales`: for each of the seven days, the quantity and revenue of that day's sales. */
  function DailySales(sales: seq<Sale>, today: Day): (r: seq<DayTotals>)
    ensures |r| == ReportDays
    ensures forall k :: 0 <= k < ReportDays ==> r[k].date == today - (ReportDays - 1) + k
  {
    var days := Last7Days(today);
    seq(|days|, k requires 0 <= k < |days| =>
      var on := SalesOn(sales, days[k]);
      DayTotals(days[k], TotalQuantity(on), TotalRevenue(on)))
  }

  lemma {:induction false} NoSalesOnDay(sales: seq<Sale>, day: Day)
    requires forall i :: 0 <= i < |sales| ==> sales[i].createdAt != day
    ensures SalesOn(sales, day) == []
  {
    if sales != [] {
      NoSalesOnDay(sales[..|sales| - 1], day);
    }
  }

  /** A day without sales still gets its entry, with zero sums. */
  lemma DailySalesZeroFill(sales: seq<Sale>, today: Day, k: int)
    requires 0 <= k < ReportDays
    requires forall i :: 0 <= i < |sales| ==> sales[i].createdAt != today - (ReportDays - 1) + k
    ensures DailySales(sales, today)[k] == DayTotals(today - (ReportDays - 1) + k, 0, 0.0)
  {
    NoSalesOnDay(sales, today - (ReportDays - 1) + k);
  }

  function SumDayQuantities(ds: seq<DayTotals>): int
  {
    if ds == [] then 0 else SumDayQuantities(ds[..|ds| - 1]) + ds[|ds| - 1].quantity
  }

  function SumDayRevenues(ds: seq<DayTotals>): real
  {
    if ds == [] then 0.0 else SumDayRevenues(ds[..|ds| - 1]) + ds[|ds| - 1].revenue
  }

  /** Adding `q` and `v` to the entry at `j` (if any) adds them to the sums. */
  lemma {:induction false} DaySumsShift(a: seq<DayTotals>, b: seq<DayTotals>, j: int, q: int, v: real)
    requires |a| == |b|
    requires forall k :: 0 <= k < |a| ==>
               b[k].quantity == a[k].quantity + (if k == j then q else 0)
               && b[k].revenue == a[k].revenue + (if k == j then v else 0.0)
    ensures SumDayQuantities(b) == SumDayQuantities(a) + (if 0 <= j < |a| then q else 0)
    ensures SumDayRevenues(b) == SumDayRevenues(a) + (if 0 <= j < |a| then v else 0.0)
  {
    if a != [] {
      var n := |a| - 1;
      DaySumsShift(a[..n], b[..n], j, q, v);
    }
  }

  /** Recording one more sale adds it to the entry of its own day and to no other entry. */
  lemma DailySalesOfAppend(init: seq<Sale>, x: Sale, today: Day, k: int)
    requires 0 <= k < ReportDays
    ensures var first := today - (ReportDays - 1);
            var a := DailySales(init, today);
            var b := DailySales(init + [x], today);
            && b[k].quantity == a[k].quantity + (if k == x.createdAt - first then x.quantity else 0)
            && b[k].revenue == a[k].revenue + (if k == x.createdAt - first then x.totalPrice else 0.0)
  {
    var first := today - (ReportDays - 1);
    var sales := init + [x];
    assert sales[..|sales| - 1] == init;
    var on := SalesOn(init, first + k);
    if x.createdAt == first + k {
      assert SalesOn(sales, first + k) == on + [x];
      assert (on + [x])[..|on|] == on;
    }
  }

  /** With no sales every day's entry is zero. */
  lemma DailySalesOfNoSales(today: Day)
    ensures SumDayQuantities(DailySales([], today)) == 0 && SumDayRevenues(DailySales([], today)) == 0.0
  {
    var d := DailySales([], today);
    forall k | 0 <= k < ReportDays ensures d[k].quantity == 0 && d[k].revenue == 0.0 {
      NoSalesOnDay([], today - (ReportDays - 1) + k);
    }
    DaySumsZero(d);
  }

  /** One more sale adds to the window's totals exactly when its day lies in the window. */
  lemma WindowOfAppend(init: seq<Sale>, x: Sale, first: Day, last: Day)
    ensures var w := SalesBetween(init, first, last);
            var w' := SalesBetween(init + [x], first, last);
            && TotalQuantity(w') == TotalQuantity(w) + (if first <= x.createdAt <= last then x.quantity else 0)
            && TotalRevenue(w') == TotalRevenue(w) + (if first <= x.createdAt <= last then x.totalPrice else 0.0)
  {
    var sales := init + [x];
    assert sales[..|sales| - 1] == init;
    var w := SalesBetween(init, first, last);
    if first <= x.createdAt <= last {
      assert (w + [x])[..|w|] == w;
    }
  }

  /** Each sale of the window is counted in exactly one day's entry, every other sale in none. */
  lemma {:induction false} DailySalesCountEachSaleOnce(sales: seq<Sale>, today: Day)
    ensures var window := SalesBetween(sales, today - (ReportDays - 1), today);
            && SumDayQuantities(DailySales(sales, today)) == TotalQuantity(window)
            && SumDayRevenues(DailySales(sales, today)) == TotalRevenue(window)
  {
    var first := today - (ReportDays - 1);
    if sales == [] {
      DailySalesOfNoSales(today);
    } else {
      var init := sales[..|sales| - 1];
      var x := sales[|sales| - 1];
      assert sales == init + [x];
      DailySalesCountEachSaleOnce(init, today);
      var a := DailySales(init, today);
      var b := DailySales(sales, today);
      forall k | 0 <= k < ReportDays
        ensures b[k].quantity == a[k].quantity + (if k == x.createdAt - first then x.quantity else 0)
        ensures b[k].revenue == a[k].revenue + (if k == x.createdAt - first then x.totalPrice else 0.0)
      {
        DailySalesOfAppend(init, x, today, k);
      }
      DaySumsShift(a, b, x.createdAt - first, x.quantity, x.totalPrice);
      WindowOfAppend(init, x, first, today);
    }
  }

  lemma {:induction false} DaySumsZero(ds: seq<DayTotals>)
    requires forall k :: 0 <= k < |ds| ==> ds[k].quantity == 0 && ds[k].revenue == 0.0
    ensures SumDayQuantities(ds) == 0 && SumDayRevenues(ds) == 0.0
  {
    if ds != [] {
      DaySumsZero(ds[..|ds| - 1]);
    }
  }
}
