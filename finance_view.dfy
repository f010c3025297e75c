/** `FinancialSummaryView.get`: KPI cards, a month-by-month chart merged from
    sales and service rows, and the five most recent sales. Money in cents. */
module FinanceView {
  import opened Common
  import Inv = InventoryModels
  import opened ServiceModels

  // ---------------------------------------------------------------------------
  // KPI cards
  // ---------------------------------------------------------------------------

  predicate InStock(v: Inv.Vehicle) { v.status == Inv.Available || v.status == Inv.Reserved }
  predicate IsSold(v: Inv.Vehicle) { v.status == Inv.Sold }
  predicate IsCompleted(r: ServiceRecord) { r.status == Completed }

  function CostOf(v: Inv.Vehicle): int { v.costPrice }
  function PriceOf(v: Inv.Vehicle): int { v.sellingPrice }

  /** `Sum('cost_price')` over AVAILABLE and RESERVED vehicles, `or 0`. */
  function InventoryValue(vs: seq<Inv.Vehicle>): int
  {
    SumOf(Filter(vs, InStock), CostOf)
  }

  /** `Sum('selling_price')` over SOLD vehicles, `or 0`. */
  function TotalSales(vs: seq<Inv.Vehicle>): int
  {
    SumOf(Filter(vs, IsSold), PriceOf)
  }

  /** `Sum(parts_cost + labor_cost)` over COMPLETED records, `or 0`. */
  function TotalService(rs: seq<ServiceRecord>): int
  {
    SumOf(Filter(rs, IsCompleted), TotalCost)
  }

  /** A sum over a filter that keeps nothing is the `or 0` fallback. */
  lemma {:induction false} SumOfNoneKept<T>(s: seq<T>, p: T -> bool, f: T -> int)
    requires forall i :: 0 <= i < |s| ==> !p(s[i])
    ensures SumOf(Filter(s, p), f) == 0
  {
    if s != [] {
      SumOfNoneKept(s[1..], p, f);
      assert Filter(s, p) == Filter(s[1..], p);
    }
  }

  /** With no AVAILABLE or RESERVED vehicle the inventory value is 0. */
  lemma InventoryValueNone(vs: seq<Inv.Vehicle>)
    requires forall i :: 0 <= i < |vs| ==> !InStock(vs[i])
    ensures InventoryValue(vs) == 0
  {
    SumOfNoneKept(vs, InStock, CostOf);
  }

  /** A sold car counts towards `sales_profit` only when both prices are
      non-zero (a zero Decimal is falsy). */
  function CarProfit(v: Inv.Vehicle): int
  {
    if v.sellingPrice != 0 && v.costPrice != 0 then v.sellingPrice - v.costPrice else 0
  }

  function SalesProfitSpec(vs: seq<Inv.Vehicle>): int
  {
    SumOf(Filter(vs, IsSold), CarProfit)
  }

  /** The `sales_profit` accumulator loop over the sold cars. */
  method SalesProfit(vs: seq<Inv.Vehicle>) returns (profit: int)
    ensures profit == SalesProfitSpec(vs)
  {
    profit := ProfitOf(Filter(vs, IsSold));
  }

  /** The loop itself, over the cars already filtered to SOLD. */
  method ProfitOf(soldCars: seq<Inv.Vehicle>) returns (profit: int)
    ensures profit == SumOf(soldCars, CarProfit)
  {
    profit := 0;
    var i := 0;
    while i < |soldCars|
      invariant 0 <= i <= |soldCars|
      invariant profit == SumOf(soldCars[..i], CarProfit)
    {
      assert soldCars[..i + 1][..i] == soldCars[..i];
      var car := soldCars[i];
      if car.sellingPrice != 0 && car.costPrice != 0 {
        profit := profit + (car.sellingPrice - car.costPrice);
      }
      i := i + 1;
    }
    assert soldCars[..i] == soldCars;
  }

  lemma {:induction false} SumOfDifference<T>(s: seq<T>, f: T -> int, g: T -> int, h: T -> int)
    requires forall i :: 0 <= i < |s| ==> h(s[i]) == f(s[i]) - g(s[i])
    ensures SumOf(s, h) == SumOf(s, f) - SumOf(s, g)
  {
    if s != [] {
      SumOfDifference(s[..|s| - 1], f, g, h);
    }
  }

  /** When every sold car carries both prices, `sales_profit` is the sold
      revenue minus the sold cost. */
  lemma SalesProfitWhenPriced(vs: seq<Inv.Vehicle>)
    requires forall i :: 0 <= i < |vs| && IsSold(vs[i]) ==> vs[i].sellingPrice != 0 && vs[i].costPrice != 0
    ensures SalesProfitSpec(vs) == TotalSales(vs) - SumOf(Filter(vs, IsSold), CostOf)
  {
    var soldCars := Filter(vs, IsSold);
    forall i | 0 <= i < |soldCars|
      ensures CarProfit(soldCars[i]) == PriceOf(soldCars[i]) - CostOf(soldCars[i])
    {
      assert soldCars[i] in vs && IsSold(soldCars[i]);
    }
    SumOfDifference(soldCars, PriceOf, CostOf, CarProfit);
  }

  // ---------------------------------------------------------------------------
  // Monthly chart: sales rows then service rows, keyed by "%b"
  // ---------------------------------------------------------------------------

  type Month = m: int | 1 <= m <= 12 witness 1

  /** `strftime("%b")` in the C locale. */
  function MonthAbbrev(m: Month): (r: string)
    ensures |r| == 3
  {
    ["Jan", "Feb", "Mar", "Apr", "May", "Jun", "Jul", "Aug", "Sep", "Oct", "Nov", "Dec"][m - 1]
  }

  /** One `TruncMonth` group of sold vehicles; a `Sum` over nothing is None. */
  datatype SalesMonth = SalesMonth(year: int, month: Month, revenue: Option<int>, cost: Option<int>)

  /** One `TruncMonth` group of completed service records. */
  datatype ServiceMonth = ServiceMonth(year: int, month: Month, revenue: Option<int>)

  datatype MonthEntry = MonthEntry(name: string, revenue: int, cost: int, profit: int)

  type Merged = Dict<string, MonthEntry>

  /** `x or 0`. */
  function OrZero(o: Option<int>): int
  {
    if o.Some? then o.value else 0
  }

  /** The entry for `key`, created all-zero the first time the key is seen. */
  function EntryFor(d: Merged, key: string): MonthEntry
  {
    if key in d.vals then d.vals[key] else MonthEntry(key, 0, 0, 0)
  }

  function AddSales(d: Merged, row: SalesMonth): Merged
  {
    var key := MonthAbbrev(row.month);
    var e := EntryFor(d, key);
    d.Put(key, MonthEntry(e.name, e.revenue + OrZero(row.revenue), e.cost + OrZero(row.cost),
                          e.profit + (OrZero(row.revenue) - OrZero(row.cost))))
  }

  /** Service revenue goes to Revenue and Profit; Cost is left alone. */
  function AddService(d: Merged, row: ServiceMonth): Merged
  {
    var key := MonthAbbrev(row.month);
    var e := EntryFor(d, key);
    d.Put(key, e.(revenue := e.revenue + OrZero(row.revenue),
                  profit := e.profit + OrZero(row.revenue)))
  }

  function SalesPhase(rows: seq<SalesMonth>): (d: Merged)
    ensures d.Valid()
  {
    if rows == [] then EmptyDict() else AddSales(SalesPhase(rows[..|rows| - 1]), rows[|rows| - 1])
  }

  function ServicePhase(d: Merged, rows: seq<ServiceMonth>): (r: Merged)
    ensures d.Valid() ==> r.Valid()
  {
    if rows == [] then d else AddService(ServicePhase(d, rows[..|rows| - 1]), rows[|rows| - 1])
  }

  function MergeSpec(sales: seq<SalesMonth>, service: seq<ServiceMonth>): (d: Merged)
    ensures d.Valid()
  {
    ServicePhase(SalesPhase(sales), service)
  }

  /** Every entry is named after its key and keeps Profit = Revenue - Cost. */
  predicate Balanced(d: Merged)
  {
    forall k :: k in d.vals ==> d.vals[k].name == k && d.vals[k].profit == d.vals[k].revenue - d.vals[k].cost
  }

  lemma {:induction false} SalesPhaseBalanced(rows: seq<SalesMonth>)
    ensures Balanced(SalesPhase(rows))
  {
    if rows != [] {
      SalesPhaseBalanced(rows[..|rows| - 1]);
    }
  }

  lemma {:induction false} ServicePhaseBalanced(d: Merged, rows: seq<ServiceMonth>)
    requires Balanced(d)
    ensures Balanced(ServicePhase(d, rows))
  {
    if rows != [] {
      ServicePhaseBalanced(d, rows[..|rows| - 1]);
    }
  }

  /** Every month of the chart satisfies Profit = Revenue - Cost. */
  lemma MergeBalanced(sales: seq<SalesMonth>, service: seq<ServiceMonth>)
    ensures Balanced(MergeSpec(sales, service))
  {
    SalesPhaseBalanced(sales);
    ServicePhaseBalanced(SalesPhase(sales), service);
  }

  /** The revenue and cost the rows of one month name bring. */
  function SalesRevenueOf(rows: seq<SalesMonth>, key: string): int
  {
    if rows == [] then 0
    else SalesRevenueOf(rows[..|rows| - 1], key)
         + (if MonthAbbrev(rows[|rows| - 1].month) == key then OrZero(rows[|rows| - 1].revenue) else 0)
  }

  function SalesCostOf(rows: seq<SalesMonth>, key: string): int
  {
    if rows == [] then 0
    else SalesCostOf(rows[..|rows| - 1], key)
         + (if MonthAbbrev(rows[|rows| - 1].month) == key then OrZero(rows[|rows| - 1].cost) else 0)
  }

  function ServiceRevenueOf(rows: seq<ServiceMonth>, key: string): int
  {
    if rows == [] then 0
    else ServiceRevenueOf(rows[..|rows| - 1], key)
         + (if MonthAbbrev(rows[|rows| - 1].month) == key then OrZero(rows[|rows| - 1].revenue) else 0)
  }

  predicate SalesHasMonth(rows: seq<SalesMonth>, key: string)
  {
    exists i :: 0 <= i < |rows| && MonthAbbrev(rows[i].month) == key
  }

  predicate ServiceHasMonth(rows: seq<ServiceMonth>, key: string)
  {
    exists i :: 0 <= i < |rows| && MonthAbbrev(rows[i].month) == key
  }

  /** One sales row touches only its own month name. */
  lemma AddSalesEntry(d: Merged, row: SalesMonth, key: string)
    ensures key in AddSales(d, row).vals <==> key in d.vals || MonthAbbrev(row.month) == key
    ensures EntryFor(AddSales(d, row), key) ==
            if MonthAbbrev(row.month) == key
            then EntryFor(d, key).(revenue := EntryFor(d, key).revenue + OrZero(row.revenue),
                                   cost := EntryFor(d, key).cost + OrZero(row.cost),
                                   profit := EntryFor(d, key).profit + (OrZero(row.revenue) - OrZero(row.cost)))
            else EntryFor(d, key)
  {
  }

  /** One service row touches only its own month name. */
  lemma AddServiceEntry(d: Merged, row: ServiceMonth, key: string)
    ensures key in AddService(d, row).vals <==> key in d.vals || MonthAbbrev(row.month) == key
    ensures EntryFor(AddService(d, row), key) ==
            if MonthAbbrev(row.month) == key
            then EntryFor(d, key).(revenue := EntryFor(d, key).revenue + OrZero(row.revenue),
                                   profit := EntryFor(d, key).profit + OrZero(row.revenue))
            else EntryFor(d, key)
  {
  }

  lemma SalesHasMonthSnoc(rows: seq<SalesMonth>, key: string)
    requires rows != []
    ensures SalesHasMonth(rows, key) <==>
            SalesHasMonth(rows[..|rows| - 1], key) || MonthAbbrev(rows[|rows| - 1].month) == key
  {
    var init := rows[..|rows| - 1];
    if SalesHasMonth(init, key) {
      var i :| 0 <= i < |init| && MonthAbbrev(init[i].month) == key;
      assert rows[i] == init[i];
    }
    if SalesHasMonth(rows, key) && MonthAbbrev(rows[|rows| - 1].month) != key {
      var i :| 0 <= i < |rows| && MonthAbbrev(rows[i].month) == key;
      assert i < |init| && init[i] == rows[i];
    }
  }

  lemma ServiceHasMonthSnoc(rows: seq<ServiceMonth>, key: string)
    requires rows != []
    ensures ServiceHasMonth(rows, key) <==>
            ServiceHasMonth(rows[..|rows| - 1], key) || MonthAbbrev(rows[|rows| - 1].month) == key
  {
    var init := rows[..|rows| - 1];
    if ServiceHasMonth(init, key) {
      var i :| 0 <= i < |init| && MonthAbbrev(init[i].month) == key;
      assert rows[i] == init[i];
    }
    if ServiceHasMonth(rows, key) && MonthAbbrev(rows[|rows| - 1].month) != key {
      var i :| 0 <= i < |rows| && MonthAbbrev(rows[i].month) == key;
      assert i < |init| && init[i] == rows[i];
    }
  }

  /** Per month name: the sales entry holds the sums of that name's rows. */
  lemma {:induction false} SalesPhaseEntry(rows: seq<SalesMonth>, key: string)
    ensures key in SalesPhase(rows).vals <==> SalesHasMonth(rows, key)
    ensures EntryFor(SalesPhase(rows), key) ==
            MonthEntry(key, SalesRevenueOf(rows, key), SalesCostOf(rows, key),
                       SalesRevenueOf(rows, key) - SalesCostOf(rows, key))
  {
    if rows != [] {
      var init := rows[..|rows| - 1];
      var last := rows[|rows| - 1];
      SalesPhaseEntry(init, key);
      SalesHasMonthSnoc(rows, key);
      AddSalesEntry(SalesPhase(init), last, key);
      assert SalesPhase(rows) == AddSales(SalesPhase(init), last);
      var hit := MonthAbbrev(last.month) == key;
      assert SalesRevenueOf(rows, key) == SalesRevenueOf(init, key) + (if hit then OrZero(last.revenue) else 0);
      assert SalesCostOf(rows, key) == SalesCostOf(init, key) + (if hit then OrZero(last.cost) else 0);
    }
  }

  lemma {:induction false} ServicePhaseEntry(d: Merged, rows: seq<ServiceMonth>, key: string)
    ensures key in ServicePhase(d, rows).vals <==> key in d.vals || ServiceHasMonth(rows, key)
    ensures EntryFor(ServicePhase(d, rows), key) ==
            EntryFor(d, key).(revenue := EntryFor(d, key).revenue + ServiceRevenueOf(rows, key),
                              profit := EntryFor(d, key).profit + ServiceRevenueOf(rows, key))
  {
    if rows != [] {
      var init := rows[..|rows| - 1];
      var last := rows[|rows| - 1];
      ServicePhaseEntry(d, init, key);
      ServiceHasMonthSnoc(rows, key);
      AddServiceEntry(ServicePhase(d, init), last, key);
      assert ServicePhase(d, rows) == AddService(ServicePhase(d, init), last);
    }
  }

  /** A month name is in the chart iff some sales or service row has it, and
      its entry sums every row of that name, whatever the row's year. */
  lemma MergeEntry(sales: seq<SalesMonth>, service: seq<ServiceMonth>, key: string)
    ensures key in MergeSpec(sales, service).vals <==> SalesHasMonth(sales, key) || ServiceHasMonth(service, key)
    ensures EntryFor(MergeSpec(sales, service), key) ==
            MonthEntry(key,
                       SalesRevenueOf(sales, key) + ServiceRevenueOf(service, key),
                       SalesCostOf(sales, key),
                       SalesRevenueOf(sales, key) - SalesCostOf(sales, key) + ServiceRevenueOf(service, key))
  {
    SalesPhaseEntry(sales, key);
    ServicePhaseEntry(SalesPhase(sales), service, key);
  }

  /** The body of the sales merge loop: three `+=` on the month's entry. */
  method MergeSalesRow(merged: Merged, row: SalesMonth) returns (r: Merged)
    ensures r == AddSales(merged, row)
  {
    var key := MonthAbbrev(row.month);
    var e := EntryFor(merged, key);
    var revenue := e.revenue + OrZero(row.revenue);
    var cost := e.cost + OrZero(row.cost);
    var profit := e.profit + (OrZero(row.revenue) - OrZero(row.cost));
    r := merged.Put(key, MonthEntry(e.name, revenue, cost, profit));
  }

  /** The sales merge loop. */
  method MergeSales(sales: seq<SalesMonth>) returns (merged: Merged)
    ensures merged == SalesPhase(sales)
  {
    merged := EmptyDict();
    var i := 0;
    while i < |sales|
      invariant 0 <= i <= |sales|
      invariant merged == SalesPhase(sales[..i])
    {
      assert sales[..i + 1][..i] == sales[..i];
      merged := MergeSalesRow(merged, sales[i]);
      i := i + 1;
    }
    assert sales[..i] == sales;
  }

  /** The body of the service merge loop: two `+=` on the month's entry. */
  method MergeServiceRow(merged: Merged, row: ServiceMonth) returns (r: Merged)
    ensures r == AddService(merged, row)
  {
    var key := MonthAbbrev(row.month);
    var e := EntryFor(merged, key);
    var svcRev := OrZero(row.revenue);
    e := e.(revenue := e.revenue + svcRev);
    e := e.(profit := e.profit + svcRev);
    r := merged.Put(key, e);
  }

  /** The service merge loop: Revenue and Profit grow, Cost does not. */
  method MergeService(start: Merged, service: seq<ServiceMonth>) returns (merged: Merged)
    ensures merged == ServicePhase(start, service)
  {
    merged := start;
    var j := 0;
    while j < |service|
      invariant 0 <= j <= |service|
      invariant merged == ServicePhase(start, service[..j])
    {
      assert service[..j + 1][..j] == service[..j];
      merged := MergeServiceRow(merged, service[j]);
      j := j + 1;
    }
    assert service[..j] == service;
  }

  /** Both merge loops and `list(merged_data.values())`. */
  method MergeMonths(sales: seq<SalesMonth>, service: seq<ServiceMonth>) returns (chart: seq<MonthEntry>)
    ensures chart == MergeSpec(sales, service).Values()
  {
    var merged := MergeSales(sales);
    merged := MergeService(merged, service);
    chart := merged.Values();
  }

  // ---------------------------------------------------------------------------
  // Recent transactions
  // ---------------------------------------------------------------------------

  /** `round(margin, 1)` is not modelled: the margin is the exact percentage. */
  datatype RecentSale = RecentSale(vehicle: string, soldFor: int, cost: int, profit: int, margin: real)

  function NewestUpdateKey(v: Inv.Vehicle): int { -v.updatedAt }

  /** `sold_cars.order_by('-updated_at')[:5]`. */
  function RecentCars(vs: seq<Inv.Vehicle>): seq<Inv.Vehicle>
  {
    Take(SortByKey(Filter(vs, IsSold), NewestUpdateKey), 5)
  }

  function SaleRow(car: Inv.Vehicle): RecentSale
  {
    var profit := car.sellingPrice - car.costPrice;
    RecentSale(Inv.YearText(car.year) + " " + car.make + " " + car.model,
               car.sellingPrice, car.costPrice, profit,
               if car.sellingPrice > 0 then (profit as real / car.sellingPrice as real) * 100.0 else 0.0)
  }

  /** The body of the `recent_sales` loop: the profit, and the margin only
      when the selling price is positive. */
  method SaleRowOf(car: Inv.Vehicle) returns (row: RecentSale)
    ensures row == SaleRow(car)
  {
    var profit := car.sellingPrice - car.costPrice;
    var margin := 0.0;
    if car.sellingPrice > 0 {
      margin := (profit as real / car.sellingPrice as real) * 100.0;
    }
    row := RecentSale(Inv.YearText(car.year) + " " + car.make + " " + car.model,
                      car.sellingPrice, car.costPrice, profit, margin);
  }

  /** The `recent_sales` loop. */
  method RecentSales(vs: seq<Inv.Vehicle>) returns (rows: seq<RecentSale>)
    ensures |rows| == |RecentCars(vs)|
    ensures forall i :: 0 <= i < |rows| ==> rows[i] == SaleRow(RecentCars(vs)[i])
  {
    rows := SaleRows(RecentCars(vs));
  }

  /** One row per car, in order. */
  method SaleRows(cars: seq<Inv.Vehicle>) returns (rows: seq<RecentSale>)
    ensures |rows| == |cars|
    ensures forall i :: 0 <= i < |rows| ==> rows[i] == SaleRow(cars[i])
  {
    rows := [];
    var i := 0;
    while i < |cars|
      invariant 0 <= i <= |cars|
      invariant |rows| == i
      invariant forall k :: 0 <= k < i ==> rows[k] == SaleRow(cars[k])
    {
      var row := SaleRowOf(cars[i]);
      rows := rows + [row];
      i := i + 1;
    }
  }

  /** The five most recently updated sold cars, newest update first, none
      older than a sold car left out; the margin is 0 unless the selling
      price is positive, and has the sign of the profit. */
  lemma RecentSalesShape(vs: seq<Inv.Vehicle>)
    ensures |RecentCars(vs)| == Min(5, |Filter(vs, IsSold)|)
    ensures forall i :: 0 <= i < |RecentCars(vs)| ==> IsSold(RecentCars(vs)[i]) && RecentCars(vs)[i] in vs
    ensures forall i, j :: 0 <= i < j < |RecentCars(vs)| ==> RecentCars(vs)[j].updatedAt <= RecentCars(vs)[i].updatedAt
    ensures forall v, i :: v in vs && IsSold(v) && v !in RecentCars(vs) && 0 <= i < |RecentCars(vs)| ==>
              v.updatedAt <= RecentCars(vs)[i].updatedAt
    ensures forall car: Inv.Vehicle :: car.sellingPrice <= 0 ==> SaleRow(car).margin == 0.0
    ensures forall car: Inv.Vehicle :: car.sellingPrice > 0 ==> (SaleRow(car).margin > 0.0 <==> SaleRow(car).profit > 0)
  {
    RecentCarsNewest(vs);
    forall car: Inv.Vehicle | car.sellingPrice > 0
      ensures SaleRow(car).margin > 0.0 <==> SaleRow(car).profit > 0
    {
      MarginSign(car);
    }
  }

  lemma RecentCarsNewest(vs: seq<Inv.Vehicle>)
    ensures forall i :: 0 <= i < |RecentCars(vs)| ==> IsSold(RecentCars(vs)[i]) && RecentCars(vs)[i] in vs
    ensures forall i, j :: 0 <= i < j < |RecentCars(vs)| ==> RecentCars(vs)[j].updatedAt <= RecentCars(vs)[i].updatedAt
    ensures forall v, i :: v in vs && IsSold(v) && v !in RecentCars(vs) && 0 <= i < |RecentCars(vs)| ==>
              v.updatedAt <= RecentCars(vs)[i].updatedAt
  {
    var r := RecentCars(vs);
    TopFiltered(vs, IsSold, NewestUpdateKey, 5, r);
    forall i, j | 0 <= i < j < |r| ensures r[j].updatedAt <= r[i].updatedAt {
      assert NewestUpdateKey(r[i]) <= NewestUpdateKey(r[j]);
    }
    forall v, i | v in vs && IsSold(v) && v !in r && 0 <= i < |r| ensures v.updatedAt <= r[i].updatedAt {
      assert NewestUpdateKey(r[i]) <= NewestUpdateKey(v);
    }
  }

  lemma MarginSign(car: Inv.Vehicle)
    requires car.sellingPrice > 0
    ensures SaleRow(car).margin > 0.0 <==> SaleRow(car).profit > 0
  {
    var p := (car.sellingPrice - car.costPrice) as real;
    var s := car.sellingPrice as real;
    assert p / s > 0.0 <==> p > 0.0;
  }

  // ---------------------------------------------------------------------------
  // The response
  // ---------------------------------------------------------------------------

  datatype Kpi = Kpi(inventoryValue: int, totalRevenue: int, salesProfit: int, serviceRevenue: int)

  datatype Summary = Summary(kpi: Kpi, chartData: seq<MonthEntry>, recentSales: seq<RecentSale>)

  /** `FinancialSummaryView.get`; the month groups are the inputs the ORM
      aggregation would produce. */
  method FinancialSummary(vs: seq<Inv.Vehicle>, rs: seq<ServiceRecord>,
                          sales: seq<SalesMonth>, service: seq<ServiceMonth>) returns (r: Summary)
    ensures r.kpi.inventoryValue == InventoryValue(vs)
    ensures r.kpi.totalRevenue == TotalSales(vs) + r.kpi.serviceRevenue
    ensures r.kpi.serviceRevenue == TotalService(rs)
    ensures r.kpi.salesProfit == SalesProfitSpec(vs)
    ensures r.chartData == MergeSpec(sales, service).Values()
    ensures forall i :: 0 <= i < |r.chartData| ==> r.chartData[i].profit == r.chartData[i].revenue - r.chartData[i].cost
    ensures |r.recentSales| == |RecentCars(vs)| <= 5
    ensures forall i :: 0 <= i < |r.recentSales| ==> r.recentSales[i] == SaleRow(RecentCars(vs)[i])
  {
    var totalService := TotalService(rs);
    var salesProfit := SalesProfit(vs);
    var chart := MergeMonths(sales, service);
    MergeBalanced(sales, service);
    var recent := RecentSales(vs);
    RecentSalesShape(vs);
    r := Summary(Kpi(InventoryValue(vs), TotalSales(vs) + totalService, salesProfit, totalService), chart, recent);
  }
}
