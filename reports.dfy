/** The read-only reports of back/src/services/report.service.ts: low stock,
    expiring records, waste, top sellers, slow movers and the inventory and
    waste counts of the dashboard. Each report reads whole collections and
    reduces them in memory; here the collections are the ledger, the product
    list, the recorded sales and the recorded adjustments. */
module Reports {
  import opened Common
  import opened Sorting
  import Products
  import opened InventoryBatches
  import InventoryAdjustments
  import Sales
  import Purchases
  import opened Grouping

  const Unknown: string := "Desconocido"

  /** `product?.name || "Desconocido"` for a product looked up by id. */
  function NameOf(products: seq<Products.Product>, id: string): (r: string)
    ensures r != ""
  {
    var p := Products.FindProduct(products, id);
    if p.Some? && p.value.name != "" then p.value.name else Unknown
  }

  // -------------------------------------------------- stock per product

  /** The `productStockMap` entry of a product: the quantities of its
      records summed in collection order. */
  function StockIn(batches: seq<Batch>, id: string): real
  {
    if batches == [] then 0.0
    else (if batches[0].productId == id then batches[0].currentQuantity else 0.0) + StockIn(batches[1..], id)
  }

  lemma {:induction false} StockInSnoc(batches: seq<Batch>, b: Batch, id: string)
    ensures StockIn(batches + [b], id) == StockIn(batches, id) + (if b.productId == id then b.currentQuantity else 0.0)
  {
    if batches == [] {
      assert [b][1..] == [];
    } else {
      assert (batches + [b])[1..] == batches[1..] + [b];
      StockInSnoc(batches[1..], b, id);
    }
  }

  lemma {:induction false} StockInFiltered(s: seq<Batch>, id: string)
    ensures StockIn(Filter(s, HasStock), id) == SumCurrent(Filter(s, StockOfProduct(id)))
  {
    if s != [] {
      StockInFiltered(s[1..], id);
      if HasStock(s[0]) {
        assert Filter(s, HasStock)[1..] == Filter(s[1..], HasStock);
      }
      if StockOfProduct(id)(s[0]) {
        assert Filter(s, StockOfProduct(id))[1..] == Filter(s[1..], StockOfProduct(id));
      }
    }
  }

  /** The stock map of the reports, built from the records in stock, gives
      each product the same stock as `getProductStock`. */
  lemma StockInIsStock(m: map<BatchId, Batch>, id: string)
    ensures StockIn(InStock(m), id) == SumCurrent(StockedBatches(m, id))
  {
    StockInFiltered(InIdOrder(m), id);
  }

  /** `productStockMap.get(id) || 0` */
  function Get(stock: map<string, real>, id: string): real
  {
    if id in stock then stock[id] else 0.0
  }

  /** The loop that builds `productStockMap`. */
  method StockMap(batches: seq<Batch>) returns (stock: map<string, real>)
    ensures forall id :: Get(stock, id) == StockIn(batches, id)
  {
    stock := map[];
    var i := 0;
    while i < |batches|
      invariant 0 <= i <= |batches|
      invariant forall id :: Get(stock, id) == StockIn(batches[..i], id)
    {
      var b := batches[i];
      var next := stock[b.productId := Get(stock, b.productId) + b.currentQuantity];
      assert batches[..i + 1] == batches[..i] + [b];
      forall id ensures Get(next, id) == StockIn(batches[..i + 1], id) {
        StockInSnoc(batches[..i], b, id);
      }
      stock := next;
      i := i + 1;
    }
    assert batches[..i] == batches;
  }

  // ------------------------------------------------------- low stock

  /** `product.min_sale_quantity || 1` */
  function ReportMinimum(p: Products.Product): real
  {
    if p.minSaleQuantity.Some? && p.minSaleQuantity.value != 0.0 then p.minSaleQuantity.value else 1.0
  }

  /** `LowStockProduct`; the status is critical or warning. */
  datatype LowStockProduct = LowStockProduct(productId: string, productName: string, currentStock: real,
                                             minSaleQuantity: real, status: Severity)

  function LowStockRow(stock: real, p: Products.Product): Option<LowStockProduct>
  {
    if stock < ReportMinimum(p) then
      Some(LowStockProduct(p.id, p.name, stock, ReportMinimum(p), if stock == 0.0 then Critical else Warning))
    else None
  }

  /** The rows in product order, before sorting. */
  function LowStockRows(batches: seq<Batch>, products: seq<Products.Product>): seq<LowStockProduct>
  {
    if products == [] then []
    else
      var last := products[|products| - 1];
      LowStockRows(batches, products[..|products| - 1])
      + (if last.isActive then OptSeq(LowStockRow(StockIn(batches, last.id), last)) else [])
  }

  function CurrentStockKey(r: LowStockProduct): real { r.currentStock }

  /** Every row is an active product whose stock is below its minimum,
      critical exactly at zero stock; every such product has its row. */
  lemma {:induction false} LowStockRowsSpec(batches: seq<Batch>, products: seq<Products.Product>)
    ensures forall r :: r in LowStockRows(batches, products) ==>
      exists p :: p in products && p.isActive && p.id == r.productId && r.productName == p.name
        && r.currentStock == StockIn(batches, p.id) && r.minSaleQuantity == ReportMinimum(p)
    ensures forall r :: r in LowStockRows(batches, products) ==>
      r.currentStock < r.minSaleQuantity && (r.status == Critical <==> r.currentStock == 0.0)
      && (r.status == Critical || r.status == Warning)
    ensures forall p :: p in products && p.isActive && StockIn(batches, p.id) < ReportMinimum(p) ==>
      LowStockRow(StockIn(batches, p.id), p).Some? && LowStockRow(StockIn(batches, p.id), p).value in LowStockRows(batches, products)
  {
    if products != [] {
      var init := products[..|products| - 1];
      LowStockRowsSpec(batches, init);
      assert forall p :: p in init ==> p in products;
      assert forall p :: p in products ==> p in init || p == products[|products| - 1];
    }
  }

  /** `getLowStockProducts`: the stock map, one pass over the active
      products, then the sort by stock. */
  method LowStockProducts(m: map<BatchId, Batch>, products: seq<Products.Product>) returns (report: seq<LowStockProduct>)
    ensures report == SortBy(LowStockRows(InStock(m), products), CurrentStockKey)
  {
    var batches := InStock(m);
    var stock := StockMap(batches);
    var rows: seq<LowStockProduct> := [];
    var i := 0;
    while i < |products|
      invariant 0 <= i <= |products|
      invariant rows == LowStockRows(batches, products[..i])
    {
      var p := products[i];
      assert products[..i + 1][..i] == products[..i];
      if p.isActive {
        var current := Get(stock, p.id);
        var minimum := if p.minSaleQuantity.Some? && p.minSaleQuantity.value != 0.0 then p.minSaleQuantity.value else 1.0;
        if current < minimum {
          rows := rows + [LowStockProduct(p.id, p.name, current, minimum, if current == 0.0 then Critical else Warning)];
        }
      }
      i := i + 1;
    }
    assert products[..i] == products;
    report := SortBy(rows, CurrentStockKey);
  }

  /** The report uses `min_sale_quantity || 1` where the inventory alerts
      use `?? 0`: they agree exactly when a non-zero minimum is set, and
      otherwise the report's threshold is 1 and the alert's 0. */
  lemma ThresholdsDiffer(p: Products.Product)
    ensures ReportMinimum(p) == AlertMinimum(p) <==> p.minSaleQuantity.Some? && p.minSaleQuantity.value != 0.0
    ensures !(p.minSaleQuantity.Some? && p.minSaleQuantity.value != 0.0) ==>
      ReportMinimum(p) == 1.0 && AlertMinimum(p) == 0.0
  {
  }

  /** So an active product without a minimum and with some stock below 1
      is in the low-stock report but raises no low-stock alert. */
  lemma ReportedNotAlerted(m: map<BatchId, Batch>, p: Products.Product)
    requires p.minSaleQuantity.None?
    requires 0.0 < SumCurrent(StockedBatches(m, p.id)) < 1.0
    ensures LowStockRow(StockIn(InStock(m), p.id), p).Some?
    ensures LowStockAlertFor(m, p).None?
  {
    StockInIsStock(m, p.id);
  }

  /** With a minimum that is unset or not negative, every product the alerts
      flag is in the report, with the same status. */
  lemma AlertedIsReported(m: map<BatchId, Batch>, p: Products.Product)
    requires p.minSaleQuantity.None? || p.minSaleQuantity.value >= 0.0
    requires LowStockAlertFor(m, p).Some?
    ensures LowStockRow(StockIn(InStock(m), p.id), p).Some?
    ensures LowStockRow(StockIn(InStock(m), p.id), p).value.status == LowStockAlertFor(m, p).value.status
  {
    StockInIsStock(m, p.id);
    StockedSum(m, p.id);
  }

  // -------------------------------------------------------- expiring

  /** `filters.days || 7` */
  function Horizon(days: Option<int>): int
  {
    if days.Some? && days.value != 0 then days.value else 7
  }

  /** `ExpiringProduct` */
  datatype ExpiringProduct = ExpiringProduct(batchId: BatchId, productId: string, productName: string,
                                             currentQuantity: real, expirationDate: int,
                                             daysUntilExpiration: int, status: Severity)

  /** `< 0` expired, `<= 3` critical, otherwise warning. */
  function ReportStatus(days: int): Severity
  {
    if days < 0 then Expired else if days <= 3 then Critical else Warning
  }

  function ExpiringRow(b: Batch, products: seq<Products.Product>, now: int, horizon: int): Option<ExpiringProduct>
  {
    if b.expirationDate.None? then None
    else
      var days := DaysUntil(b.expirationDate.value, now);
      if days <= horizon then
        Some(ExpiringProduct(b.id, b.productId, NameOf(products, b.productId), b.currentQuantity,
                             b.expirationDate.value, days, ReportStatus(days)))
      else None
  }

  function ExpiringRows(batches: seq<Batch>, products: seq<Products.Product>, now: int, horizon: int): seq<ExpiringProduct>
  {
    if batches == [] then []
    else
      ExpiringRows(batches[..|batches| - 1], products, now, horizon)
      + OptSeq(ExpiringRow(batches[|batches| - 1], products, now, horizon))
  }

  function ExpiringDaysKey(r: ExpiringProduct): real { r.daysUntilExpiration as real }

  /** Every row is a record with an expiration date at most `horizon` days
      away, its status read from the rounded-up day count; every such
      record has its row. */
  lemma {:induction false} ExpiringRowsSpec(batches: seq<Batch>, products: seq<Products.Product>, now: int,
                                            horizon: int)
    ensures forall r :: r in ExpiringRows(batches, products, now, horizon) ==>
      exists b :: b in batches && b.id == r.batchId && b.expirationDate == Some(r.expirationDate)
        && r.currentQuantity == b.currentQuantity && r.productId == b.productId
    ensures forall r :: r in ExpiringRows(batches, products, now, horizon) ==>
      r.daysUntilExpiration == DaysUntil(r.expirationDate, now) && r.daysUntilExpiration <= horizon
      && r.status == ReportStatus(r.daysUntilExpiration) && r.productName == NameOf(products, r.productId)
    ensures forall b :: b in batches && b.expirationDate.Some? && DaysUntil(b.expirationDate.value, now) <= horizon ==>
      (ExpiringRow(b, products, now, horizon).Some?
       && ExpiringRow(b, products, now, horizon).value in ExpiringRows(batches, products, now, horizon))
  {
    if batches != [] {
      var init := batches[..|batches| - 1];
      ExpiringRowsSpec(init, products, now, horizon);
      assert forall b :: b in init ==> b in batches;
      assert forall b :: b in batches ==> b in init || b == batches[|batches| - 1];
    }
  }

  /** `getExpiringProducts`: one pass over the records in stock, then the
      sort by days left. */
  method ExpiringProducts(m: map<BatchId, Batch>, products: seq<Products.Product>, now: int, days: Option<int>)
    returns (report: seq<ExpiringProduct>)
    ensures report == SortBy(ExpiringRows(InStock(m), products, now, Horizon(days)), ExpiringDaysKey)
  {
    var horizon := if days.Some? && days.value != 0 then days.value else 7;
    var rows := CollectExpiringRows(InStock(m), products, now, horizon);
    report := SortBy(rows, ExpiringDaysKey);
  }

  /** The loop of `getExpiringProducts` over the records it read. */
  method CollectExpiringRows(batches: seq<Batch>, products: seq<Products.Product>, now: int, horizon: int)
    returns (rows: seq<ExpiringProduct>)
    ensures rows == ExpiringRows(batches, products, now, horizon)
  {
    rows := [];
    var i := 0;
    while i < |batches|
      invariant 0 <= i <= |batches|
      invariant rows == ExpiringRows(batches[..i], products, now, horizon)
    {
      var b := batches[i];
      assert batches[..i + 1][..i] == batches[..i];
      if b.expirationDate.Some? {
        var left := DaysUntil(b.expirationDate.value, now);
        if left <= horizon {
          rows := rows + [ExpiringProduct(b.id, b.productId, NameOf(products, b.productId), b.currentQuantity,
                                          b.expirationDate.value, left, ReportStatus(left))];
        }
      }
      i := i + 1;
    }
    assert batches[..i] == batches;
  }

  /** At the default horizon of 7 days the report and the inventory alerts
      select the same records, with the same day counts and statuses. */
  lemma ReportAgreesWithAlerts(b: Batch, products: seq<Products.Product>, now: int)
    ensures ExpiringRow(b, products, now, 7).Some? <==> ExpiringAlertFor(b, products, now).Some?
    ensures ExpiringRow(b, products, now, 7).Some? ==>
      ExpiringRow(b, products, now, 7).value.daysUntilExpiration
        == ExpiringAlertFor(b, products, now).value.daysUntilExpiration
      && ExpiringRow(b, products, now, 7).value.status == ExpiringAlertFor(b, products, now).value.status
  {
  }

  // ------------------------------------------------- dashboard counts

  /** The dashboard's `lowStockCount`. */
  function LowStockCount(batches: seq<Batch>, products: seq<Products.Product>): (r: nat)
    ensures r <= |products|
  {
    if products == [] then 0
    else
      var last := products[|products| - 1];
      LowStockCount(batches, products[..|products| - 1])
      + (if last.isActive && StockIn(batches, last.id) < ReportMinimum(last) then 1 else 0)
  }

  /** The dashboard counts exactly the rows of the low-stock report. */
  lemma {:induction false} LowStockCountIsReport(batches: seq<Batch>, products: seq<Products.Product>)
    ensures LowStockCount(batches, products) == |LowStockRows(batches, products)|
  {
    if products != [] {
      LowStockCountIsReport(batches, products[..|products| - 1]);
    }
  }

  /** The dashboard's `expiringSoonCount`: records with an expiration date
      between 1 and 7 days away. */
  function ExpiringSoonCount(batches: seq<Batch>, now: int): (r: nat)
    ensures r <= |batches|
  {
    if batches == [] then 0
    else
      var b := batches[|batches| - 1];
      ExpiringSoonCount(batches[..|batches| - 1], now)
      + (if b.expirationDate.Some? && 0 < DaysUntil(b.expirationDate.value, now) <= 7 then 1 else 0)
  }

  /** The dashboard's count leaves out what the expiring report at its
      default horizon adds: expired records and those expiring today. So it
      never exceeds that report's length, and every record it counts is in
      the report as critical or warning. */
  lemma {:induction false} ExpiringSoonWithinReport(batches: seq<Batch>, products: seq<Products.Product>, now: int)
    ensures ExpiringSoonCount(batches, now) <= |ExpiringRows(batches, products, now, 7)|
    ensures forall b :: b in batches && b.expirationDate.Some? && 0 < DaysUntil(b.expirationDate.value, now) <= 7 ==>
      ExpiringRow(b, products, now, 7).Some? && ExpiringRow(b, products, now, 7).value.status != Expired
      && ExpiringRow(b, products, now, 7).value in ExpiringRows(batches, products, now, 7)
  {
    if batches != [] {
      ExpiringSoonWithinReport(batches[..|batches| - 1], products, now);
    }
    ExpiringRowsSpec(batches, products, now, 7);
  }

  // ------------------------------------------------- ranked groupings

  /** `Array.prototype.slice(0, n)`: a negative end counts from the back. */
  function SliceTo<T>(s: seq<T>, n: int): (r: seq<T>)
    ensures |r| <= |s| && r == s[..|r|]
    ensures n >= 0 ==> |r| == if n < |s| then n else |s|
    ensures n < 0 ==> |r| == if |s| + n > 0 then |s| + n else 0
  {
    if n >= 0 then (if n < |s| then s[..n] else s)
    else if |s| + n > 0 then s[..|s| + n] else []
  }

  /** A `Map`'s entries turned into report rows, sorted, and cut at `n`. */
  function Ranked<T>(gs: seq<Group>, row: Group -> T, key: T -> real, n: int): seq<T>
  {
    SliceTo(SortBy(seq(|gs|, i requires 0 <= i < |gs| => row(gs[i])), key), n)
  }

  /** The ranked rows are in key order, each is the row of some entry, and
      none is lost when the cut is at least the number of entries. */
  lemma RankedSpec<T>(gs: seq<Group>, row: Group -> T, key: T -> real, n: int)
    ensures |Ranked(gs, row, key, n)| <= |gs|
    ensures n >= 0 ==> |Ranked(gs, row, key, n)| <= n
    ensures SortedBy(Ranked(gs, row, key, n), key)
    ensures forall x :: x in Ranked(gs, row, key, n) ==> exists g :: g in gs && x == row(g)
    ensures n >= |gs| ==> forall g :: g in gs ==> row(g) in Ranked(gs, row, key, n)
    ensures (forall i, j :: 0 <= i < j < |gs| ==> row(gs[i]) != row(gs[j])) ==>
      forall i, j :: 0 <= i < j < |Ranked(gs, row, key, n)| ==> Ranked(gs, row, key, n)[i] != Ranked(gs, row, key, n)[j]
  {
    var rows := seq(|gs|, i requires 0 <= i < |gs| => row(gs[i]));
    var sorted := SortBy(rows, key);
    var r := Ranked(gs, row, key, n);
    SortByCorrect(rows, key);
    forall x | x in r ensures exists g :: g in gs && x == row(g) {
      assert x in sorted;
      SortByMembers(rows, key, x);
      var k :| 0 <= k < |rows| && rows[k] == x;
      assert gs[k] in gs;
    }
    if forall i, j :: 0 <= i < j < |gs| ==> row(gs[i]) != row(gs[j]) {
      forall i, j | 0 <= i < j < |r| ensures r[i] != r[j] {
        if r[i] == r[j] {
          RepeatCounted(sorted, i, j);
          assert rows == seq(|gs|, i requires 0 <= i < |gs| => row(gs[i]));
          UniqueCounted(rows, r[i]);
        }
      }
    }
    if n >= |gs| {
      assert r == sorted;
      forall g | g in gs ensures row(g) in r {
        var k :| 0 <= k < |gs| && gs[k] == g;
        assert rows[k] == row(g);
        SortByMembers(rows, key, row(g));
      }
    }
  }

  lemma RepeatCounted<T>(s: seq<T>, i: int, j: int)
    requires 0 <= i < j < |s| && s[i] == s[j]
    ensures multiset(s)[s[i]] >= 2
  {
    assert s == s[..j] + [s[j]] + s[j + 1..];
    assert s[i] == s[..j][i];
    assert s[i] in multiset(s[..j]);
  }

  lemma {:induction false} UniqueCounted<T>(s: seq<T>, x: T)
    requires forall i, j :: 0 <= i < j < |s| ==> s[i] != s[j]
    ensures multiset(s)[x] <= 1
  {
    if s != [] {
      assert s == [s[0]] + s[1..];
      UniqueCounted(s[1..], x);
      if s[0] == x {
        assert x !in s[1..];
      }
    }
  }

  // ------------------------------------------------------------ waste

  /** The adjustments `getWasteSummary` keeps: the two waste types, within
      the date range when one is given. */
  function WasteSelection(adjustments: seq<InventoryAdjustments.Adjustment>, start: DateInput, end: DateInput)
    : seq<InventoryAdjustments.Adjustment>
  {
    if adjustments == [] then []
    else
      var a := adjustments[|adjustments| - 1];
      WasteSelection(adjustments[..|adjustments| - 1], start, end)
      + (if InventoryAdjustments.IsWaste(a.adjustmentType) && InDateRange(a.createdAt, start, end) then [a] else [])
  }

  lemma {:induction false} WasteSelectionMembers(adjustments: seq<InventoryAdjustments.Adjustment>, start: DateInput,
                                                 end: DateInput, a: InventoryAdjustments.Adjustment)
    ensures a in WasteSelection(adjustments, start, end) <==>
      a in adjustments && InventoryAdjustments.IsWaste(a.adjustmentType) && InDateRange(a.createdAt, start, end)
  {
    if adjustments != [] {
      var init := adjustments[..|adjustments| - 1];
      WasteSelectionMembers(init, start, end, a);
      assert adjustments == init + [adjustments[|adjustments| - 1]];
    }
  }

  /** The value of one adjustment: `|quantity| * purchase_price` of its
      record, or 0 when the record is gone. */
  function WasteValue(m: map<BatchId, Batch>, a: InventoryAdjustments.Adjustment): real
  {
    if a.batchId in m then Abs(a.quantity) * m[a.batchId].purchasePrice else 0.0
  }

  function WasteLine(m: map<BatchId, Batch>, products: seq<Products.Product>, a: InventoryAdjustments.Adjustment)
    : Contribution
  {
    Contribution(a.productId, NameOf(products, a.productId), Abs(a.quantity), WasteValue(m, a))
  }

  function WasteLines(m: map<BatchId, Batch>, products: seq<Products.Product>,
                      adjustments: seq<InventoryAdjustments.Adjustment>): (r: seq<Contribution>)
    ensures |r| == |adjustments|
  {
    if adjustments == [] then []
    else WasteLines(m, products, adjustments[..|adjustments| - 1]) + [WasteLine(m, products, adjustments[|adjustments| - 1])]
  }

  /** One `by_type` entry. */
  datatype TypeWaste = TypeWaste(adjustmentType: InventoryAdjustments.AdjustmentType, count: nat,
                                 totalQuantity: real, totalValue: real)

  /** The `byType` entry `t` after one more adjustment of value `value`. */
  function Tally(t: TypeWaste, a: InventoryAdjustments.Adjustment, value: real): TypeWaste
  {
    if a.adjustmentType == t.adjustmentType then
      TypeWaste(t.adjustmentType, t.count + 1, t.totalQuantity + Abs(a.quantity), t.totalValue + value)
    else t
  }

  function TypeWasteOf(m: map<BatchId, Batch>, adjustments: seq<InventoryAdjustments.Adjustment>,
                       t: InventoryAdjustments.AdjustmentType): (r: TypeWaste)
    ensures r.adjustmentType == t && r.count <= |adjustments| && r.totalQuantity >= 0.0
  {
    if adjustments == [] then TypeWaste(t, 0, 0.0, 0.0)
    else
      var a := adjustments[|adjustments| - 1];
      Tally(TypeWasteOf(m, adjustments[..|adjustments| - 1], t), a, WasteValue(m, a))
  }

  /** `totalWasteValue` */
  function TotalValue(m: map<BatchId, Batch>, adjustments: seq<InventoryAdjustments.Adjustment>): real
  {
    if adjustments == [] then 0.0
    else TotalValue(m, adjustments[..|adjustments| - 1]) + WasteValue(m, adjustments[|adjustments| - 1])
  }

  /** One `by_product` entry. */
  datatype ProductWaste = ProductWaste(productId: string, productName: string, totalQuantity: real, totalValue: real)

  function ProductWasteRow(g: Group): ProductWaste { ProductWaste(g.productId, g.name, g.quantity, g.amount) }

  /** Descending by value, ties in first-seen order. */
  function WasteValueKey(r: ProductWaste): real { -r.totalValue }

  /** `WasteSummaryReport` */
  datatype WasteSummaryReport = WasteSummaryReport(totalWaste: real, totalWasteValue: real, byType: seq<TypeWaste>,
                                                   byProduct: seq<ProductWaste>)

  /** `getWasteSummary`: the per-product entries keep the name of the
      product as the product list has it, or "Desconocido". */
  function WasteSummary(m: map<BatchId, Batch>, products: seq<Products.Product>,
                        adjustments: seq<InventoryAdjustments.Adjustment>, start: DateInput, end: DateInput)
    : WasteSummaryReport
  {
    var selected := WasteSelection(adjustments, start, end);
    WasteSummaryReport(
      InventoryAdjustments.SumAbs(selected), TotalValue(m, selected),
      [TypeWasteOf(m, selected, InventoryAdjustments.WasteExpired), TypeWasteOf(m, selected, InventoryAdjustments.WasteDamaged)],
      Ranked(GroupAll(WasteLines(m, products, selected)), ProductWasteRow, WasteValueKey, 10))
  }

  /** The two waste types split the selected adjustments: their counts add up
      to the number selected, their quantities to `total_waste` and their
      values to `total_waste_value`. */
  lemma {:induction false} WasteByTypePartition(m: map<BatchId, Batch>, adjustments: seq<InventoryAdjustments.Adjustment>)
    requires forall a :: a in adjustments ==> InventoryAdjustments.IsWaste(a.adjustmentType)
    ensures var e := TypeWasteOf(m, adjustments, InventoryAdjustments.WasteExpired);
      var d := TypeWasteOf(m, adjustments, InventoryAdjustments.WasteDamaged);
      e.count + d.count == |adjustments|
      && e.totalQuantity + d.totalQuantity == InventoryAdjustments.SumAbs(adjustments)
      && e.totalValue + d.totalValue == TotalValue(m, adjustments)
  {
    if adjustments != [] {
      var init := adjustments[..|adjustments| - 1];
      assert forall a :: a in init ==> a in adjustments;
      WasteByTypePartition(m, init);
      assert adjustments[|adjustments| - 1] in adjustments;
    }
  }

  lemma {:induction false} WasteLinesQuantity(m: map<BatchId, Batch>, products: seq<Products.Product>,
                                              adjustments: seq<InventoryAdjustments.Adjustment>)
    ensures LinesQuantity(WasteLines(m, products, adjustments)) == InventoryAdjustments.SumAbs(adjustments)
  {
    if adjustments != [] {
      var init := adjustments[..|adjustments| - 1];
      WasteLinesQuantity(m, products, init);
      assert WasteLines(m, products, adjustments)[..|adjustments| - 1] == WasteLines(m, products, init);
    }
  }

  /** The summary's `by_type` splits its totals: the two types' counts add
      up to the number of waste adjustments selected, their quantities to
      `total_waste` and their values to `total_waste_value`. */
  lemma WasteSummaryByType(m: map<BatchId, Batch>, products: seq<Products.Product>,
                           adjustments: seq<InventoryAdjustments.Adjustment>, start: DateInput, end: DateInput)
    ensures var r := WasteSummary(m, products, adjustments, start, end);
      r.byType[0].count + r.byType[1].count == |WasteSelection(adjustments, start, end)|
      && r.byType[0].totalQuantity + r.byType[1].totalQuantity == r.totalWaste
      && r.byType[0].totalValue + r.byType[1].totalValue == r.totalWasteValue
  {
    var selected := WasteSelection(adjustments, start, end);
    forall a | a in selected ensures InventoryAdjustments.IsWaste(a.adjustmentType) {
      WasteSelectionMembers(adjustments, start, end, a);
    }
    WasteByTypePartition(m, selected);
  }

  /** The summary's `by_product` holds at most 10 products, most wasted value
      first, each with the name of its first line and its own sums. */
  lemma WasteSummaryByProduct(m: map<BatchId, Batch>, products: seq<Products.Product>,
                              adjustments: seq<InventoryAdjustments.Adjustment>, start: DateInput, end: DateInput)
    ensures var r := WasteSummary(m, products, adjustments, start, end);
      |r.byProduct| <= 10
      && (forall i, j :: 0 <= i < j < |r.byProduct| ==> r.byProduct[i].totalValue >= r.byProduct[j].totalValue)
    ensures var lines := WasteLines(m, products, WasteSelection(adjustments, start, end));
      forall w :: w in WasteSummary(m, products, adjustments, start, end).byProduct ==>
        Expected(lines, w.productId) == Some(Group(w.productId, w.productName, w.totalQuantity, w.totalValue,
                                                   CountOf(lines, w.productId)))
  {
    var lines := WasteLines(m, products, WasteSelection(adjustments, start, end));
    var gs := GroupAll(lines);
    var r := WasteSummary(m, products, adjustments, start, end);
    RankedSpec(gs, ProductWasteRow, WasteValueKey, 10);
    GroupAllEntries(lines);
    forall w | w in r.byProduct
      ensures Expected(lines, w.productId) == Some(Group(w.productId, w.productName, w.totalQuantity, w.totalValue,
                                                         CountOf(lines, w.productId)))
    {
      var g :| g in gs && w == ProductWasteRow(g);
    }
  }

  /** The products' waste quantities add up to `total_waste`, and with 10
      products or fewer `by_product` names every product with a waste line. */
  lemma WasteSummaryComplete(m: map<BatchId, Batch>, products: seq<Products.Product>,
                             adjustments: seq<InventoryAdjustments.Adjustment>, start: DateInput, end: DateInput)
    ensures var lines := WasteLines(m, products, WasteSelection(adjustments, start, end));
      TotalQuantity(GroupAll(lines)) == WasteSummary(m, products, adjustments, start, end).totalWaste
      && (|GroupAll(lines)| <= 10 ==>
            forall id :: CountOf(lines, id) > 0 ==>
              exists w :: w in WasteSummary(m, products, adjustments, start, end).byProduct && w.productId == id)
  {
    var selected := WasteSelection(adjustments, start, end);
    var lines := WasteLines(m, products, selected);
    var gs := GroupAll(lines);
    var r := WasteSummary(m, products, adjustments, start, end);
    GroupAllTotal(lines);
    WasteLinesQuantity(m, products, selected);
    if |gs| <= 10 {
      RankedSpec(gs, ProductWasteRow, WasteValueKey, 10);
      forall id | CountOf(lines, id) > 0 ensures exists w :: w in r.byProduct && w.productId == id {
        GroupAllKeys(lines, id);
        var g :| g in gs && g.productId == id;
        assert ProductWasteRow(g) in r.byProduct;
      }
    }
  }

  /** `getWasteSummary`: the filters, then one `forEach` that adds each
      adjustment to the running value, to its type and to its product, and
      the `reduce` for the total quantity. */
  method WasteSummaryOf(m: map<BatchId, Batch>, products: seq<Products.Product>,
                        adjustments: seq<InventoryAdjustments.Adjustment>, start: DateInput, end: DateInput)
    returns (report: WasteSummaryReport)
    ensures report == WasteSummary(m, products, adjustments, start, end)
  {
    var selected := WasteSelection(adjustments, start, end);
    var totalValue, expired, damaged, byProduct := WasteTally(m, products, selected);
    var totalWaste := InventoryAdjustments.SumAbs(selected);
    report := WasteSummaryReport(totalWaste, totalValue, [expired, damaged],
                                 Ranked(byProduct, ProductWasteRow, WasteValueKey, 10));
  }

  /** The `forEach` of `getWasteSummary` over the selected adjustments. */
  method WasteTally(m: map<BatchId, Batch>, products: seq<Products.Product>,
                    selected: seq<InventoryAdjustments.Adjustment>)
    returns (totalValue: real, expired: TypeWaste, damaged: TypeWaste, byProduct: seq<Group>)
    ensures totalValue == TotalValue(m, selected)
    ensures expired == TypeWasteOf(m, selected, InventoryAdjustments.WasteExpired)
    ensures damaged == TypeWasteOf(m, selected, InventoryAdjustments.WasteDamaged)
    ensures byProduct == GroupAll(WasteLines(m, products, selected))
  {
    totalValue := 0.0;
    expired := TypeWaste(InventoryAdjustments.WasteExpired, 0, 0.0, 0.0);
    damaged := TypeWaste(InventoryAdjustments.WasteDamaged, 0, 0.0, 0.0);
    byProduct := [];
    var i := 0;
    while i < |selected|
      invariant 0 <= i <= |selected|
      invariant totalValue == TotalValue(m, selected[..i])
      invariant expired == TypeWasteOf(m, selected[..i], InventoryAdjustments.WasteExpired)
      invariant damaged == TypeWasteOf(m, selected[..i], InventoryAdjustments.WasteDamaged)
      invariant byProduct == GroupAll(WasteLines(m, products, selected[..i]))
    {
      var a := selected[i];
      WasteStep(m, products, selected, i);
      var value := WasteValue(m, a);
      totalValue := totalValue + value;
      expired := Tally(expired, a, value);
      damaged := Tally(damaged, a, value);
      byProduct := Add(byProduct, Contribution(a.productId, NameOf(products, a.productId), Abs(a.quantity), value));
      i := i + 1;
    }
    assert selected[..i] == selected;
  }

  /** What one more adjustment adds to each running total of the tally. */
  lemma WasteStep(m: map<BatchId, Batch>, products: seq<Products.Product>,
                  selected: seq<InventoryAdjustments.Adjustment>, i: nat)
    requires i < |selected|
    ensures var a := selected[i];
      TotalValue(m, selected[..i + 1]) == TotalValue(m, selected[..i]) + WasteValue(m, a)
      && TypeWasteOf(m, selected[..i + 1], InventoryAdjustments.WasteExpired)
         == Tally(TypeWasteOf(m, selected[..i], InventoryAdjustments.WasteExpired), a, WasteValue(m, a))
      && TypeWasteOf(m, selected[..i + 1], InventoryAdjustments.WasteDamaged)
         == Tally(TypeWasteOf(m, selected[..i], InventoryAdjustments.WasteDamaged), a, WasteValue(m, a))
      && GroupAll(WasteLines(m, products, selected[..i + 1]))
         == Add(GroupAll(WasteLines(m, products, selected[..i])), WasteLine(m, products, a))
  {
    var s := selected[..i + 1];
    assert s[..|s| - 1] == selected[..i] && s[|s| - 1] == selected[i];
    var lines := WasteLines(m, products, s);
    assert lines[..|lines| - 1] == WasteLines(m, products, selected[..i]);
  }

  // ------------------------------------------------------ top sellers

  /** `filters.limit || 10` */
  function Limit(limit: Option<int>): int
  {
    if limit.Some? && limit.value != 0 then limit.value else 10
  }

  /** The sales within the date range, in collection order. */
  function SalesIn(sales: seq<Sales.Sale>, start: DateInput, end: DateInput): seq<Sales.Sale>
  {
    if sales == [] then []
    else
      var sale := sales[|sales| - 1];
      SalesIn(sales[..|sales| - 1], start, end) + (if InDateRange(sale.createdAt, start, end) then [sale] else [])
  }

  function ItemLine(item: Sales.SaleItem): Contribution
  {
    Contribution(item.productId, item.productName, item.quantity, item.subtotal)
  }

  function ItemLines(items: seq<Sales.SaleItem>): (r: seq<Contribution>)
    ensures |r| == |items|
  {
    if items == [] then [] else ItemLines(items[..|items| - 1]) + [ItemLine(items[|items| - 1])]
  }

  /** Every item of every sale, sale by sale. */
  function SaleLines(sales: seq<Sales.Sale>): seq<Contribution>
  {
    if sales == [] then [] else SaleLines(sales[..|sales| - 1]) + ItemLines(sales[|sales| - 1].items)
  }

  /** `TopSellingProduct` */
  datatype TopSellingProduct = TopSellingProduct(productId: string, productName: string, totalQuantitySold: real,
                                                 totalAmount: real, salesCount: nat)

  function TopSellingRow(g: Group): TopSellingProduct
  {
    TopSellingProduct(g.productId, g.name, g.quantity, g.amount, g.count)
  }

  /** Descending by quantity sold, ties in first-sold order. */
  function QuantitySoldKey(r: TopSellingProduct): real { -r.totalQuantitySold }

  /** `getTopSellingProducts` */
  function TopSelling(sales: seq<Sales.Sale>, start: DateInput, end: DateInput, limit: Option<int>)
    : seq<TopSellingProduct>
  {
    Ranked(GroupAll(SaleLines(SalesIn(sales, start, end))), TopSellingRow, QuantitySoldKey, Limit(limit))
  }

  lemma {:induction false} SalesInMembers(sales: seq<Sales.Sale>, start: DateInput, end: DateInput, sale: Sales.Sale)
    ensures sale in SalesIn(sales, start, end) <==> sale in sales && InDateRange(sale.createdAt, start, end)
  {
    if sales != [] {
      var init := sales[..|sales| - 1];
      SalesInMembers(init, start, end, sale);
      assert sales == init + [sales[|sales| - 1]];
    }
  }

  /** The ranking: most units first, at most `limit` rows when the limit is
      positive, each row the first-seen name and the sums of its product's
      items over the sales in range, one row per product; with a limit at
      least the number of products sold, every product sold is there. */
  lemma TopSellingSpec(sales: seq<Sales.Sale>, start: DateInput, end: DateInput, limit: Option<int>)
    ensures var r := TopSelling(sales, start, end, limit);
      (Limit(limit) >= 0 ==> |r| <= Limit(limit))
      && (forall i, j :: 0 <= i < j < |r| ==> r[i].totalQuantitySold >= r[j].totalQuantitySold)
      && (forall i, j :: 0 <= i < j < |r| ==> r[i].productId != r[j].productId)
    ensures var lines := SaleLines(SalesIn(sales, start, end));
      forall t :: t in TopSelling(sales, start, end, limit) ==>
        Expected(lines, t.productId)
          == Some(Group(t.productId, t.productName, t.totalQuantitySold, t.totalAmount, t.salesCount))
    ensures var lines := SaleLines(SalesIn(sales, start, end));
      Limit(limit) >= |GroupAll(lines)| ==>
        forall id :: CountOf(lines, id) > 0 ==>
          exists t :: t in TopSelling(sales, start, end, limit) && t.productId == id
  {
    var lines := SaleLines(SalesIn(sales, start, end));
    var gs := GroupAll(lines);
    var r := TopSelling(sales, start, end, limit);
    RankedSpec(gs, TopSellingRow, QuantitySoldKey, Limit(limit));
    GroupAllEntries(lines);
    forall t | t in r
      ensures Expected(lines, t.productId)
                == Some(Group(t.productId, t.productName, t.totalQuantitySold, t.totalAmount, t.salesCount))
    {
      var g :| g in gs && t == TopSellingRow(g);
    }
    GroupAllDistinct(lines);
    assert forall i, j :: 0 <= i < j < |gs| ==> TopSellingRow(gs[i]) != TopSellingRow(gs[j]);
    forall i, j | 0 <= i < j < |r| ensures r[i].productId != r[j].productId {
      assert r[i] in r && r[j] in r;
    }
    if Limit(limit) >= |gs| {
      forall id | CountOf(lines, id) > 0 ensures exists t :: t in r && t.productId == id {
        GroupAllKeys(lines, id);
        var g :| g in gs && g.productId == id;
        assert TopSellingRow(g) in r;
      }
    }
  }

  /** `getTopSellingProducts`: the date filter, the nested `forEach` that
      fills the map, then the ranking. */
  method TopSellingProducts(sales: seq<Sales.Sale>, start: DateInput, end: DateInput, limit: Option<int>)
    returns (top: seq<TopSellingProduct>)
    ensures top == TopSelling(sales, start, end, limit)
  {
    var n := if limit.Some? && limit.value != 0 then limit.value else 10;
    var selected := SalesIn(sales, start, end);
    var groups: seq<Group> := [];
    var i := 0;
    while i < |selected|
      invariant 0 <= i <= |selected|
      invariant groups == GroupAll(SaleLines(selected[..i]))
    {
      SaleLinesStep(selected, i);
      groups := AddItems(groups, SaleLines(selected[..i]), selected[i].items);
      i := i + 1;
    }
    assert selected[..i] == selected;
    top := Ranked(groups, TopSellingRow, QuantitySoldKey, n);
  }

  /** The inner `forEach` of `getTopSellingProducts`: each item of one sale
      is added to its product's entry. */
  method AddItems(groups: seq<Group>, ghost before: seq<Contribution>, items: seq<Sales.SaleItem>)
    returns (r: seq<Group>)
    requires groups == GroupAll(before)
    ensures r == GroupAll(before + ItemLines(items))
  {
    r := groups;
    var k := 0;
    assert before + ItemLines(items[..0]) == before;
    while k < |items|
      invariant 0 <= k <= |items|
      invariant r == GroupAll(before + ItemLines(items[..k]))
    {
      ItemLinesStep(before, items, k);
      var item := items[k];
      r := Add(r, Contribution(item.productId, item.productName, item.quantity, item.subtotal));
      k := k + 1;
    }
    assert items[..k] == items;
  }

  /** One more item of a sale, added to the lines so far. */
  lemma ItemLinesStep(before: seq<Contribution>, items: seq<Sales.SaleItem>, k: nat)
    requires k < |items|
    ensures GroupAll(before + ItemLines(items[..k + 1]))
            == Add(GroupAll(before + ItemLines(items[..k])), ItemLine(items[k]))
  {
    var prefix := items[..k + 1];
    assert prefix[..|prefix| - 1] == items[..k] && prefix[|prefix| - 1] == items[k];
    var lines := before + ItemLines(prefix);
    assert lines == before + ItemLines(items[..k]) + [ItemLine(items[k])];
    assert lines[..|lines| - 1] == before + ItemLines(items[..k]);
  }

  /** One more sale: its items' lines follow the earlier sales' lines. */
  lemma SaleLinesStep(sales: seq<Sales.Sale>, i: nat)
    requires i < |sales|
    ensures SaleLines(sales[..i + 1]) == SaleLines(sales[..i]) + ItemLines(sales[i].items)
  {
    var prefix := sales[..i + 1];
    assert prefix[..|prefix| - 1] == sales[..i] && prefix[|prefix| - 1] == sales[i];
  }

  // ----------------------------------------------------- slow movers

  /** `filters.days_without_sales || 30` */
  function Window(days: Option<int>): int
  {
    if days.Some? && days.value != 0 then days.value else 30
  }

  /** The cut-off `days` whole days before `now`. */
  function Cutoff(now: int, days: Option<int>): int
  {
    now - Window(days) * MsPerDay
  }

  /** `lastSaleMap` after the items of one more sale made at `at`: a product
      keeps the later of its date and `at`. */
  function NoteSale(last: map<string, int>, items: seq<Sales.SaleItem>, at: int): map<string, int>
  {
    if items == [] then last
    else
      var prev := NoteSale(last, items[..|items| - 1], at);
      var id := items[|items| - 1].productId;
      if id !in prev || at > prev[id] then prev[id := at] else prev
  }

  /** `lastSaleMap` after all the sales. */
  function LastSales(sales: seq<Sales.Sale>): map<string, int>
  {
    if sales == [] then map[]
    else NoteSale(LastSales(sales[..|sales| - 1]), sales[|sales| - 1].items, sales[|sales| - 1].createdAt)
  }

  predicate SoldIn(items: seq<Sales.SaleItem>, id: string)
  {
    exists k :: 0 <= k < |items| && items[k].productId == id
  }

  /** The date of the latest sale that sold the product, on its own. */
  function LastSaleOf(sales: seq<Sales.Sale>, id: string): Option<int>
  {
    if sales == [] then None
    else
      var prev := LastSaleOf(sales[..|sales| - 1], id);
      var sale := sales[|sales| - 1];
      if !SoldIn(sale.items, id) then prev
      else if prev.None? || sale.createdAt > prev.value then Some(sale.createdAt)
      else prev
  }

  function Find(last: map<string, int>, id: string): Option<int>
  {
    if id in last then Some(last[id]) else None
  }

  lemma {:induction false} NoteSaleSpec(last: map<string, int>, items: seq<Sales.SaleItem>, at: int, id: string)
    ensures Find(NoteSale(last, items, at), id) ==
      if !SoldIn(items, id) then Find(last, id)
      else if id in last && last[id] >= at then Some(last[id])
      else Some(at)
  {
    if items != [] {
      var init := items[..|items| - 1];
      NoteSaleSpec(last, init, at, id);
      if SoldIn(items, id) && !SoldIn(init, id) {
        var k :| 0 <= k < |items| && items[k].productId == id;
        assert k == |init| by {
          assert forall j :: 0 <= j < |init| ==> items[j] == init[j];
        }
      }
      if SoldIn(init, id) {
        var k :| 0 <= k < |init| && init[k].productId == id;
        assert items[k].productId == id;
      }
      if items[|items| - 1].productId == id {
        assert SoldIn(items, id);
      }
    }
  }

  /** The map the loop builds holds, for each product, the date of its
      latest sale, and only products that were sold. */
  lemma {:induction false} LastSalesSpec(sales: seq<Sales.Sale>, id: string)
    ensures Find(LastSales(sales), id) == LastSaleOf(sales, id)
  {
    if sales != [] {
      var init := sales[..|sales| - 1];
      LastSalesSpec(init, id);
      NoteSaleSpec(LastSales(init), sales[|sales| - 1].items, sales[|sales| - 1].createdAt, id);
    }
  }

  /** The reference is the latest date among the sales that sold the
      product, and there is one exactly when some sale sold it. */
  lemma {:induction false} LastSaleOfIsLatest(sales: seq<Sales.Sale>, id: string)
    ensures LastSaleOf(sales, id).Some? <==> exists i :: 0 <= i < |sales| && SoldIn(sales[i].items, id)
    ensures LastSaleOf(sales, id).Some? ==>
      (forall i :: 0 <= i < |sales| && SoldIn(sales[i].items, id) ==> sales[i].createdAt <= LastSaleOf(sales, id).value)
      && exists i :: 0 <= i < |sales| && SoldIn(sales[i].items, id) && sales[i].createdAt == LastSaleOf(sales, id).value
  {
    if sales != [] {
      var init := sales[..|sales| - 1];
      LastSaleOfIsLatest(init, id);
      assert forall i :: 0 <= i < |init| ==> init[i] == sales[i];
    }
  }

  /** `SlowMovingProduct`; `last_sale_date` is set only for a product that
      was sold. */
  datatype SlowMovingProduct = SlowMovingProduct(productId: string, productName: string, currentStock: real,
                                                 daysSinceLastSale: int, lastSaleDate: Option<int>)

  function SlowRow(stock: real, lastSale: Option<int>, p: Products.Product, now: int, cutoff: int)
    : Option<SlowMovingProduct>
  {
    if stock == 0.0 then None
    else if lastSale.None? || lastSale.value < cutoff then
      Some(SlowMovingProduct(p.id, p.name, stock, if lastSale.Some? then DaysUntil(now, lastSale.value) else 999,
                             lastSale))
    else None
  }

  /** The rows in product order, before sorting. */
  function SlowRows(batches: seq<Batch>, last: map<string, int>, products: seq<Products.Product>, now: int,
                    cutoff: int): seq<SlowMovingProduct>
  {
    if products == [] then []
    else
      var p := products[|products| - 1];
      SlowRows(batches, last, products[..|products| - 1], now, cutoff)
      + (if p.isActive then OptSeq(SlowRow(StockIn(batches, p.id), Find(last, p.id), p, now, cutoff)) else [])
  }

  /** Longest without a sale first, ties in product order. */
  function DaysSinceKey(r: SlowMovingProduct): real { -(r.daysSinceLastSale as real) }

  /** `getSlowMovingProducts` */
  function SlowMoving(m: map<BatchId, Batch>, products: seq<Products.Product>, sales: seq<Sales.Sale>, now: int,
                      days: Option<int>): seq<SlowMovingProduct>
  {
    SortBy(SlowRows(InStock(m), LastSales(sales), products, now, Cutoff(now, days)), DaysSinceKey)
  }

  /** Every row is an active product with stock whose last sale is unknown
      or before the cut-off; every such product has its row. */
  lemma {:induction false} SlowRowsSpec(batches: seq<Batch>, last: map<string, int>, products: seq<Products.Product>,
                                        now: int, cutoff: int)
    ensures forall r :: r in SlowRows(batches, last, products, now, cutoff) ==>
      exists p :: p in products && p.isActive && p.id == r.productId && p.name == r.productName
        && r.currentStock == StockIn(batches, p.id) && r.lastSaleDate == Find(last, p.id)
    ensures forall r :: r in SlowRows(batches, last, products, now, cutoff) ==>
      r.currentStock != 0.0 && (r.lastSaleDate.None? || r.lastSaleDate.value < cutoff)
      && r.daysSinceLastSale == (if r.lastSaleDate.Some? then DaysUntil(now, r.lastSaleDate.value) else 999)
    ensures forall p :: (p in products && p.isActive && StockIn(batches, p.id) != 0.0
                         && (Find(last, p.id).None? || Find(last, p.id).value < cutoff)) ==>
      SlowRow(StockIn(batches, p.id), Find(last, p.id), p, now, cutoff).Some?
      && SlowRow(StockIn(batches, p.id), Find(last, p.id), p, now, cutoff).value in SlowRows(batches, last, products, now, cutoff)
  {
    if products != [] {
      var init := products[..|products| - 1];
      SlowRowsSpec(batches, last, init, now, cutoff);
      assert forall p :: p in init ==> p in products;
      assert forall p :: p in products ==> p in init || p == products[|products| - 1];
    }
  }

  /** A product sold before the cut-off of `w` days has gone more than `w`
      days without a sale. */
  lemma DaysSinceBeyondWindow(lastSale: int, now: int, w: int)
    requires lastSale < now - w * MsPerDay
    ensures DaysUntil(now, lastSale) > w
  {
  }

  /** The report: longest without a sale first; each row's stock is the
      product's stock in the ledger and its last sale the latest sale of
      the product; a product that was sold is listed only when that was
      more than the window's days ago. */
  lemma SlowMovingSpec(m: map<BatchId, Batch>, products: seq<Products.Product>, sales: seq<Sales.Sale>, now: int,
                       days: Option<int>)
    ensures var r := SlowMoving(m, products, sales, now, days);
      forall i, j :: 0 <= i < j < |r| ==> r[i].daysSinceLastSale >= r[j].daysSinceLastSale
    ensures forall r :: r in SlowMoving(m, products, sales, now, days) ==>
      r.currentStock == SumCurrent(StockedBatches(m, r.productId)) && r.currentStock != 0.0
      && r.lastSaleDate == LastSaleOf(sales, r.productId)
      && (r.lastSaleDate.Some? ==> r.daysSinceLastSale > Window(days))
      && (r.lastSaleDate.None? ==> r.daysSinceLastSale == 999)
  {
    var rows := SlowRows(InStock(m), LastSales(sales), products, now, Cutoff(now, days));
    SortByCorrect(rows, DaysSinceKey);
    SlowRowsSpec(InStock(m), LastSales(sales), products, now, Cutoff(now, days));
    forall r | r in SlowMoving(m, products, sales, now, days)
      ensures r.currentStock == SumCurrent(StockedBatches(m, r.productId)) && r.currentStock != 0.0
        && r.lastSaleDate == LastSaleOf(sales, r.productId)
        && (r.lastSaleDate.Some? ==> r.daysSinceLastSale > Window(days))
        && (r.lastSaleDate.None? ==> r.daysSinceLastSale == 999)
    {
      SortByMembers(rows, DaysSinceKey, r);
      StockInIsStock(m, r.productId);
      LastSalesSpec(sales, r.productId);
      if r.lastSaleDate.Some? {
        DaysSinceBeyondWindow(r.lastSaleDate.value, now, Window(days));
      }
    }
  }

  /** The nested `forEach` that fills `lastSaleMap`. */
  method LastSaleMap(sales: seq<Sales.Sale>) returns (last: map<string, int>)
    ensures last == LastSales(sales)
  {
    last := map[];
    var i := 0;
    while i < |sales|
      invariant 0 <= i <= |sales|
      invariant last == LastSales(sales[..i])
    {
      var sale := sales[i];
      assert sales[..i + 1][..i] == sales[..i];
      ghost var before := last;
      var k := 0;
      while k < |sale.items|
        invariant 0 <= k <= |sale.items|
        invariant last == NoteSale(before, sale.items[..k], sale.createdAt)
      {
        var item := sale.items[k];
        assert sale.items[..k + 1][..k] == sale.items[..k];
        if item.productId !in last || sale.createdAt > last[item.productId] {
          last := last[item.productId := sale.createdAt];
        }
        k := k + 1;
      }
      assert sale.items[..k] == sale.items;
      i := i + 1;
    }
    assert sales[..i] == sales;
  }

  /** `getSlowMovingProducts`: the stock map, the last-sale map, one pass
      over the active products, then the sort by days without a sale. */
  method SlowMovingProducts(m: map<BatchId, Batch>, products: seq<Products.Product>, sales: seq<Sales.Sale>,
                            now: int, days: Option<int>)
    returns (report: seq<SlowMovingProduct>)
    ensures report == SlowMoving(m, products, sales, now, days)
  {
    var window := if days.Some? && days.value != 0 then days.value else 30;
    var cutoff := now - window * MsPerDay;
    var batches := InStock(m);
    var stock := StockMap(batches);
    var last := LastSaleMap(sales);
    assert cutoff == Cutoff(now, days);
    var rows := CollectSlowRows(batches, stock, last, products, now, cutoff);
    assert rows == SlowRows(InStock(m), LastSales(sales), products, now, Cutoff(now, days));
    report := SortBy(rows, DaysSinceKey);
  }

  /** The `forEach` over the products of `getSlowMovingProducts`. */
  method CollectSlowRows(batches: seq<Batch>, stock: map<string, real>, last: map<string, int>,
                         products: seq<Products.Product>, now: int, cutoff: int)
    returns (rows: seq<SlowMovingProduct>)
    requires forall id :: Get(stock, id) == StockIn(batches, id)
    ensures rows == SlowRows(batches, last, products, now, cutoff)
  {
    rows := [];
    var i := 0;
    while i < |products|
      invariant 0 <= i <= |products|
      invariant rows == SlowRows(batches, last, products[..i], now, cutoff)
    {
      var p := products[i];
      assert products[..i + 1][..i] == products[..i];
      if p.isActive {
        var current := Get(stock, p.id);
        if current != 0.0 {
          if p.id !in last || last[p.id] < cutoff {
            var since := if p.id in last then DaysUntil(now, last[p.id]) else 999;
            var lastSale := if p.id in last then Some(last[p.id]) else None;
            rows := rows + [SlowMovingProduct(p.id, p.name, current, since, lastSale)];
          }
        }
      }
      i := i + 1;
    }
    assert products[..i] == products;
  }

  // -------------------------------------------------------- dashboard

  /** Seven days before the start of today. */
  function WeekStart(todayStart: int): int { todayStart - 7 * MsPerDay }

  /** Σ `total` of the sales made at or after `since`. */
  function SalesSince(sales: seq<Sales.Sale>, since: int): real
  {
    if sales == [] then 0.0
    else
      var sale := sales[|sales| - 1];
      SalesSince(sales[..|sales| - 1], since) + (if sale.createdAt >= since then sale.total else 0.0)
  }

  /** Σ `total` of the purchases created at or after `since`, or of all. */
  function PurchasesSince(purchases: seq<Purchases.Purchase>, since: Option<int>): real
  {
    if purchases == [] then 0.0
    else
      var p := purchases[|purchases| - 1];
      PurchasesSince(purchases[..|purchases| - 1], since)
      + (if since.None? || p.createdAt >= since.value then p.total else 0.0)
  }

  function PendingCount(purchases: seq<Purchases.Purchase>): (r: nat)
    ensures r <= |purchases|
  {
    if purchases == [] then 0
    else PendingCount(purchases[..|purchases| - 1]) + (if purchases[|purchases| - 1].status == Purchases.Pending then 1 else 0)
  }

  /** Σ `current_quantity * purchase_price`; never negative when no
      quantity or price is. */
  function InventoryValue(batches: seq<Batch>): (r: real)
    ensures (forall k :: 0 <= k < |batches| ==> batches[k].currentQuantity >= 0.0 && batches[k].purchasePrice >= 0.0)
            ==> r >= 0.0
  {
    if batches == [] then 0.0
    else InventoryValue(batches[..|batches| - 1]) + Worth(batches[|batches| - 1])
  }

  /** What one batch is worth at its purchase price. */
  function Worth(b: Batch): (r: real)
    ensures b.currentQuantity >= 0.0 && b.purchasePrice >= 0.0 ==> r >= 0.0
    ensures b.currentQuantity == 0.0 ==> r == 0.0
  {
    b.currentQuantity * b.purchasePrice
  }

  lemma {:induction false} InventoryValueAppend(a: seq<Batch>, b: seq<Batch>)
    ensures InventoryValue(a + b) == InventoryValue(a) + InventoryValue(b)
    decreases |b|
  {
    if b != [] {
      var b' := b[..|b| - 1];
      var last := b[|b| - 1];
      assert (a + b)[..|a + b| - 1] == a + b';
      assert (a + b)[|a + b| - 1] == last;
      InventoryValueAppend(a, b');
      assert InventoryValue(b) == InventoryValue(b') + Worth(last);
    } else {
      assert a + b == a;
    }
  }

  /** The dashboard reads only the batches with `current_quantity > 0`; the
      empty ones are worth nothing, so the value is that of every batch. */
  lemma {:induction false} InventoryValueOfStocked(batches: seq<Batch>)
    requires forall k :: 0 <= k < |batches| ==> batches[k].currentQuantity >= 0.0
    ensures InventoryValue(Filter(batches, HasStock)) == InventoryValue(batches)
  {
    if batches != [] {
      var b := batches[0];
      var rest := batches[1..];
      assert batches == [b] + rest;
      InventoryValueOfStocked(rest);
      InventoryValueAppend([b], rest);
      if HasStock(b) {
        InventoryValueAppend([b], Filter(rest, HasStock));
      } else {
        assert b.currentQuantity == 0.0;
        assert InventoryValue([b]) == 0.0 by { assert [b][..0] == []; }
      }
    }
  }

  function ActiveCount(products: seq<Products.Product>): (r: nat)
    ensures r <= |products|
  {
    if products == [] then 0
    else ActiveCount(products[..|products| - 1]) + (if products[|products| - 1].isActive then 1 else 0)
  }

  /** Only active products are counted as low on stock. */
  lemma {:induction false} LowStockWithinActive(batches: seq<Batch>, products: seq<Products.Product>)
    ensures LowStockCount(batches, products) <= ActiveCount(products)
  {
    if products != [] {
      LowStockWithinActive(batches, products[..|products| - 1]);
    }
  }

  /** Σ |quantity| of the waste adjustments made at or after `since`, or of
      all of them. */
  function WasteSince(adjustments: seq<InventoryAdjustments.Adjustment>, since: Option<int>): (r: real)
    ensures r >= 0.0
  {
    if adjustments == [] then 0.0
    else
      var a := adjustments[|adjustments| - 1];
      WasteSince(adjustments[..|adjustments| - 1], since)
      + (if InventoryAdjustments.IsWaste(a.adjustmentType) && (since.None? || a.createdAt >= since.value)
         then Abs(a.quantity) else 0.0)
  }

  datatype SalesMetrics = SalesMetrics(today: real, thisWeek: real, thisMonth: real, total: real)
  datatype PurchaseMetrics = PurchaseMetrics(pending: nat, thisMonth: real, total: real)
  datatype InventoryMetrics = InventoryMetrics(totalValue: real, totalProducts: nat, lowStockCount: nat,
                                               expiringSoonCount: nat)
  datatype WasteMetrics = WasteMetrics(thisWeek: real, thisMonth: real, total: real)

  /** `DashboardMetrics` */
  datatype DashboardMetrics = DashboardMetrics(sales: SalesMetrics, purchases: PurchaseMetrics,
                                               inventory: InventoryMetrics, waste: WasteMetrics)

  /** `getDashboardMetrics`: `todayStart` and `monthStart` are the local
      midnight of today and of the first of the month. */
  function Dashboard(sales: seq<Sales.Sale>, purchases: seq<Purchases.Purchase>, m: map<BatchId, Batch>,
                     products: seq<Products.Product>, adjustments: seq<InventoryAdjustments.Adjustment>, now: int,
                     todayStart: int, monthStart: int): (r: DashboardMetrics)
    ensures r.purchases.pending <= |purchases|
    ensures r.inventory.lowStockCount <= r.inventory.totalProducts <= |products|
    ensures r.inventory.expiringSoonCount <= |m|
    ensures r.waste.thisWeek >= 0.0 && r.waste.thisMonth >= 0.0 && r.waste.total >= 0.0
    ensures (forall id :: id in m ==> m[id].currentQuantity >= 0.0 && m[id].purchasePrice >= 0.0)
            ==> r.inventory.totalValue == InventoryValue(InIdOrder(m)) >= 0.0
  {
    var batches := InStock(m);
    LowStockWithinActive(batches, products);
    DashboardValue(m);
    DashboardMetrics(
      SalesMetrics(SalesSince(sales, todayStart), SalesSince(sales, WeekStart(todayStart)),
                   SalesSince(sales, monthStart), Sales.SumTotals(sales)),
      PurchaseMetrics(PendingCount(purchases), PurchasesSince(purchases, Some(monthStart)),
                      PurchasesSince(purchases, None)),
      InventoryMetrics(InventoryValue(batches), ActiveCount(products), LowStockCount(batches, products),
                       ExpiringSoonCount(batches, now)),
      WasteMetrics(WasteSince(adjustments, Some(WeekStart(todayStart))), WasteSince(adjustments, Some(monthStart)),
                   WasteSince(adjustments, None)))
  }

  /** With no negative quantity or price, the value of the batches in stock
      is the value of them all, and not negative. */
  lemma DashboardValue(m: map<BatchId, Batch>)
    ensures (forall id :: id in m ==> m[id].currentQuantity >= 0.0 && m[id].purchasePrice >= 0.0)
            ==> InventoryValue(InStock(m)) == InventoryValue(InIdOrder(m)) >= 0.0
  {
    if forall id :: id in m ==> m[id].currentQuantity >= 0.0 && m[id].purchasePrice >= 0.0 {
      var all := InIdOrder(m);
      forall k | 0 <= k < |all|
        ensures all[k].currentQuantity >= 0.0 && all[k].purchasePrice >= 0.0
      {
        var id :| id in m && m[id] == all[k];
      }
      InventoryValueOfStocked(all);
    }
  }

  /** A later start counts no more waste, and no start counts it all. */
  lemma {:induction false} WasteSinceMonotone(adjustments: seq<InventoryAdjustments.Adjustment>, early: int, late: int)
    requires early <= late
    ensures WasteSince(adjustments, Some(late)) <= WasteSince(adjustments, Some(early)) <= WasteSince(adjustments, None)
  {
    if adjustments != [] {
      WasteSinceMonotone(adjustments[..|adjustments| - 1], early, late);
    }
  }

  lemma {:induction false} WasteSinceIsSelection(adjustments: seq<InventoryAdjustments.Adjustment>, since: Option<int>)
    ensures WasteSince(adjustments, since)
      == InventoryAdjustments.SumAbs(WasteSelection(adjustments, if since.Some? then Parsed(since.value) else Absent, Absent))
  {
    var start := if since.Some? then Parsed(since.value) else Absent;
    if adjustments != [] {
      var init := adjustments[..|adjustments| - 1];
      var a := adjustments[|adjustments| - 1];
      WasteSinceIsSelection(init, since);
      var sel := WasteSelection(init, start, Absent);
      if InventoryAdjustments.IsWaste(a.adjustmentType) && InDateRange(a.createdAt, start, Absent) {
        assert (sel + [a])[..|sel|] == sel;
      } else {
        assert sel + [] == sel;
      }
    }
  }

  lemma {:induction false} SalesSinceIsSelection(sales: seq<Sales.Sale>, since: int)
    ensures SalesSince(sales, since) == Sales.SumTotals(SalesIn(sales, Parsed(since), Absent))
  {
    if sales != [] {
      var init := sales[..|sales| - 1];
      var sale := sales[|sales| - 1];
      SalesSinceIsSelection(init, since);
      var sel := SalesIn(init, Parsed(since), Absent);
      var full := SalesIn(sales, Parsed(since), Absent);
      if sale.createdAt >= since {
        assert InDateRange(sale.createdAt, Parsed(since), Absent);
        assert full == sel + [sale];
        assert full[..|full| - 1] == sel && full[|full| - 1] == sale;
        assert Sales.SumTotals(full) == Sales.SumTotals(sel) + sale.total;
      } else {
        assert !InDateRange(sale.createdAt, Parsed(since), Absent);
        assert full == sel + [] == sel;
      }
    }
  }

  /** The dashboard agrees with the reports: its waste figures are the waste
      summary's total from the week's start, the month's start and without
      dates, the week's never above the month's when the week starts later,
      and its sales figures are the totals of the sales the top-seller
      filter keeps from each start; its low-stock count is the number of
      rows of the low-stock report, and each record it counts as expiring
      soon is in the expiring report as critical or warning. */
  lemma DashboardMatchesReports(sales: seq<Sales.Sale>, purchases: seq<Purchases.Purchase>, m: map<BatchId, Batch>,
                                products: seq<Products.Product>, adjustments: seq<InventoryAdjustments.Adjustment>,
                                now: int, todayStart: int, monthStart: int)
    ensures var d := Dashboard(sales, purchases, m, products, adjustments, now, todayStart, monthStart);
      d.waste.total == WasteSummary(m, products, adjustments, Absent, Absent).totalWaste
      && d.waste.thisMonth == WasteSummary(m, products, adjustments, Parsed(monthStart), Absent).totalWaste
      && d.waste.thisWeek == WasteSummary(m, products, adjustments, Parsed(WeekStart(todayStart)), Absent).totalWaste
      && (monthStart <= WeekStart(todayStart) ==> d.waste.thisWeek <= d.waste.thisMonth <= d.waste.total)
    ensures var d := Dashboard(sales, purchases, m, products, adjustments, now, todayStart, monthStart);
      d.sales.today == Sales.SumTotals(SalesIn(sales, Parsed(todayStart), Absent))
      && d.sales.thisWeek == Sales.SumTotals(SalesIn(sales, Parsed(WeekStart(todayStart)), Absent))
      && d.sales.thisMonth == Sales.SumTotals(SalesIn(sales, Parsed(monthStart), Absent))
    ensures var d := Dashboard(sales, purchases, m, products, adjustments, now, todayStart, monthStart);
      d.inventory.lowStockCount == |LowStockRows(InStock(m), products)|
      && d.inventory.expiringSoonCount <= |ExpiringRows(InStock(m), products, now, 7)|
  {
    WasteSinceIsSelection(adjustments, None);
    WasteSinceIsSelection(adjustments, Some(monthStart));
    WasteSinceIsSelection(adjustments, Some(WeekStart(todayStart)));
    if monthStart <= WeekStart(todayStart) {
      WasteSinceMonotone(adjustments, monthStart, WeekStart(todayStart));
    }
    SalesSinceIsSelection(sales, todayStart);
    SalesSinceIsSelection(sales, WeekStart(todayStart));
    SalesSinceIsSelection(sales, monthStart);
    LowStockCountIsReport(InStock(m), products);
    ExpiringSoonWithinReport(InStock(m), products, now);
  }
}
