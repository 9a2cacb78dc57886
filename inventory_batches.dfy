/** The inventory batch ledger of back/src/services/inventory-batch.service.ts:
    one record per delivery of a product, whose `current_quantity` every
    sale, adjustment and return draws on. The collection is a map from
    document id to record, held by the `Ledger` class. */
module InventoryBatches {
  import opened Common
  import opened Sorting
  import Products
  import Validation
  import Pagination

  type BatchId = nat

  /** inventory-batch.model.ts; `created_at`/`updated_at` are not kept. */
  datatype Batch = Batch(id: BatchId, productId: string, supplierId: string,
                         batchNumber: Option<string>, initialQuantity: real,
                         currentQuantity: real, purchasePrice: real,
                         entryDate: int, expirationDate: Option<int>,
                         notes: Option<string>, createdBy: string)

  /** Every record sits under its own id and holds a non-negative quantity. */
  ghost predicate WellFormed(m: map<BatchId, Batch>)
  {
    forall id :: id in m ==> m[id].id == id && m[id].currentQuantity >= 0.0
  }

  function EntryKey(b: Batch): real { b.entryDate as real }

  /** The collection as a query without `orderBy` returns it: by document id. */
  function InIdOrder(m: map<BatchId, Batch>): (r: seq<Batch>)
    ensures |r| == |m|
    ensures forall k :: 0 <= k < |r| ==> r[k] in m.Values
  {
    var ids := SortedIds(m.Keys);
    seq(|ids|, k requires 0 <= k < |ids| => m[ids[k]])
  }

  lemma InIdOrderHas(m: map<BatchId, Batch>, id: BatchId)
    requires id in m
    ensures m[id] in InIdOrder(m)
  {
    var ids := SortedIds(m.Keys);
    var k :| 0 <= k < |ids| && ids[k] == id;
    assert InIdOrder(m)[k] == m[id];
  }

  lemma InIdOrderMembers(m: map<BatchId, Batch>, b: Batch)
    ensures b in InIdOrder(m) <==> b in m.Values
  {
    if b in m.Values {
      var id :| id in m && m[id] == b;
      InIdOrderHas(m, id);
    }
  }

  /** The records of one product that still hold stock, by document id
      (`where product_id == id`, `where current_quantity > 0`). */
  function StockedBatches(m: map<BatchId, Batch>, productId: string): seq<Batch>
  {
    Filter(InIdOrder(m), StockOfProduct(productId))
  }

  /** `where current_quantity > 0` */
  predicate HasStock(b: Batch) { b.currentQuantity > 0.0 }

  /** `where product_id == id`, `where current_quantity > 0` */
  function StockOfProduct(productId: string): Batch -> bool
  {
    (b: Batch) => b.productId == productId && HasStock(b)
  }

  lemma StockedBatchesMembers(m: map<BatchId, Batch>, productId: string, b: Batch)
    ensures b in StockedBatches(m, productId)
            <==> b in m.Values && b.productId == productId && b.currentQuantity > 0.0
  {
    InIdOrderMembers(m, b);
    FilterMembers(InIdOrder(m), StockOfProduct(productId), b);
  }

  /** `batches.reduce((sum, b) => sum + b.current_quantity, 0)` */
  function SumCurrent(s: seq<Batch>): real
  {
    if s == [] then 0.0 else s[0].currentQuantity + SumCurrent(s[1..])
  }

  /** A sum of positive quantities is zero exactly when there is nothing to sum. */
  lemma {:induction false} SumCurrentPositive(s: seq<Batch>)
    requires forall k :: 0 <= k < |s| ==> s[k].currentQuantity > 0.0
    ensures SumCurrent(s) >= 0.0
    ensures SumCurrent(s) == 0.0 <==> s == []
  {
    if s != [] {
      SumCurrentPositive(s[1..]);
    }
  }

  lemma StockedSum(m: map<BatchId, Batch>, productId: string)
    ensures SumCurrent(StockedBatches(m, productId)) >= 0.0
    ensures SumCurrent(StockedBatches(m, productId)) == 0.0 <==> StockedBatches(m, productId) == []
  {
    SumCurrentPositive(StockedBatches(m, productId));
  }

  // ---------------------------------------------------------------- create

  datatype CreateBatchRequest = CreateBatchRequest(
    productId: string, supplierId: string, batchNumber: Option<string>,
    initialQuantity: Option<real>, purchasePrice: Option<real>,
    entryDate: DateInput, expirationDate: DateInput, notes: Option<string>)

  function NumField(x: Option<real>): Validation.JsValue
  {
    if x.Some? then Validation.Num(x.value) else Validation.Undefined
  }

  const CreateRequired: seq<string> := ["product_id", "supplier_id", "initial_quantity", "purchase_price"]

  function CreateBody(req: CreateBatchRequest): Validation.Body
  {
    map["product_id" := Validation.Str(req.productId), "supplier_id" := Validation.Str(req.supplierId),
        "initial_quantity" := NumField(req.initialQuantity), "purchase_price" := NumField(req.purchasePrice)]
  }

  /** `x?.trim() ?? null` */
  function TrimOpt(x: Option<string>): Option<string>
  {
    if x.Some? then Some(Trim(x.value)) else None
  }

  /** The checks and the record of `create`, for the id the store hands out.
      An absent entry date is the server time `now`. */
  function PlanBatch(req: CreateBatchRequest, products: seq<Products.Product>,
                     suppliers: seq<Products.Supplier>, userId: string, now: int, id: BatchId): (r: Result<Batch>)
    ensures Validation.ValidateRequiredFields(CreateBody(req), CreateRequired).Fail? ==>
      r == Err(Validation.ValidateRequiredFields(CreateBody(req), CreateRequired).error)
    ensures r.Ok? ==>
      req.productId != "" && req.supplierId != ""
      && req.initialQuantity.Some? && req.initialQuantity.value > 0.0
      && req.purchasePrice.Some? && req.purchasePrice.value > 0.0
      && Products.FindProduct(products, req.productId).Some?
      && Products.FindSupplier(suppliers, req.supplierId).Some?
      && !req.entryDate.Invalid? && !req.expirationDate.Invalid?
    ensures r.Ok? ==>
      var b := r.value;
      b.id == id && b.productId == req.productId && b.supplierId == req.supplierId
      && b.initialQuantity == req.initialQuantity.value
      && b.currentQuantity == b.initialQuantity
      && b.purchasePrice == req.purchasePrice.value
      && b.entryDate == (if req.entryDate.Parsed? then req.entryDate.ms else now)
      && b.expirationDate == (if req.expirationDate.Parsed? then Some(req.expirationDate.ms) else None)
      && b.batchNumber == TrimOpt(req.batchNumber) && b.notes == TrimOpt(req.notes)
      && b.createdBy == userId
    ensures r.Ok? ==> r.value.currentQuantity > 0.0
    ensures Validation.ValidateRequiredFields(CreateBody(req), CreateRequired) == Pass
            && req.initialQuantity.Some? && req.initialQuantity.value < 0.0
            ==> r == Err(BadRequest(NonPositiveQuantity))
    ensures Validation.ValidateRequiredFields(CreateBody(req), CreateRequired) == Pass
            && req.initialQuantity.Some? && req.initialQuantity.value > 0.0
            && req.purchasePrice.Some? && req.purchasePrice.value < 0.0
            ==> r == Err(BadRequest(NegativePrice))
  {
    var check := Validation.ValidateRequiredFields(CreateBody(req), CreateRequired);
    if check.Fail? then Err(check.error)
    else
      assert "initial_quantity" in CreateRequired && "purchase_price" in CreateRequired;
      assert "product_id" in CreateRequired && "supplier_id" in CreateRequired;
      var initial := req.initialQuantity.value;
      var price := req.purchasePrice.value;
      if initial <= 0.0 then Err(BadRequest(NonPositiveQuantity))
      else if price < 0.0 then Err(BadRequest(NegativePrice))
      else if Products.FindProduct(products, req.productId).None? then Err(NotFound(ProductEntity))
      else if Products.FindSupplier(suppliers, req.supplierId).None? then Err(NotFound(SupplierEntity))
      else if req.entryDate.Invalid? then Err(BadRequest(InvalidEntryDate))
      else if req.expirationDate.Invalid? then Err(BadRequest(InvalidExpirationDate))
      else
        var entry := if req.entryDate.Parsed? then req.entryDate.ms else now;
        var expiration := if req.expirationDate.Parsed? then Some(req.expirationDate.ms) else None;
        Ok(Batch(id, req.productId, req.supplierId, TrimOpt(req.batchNumber), initial, initial,
                 price, entry, expiration, TrimOpt(req.notes), userId))
  }

  /** The batch collection. Ids are handed out by a counter, so a new
      document never collides with an existing one. */
  class Ledger {
    var batches: map<BatchId, Batch>
    var nextId: nat

    ghost predicate Valid()
      reads this
    {
      WellFormed(batches) && forall id :: id in batches ==> id < nextId
    }

    constructor ()
      ensures Valid() && batches == map[] && nextId == 0
    {
      batches := map[];
      nextId := 0;
    }

    /** `create`: validates the request and stores a new record whose
        current quantity equals its initial quantity. */
    method Create(req: CreateBatchRequest, products: seq<Products.Product>,
                  suppliers: seq<Products.Supplier>, userId: string, now: int) returns (r: Result<Batch>)
      requires Valid()
      modifies this
      ensures Valid()
      ensures r == PlanBatch(req, products, suppliers, userId, now, old(nextId))
      ensures r.Ok? ==> r.value.id !in old(batches) && batches == old(batches)[r.value.id := r.value]
      ensures r.Err? ==> batches == old(batches)
    {
      r := PlanBatch(req, products, suppliers, userId, now, nextId);
      if r.Ok? {
        batches := batches[nextId := r.value];
        nextId := nextId + 1;
      }
    }

    /** `updateQuantity`: a negative quantity is refused; otherwise the
        record's current quantity becomes exactly the given value. */
    method UpdateQuantity(id: BatchId, quantity: real) returns (r: Outcome)
      requires Valid()
      modifies this
      ensures Valid() && nextId == old(nextId)
      ensures quantity < 0.0 ==> r == Fail(BadRequest(NegativeQuantity))
      ensures quantity >= 0.0 && id !in old(batches) ==> r == Fail(NotFound(BatchEntity))
      ensures r == Pass <==> quantity >= 0.0 && id in old(batches)
      ensures r == Pass ==> batches == old(batches)[id := old(batches)[id].(currentQuantity := quantity)]
      ensures r.Fail? ==> batches == old(batches)
    {
      if quantity < 0.0 {
        return Fail(BadRequest(NegativeQuantity));
      }
      if id !in batches {
        return Fail(NotFound(BatchEntity));
      }
      batches := batches[id := batches[id].(currentQuantity := quantity)];
      r := Pass;
    }
  }

  // ---------------------------------------------------------------- getAll

  /** `InventoryBatchFilters`; an empty product or supplier id does not filter. */
  datatype BatchFilters = BatchFilters(productId: Option<string>, supplierId: Option<string>,
                                       hasStock: Option<bool>, expiringInDays: Option<int>)

  predicate QueryMatch(b: Batch, f: BatchFilters)
  {
    (f.productId.Some? && f.productId.value != "" ==> b.productId == f.productId.value)
    && (f.supplierId.Some? && f.supplierId.value != "" ==> b.supplierId == f.supplierId.value)
  }

  predicate StockMatch(b: Batch, f: BatchFilters)
  {
    f.hasStock.Some? ==> if f.hasStock.value then b.currentQuantity > 0.0 else b.currentQuantity == 0.0
  }

  predicate ExpiryMatch(b: Batch, f: BatchFilters, now: int)
  {
    f.expiringInDays.Some? ==>
      b.expirationDate.Some?
      && now <= b.expirationDate.value <= now + f.expiringInDays.value * MsPerDay
  }

  predicate Matches(b: Batch, f: BatchFilters, now: int)
  {
    QueryMatch(b, f) && StockMatch(b, f) && ExpiryMatch(b, f, now)
  }

  /** The query (equality filters, `orderBy("entry_date", "desc")`), then the
      in-memory stock and expiry filters, before pagination. */
  function Listing(m: map<BatchId, Batch>, f: BatchFilters, now: int): seq<Batch>
  {
    var queried := Filter(InIdOrder(m), b => QueryMatch(b, f));
    var ordered := Reverse(SortBy(queried, EntryKey));
    Filter(Filter(ordered, b => StockMatch(b, f)), b => ExpiryMatch(b, f, now))
  }

  /** The listing holds exactly the records that pass every filter. */
  lemma ListingMembers(m: map<BatchId, Batch>, f: BatchFilters, now: int, b: Batch)
    ensures b in Listing(m, f, now) <==> b in m.Values && Matches(b, f, now)
  {
    var queried := Filter(InIdOrder(m), b => QueryMatch(b, f));
    var sorted := SortBy(queried, EntryKey);
    var ordered := Reverse(sorted);
    var stocked := Filter(ordered, b => StockMatch(b, f));
    InIdOrderMembers(m, b);
    FilterMembers(InIdOrder(m), b => QueryMatch(b, f), b);
    SortByMembers(queried, EntryKey, b);
    assert b in ordered <==> b in sorted by {
      if b in sorted {
        var k :| 0 <= k < |sorted| && sorted[k] == b;
        assert ordered[|sorted| - 1 - k] == b;
      }
    }
    FilterMembers(ordered, b => StockMatch(b, f), b);
    FilterMembers(stocked, b => ExpiryMatch(b, f, now), b);
  }

  lemma {:induction false} FilterKeepsDescending<T>(s: seq<T>, p: T -> bool, key: T -> real)
    requires forall i, j :: 0 <= i < j < |s| ==> key(s[i]) >= key(s[j])
    ensures forall i, j :: 0 <= i < j < |Filter(s, p)| ==> key(Filter(s, p)[i]) >= key(Filter(s, p)[j])
  {
    if s != [] {
      FilterKeepsDescending(s[1..], p, key);
      var rest := Filter(s[1..], p);
      forall k | 0 <= k < |rest| ensures key(s[0]) >= key(rest[k]) {
        FilterMembers(s[1..], p, rest[k]);
        var j :| 0 <= j < |s[1..]| && s[1..][j] == rest[k];
        assert s[j + 1] == rest[k];
      }
    }
  }

  /** The listing is ordered by entry date, newest first. */
  lemma ListingNewestFirst(m: map<BatchId, Batch>, f: BatchFilters, now: int)
    ensures forall i, j :: 0 <= i < j < |Listing(m, f, now)| ==>
      Listing(m, f, now)[i].entryDate >= Listing(m, f, now)[j].entryDate
  {
    var queried := Filter(InIdOrder(m), b => QueryMatch(b, f));
    var sorted := SortBy(queried, EntryKey);
    SortByCorrect(queried, EntryKey);
    ReverseDescending(sorted, EntryKey);
    var ordered := Reverse(sorted);
    FilterKeepsDescending(ordered, b => StockMatch(b, f), EntryKey);
    var stocked := Filter(ordered, b => StockMatch(b, f));
    FilterKeepsDescending(stocked, b => ExpiryMatch(b, f, now), EntryKey);
  }

  datatype Page<T> = Page(data: seq<T>, meta: Pagination.Meta)

  /** `getAll`: one page of the filtered listing, with its metadata. */
  function ListBatches(m: map<BatchId, Batch>, f: BatchFilters, page: Option<int>,
                       limit: Option<int>, now: int): (r: Page<Batch>)
    ensures r.meta.total == |Listing(m, f, now)|
    ensures 1 <= r.meta.limit <= 100 && r.meta.page >= 1 && |r.data| <= r.meta.limit
    ensures forall k :: 0 <= k < |r.data| ==> r.data[k] in m.Values && Matches(r.data[k], f, now)
    ensures r.data == Pagination.PageSlice(Listing(m, f, now), r.meta.page, r.meta.limit)
    ensures forall i, j :: 0 <= i < j < |r.data| ==> r.data[i].entryDate >= r.data[j].entryDate
  {
    var pl := Pagination.Normalize(page, limit);
    var all := Listing(m, f, now);
    var data := Pagination.PageSlice(all, pl.0, pl.1);
    PageProperties(m, f, now, pl.0, pl.1);
    Page(data, Pagination.Calculate(pl.0, pl.1, |all|))
  }

  lemma PageProperties(m: map<BatchId, Batch>, f: BatchFilters, now: int, page: int, limit: int)
    requires page >= 1 && limit >= 1
    ensures var data := Pagination.PageSlice(Listing(m, f, now), page, limit);
      (forall k :: 0 <= k < |data| ==> data[k] in m.Values && Matches(data[k], f, now))
      && forall i, j :: 0 <= i < j < |data| ==> data[i].entryDate >= data[j].entryDate
  {
    var all := Listing(m, f, now);
    PageMembers(all, page, limit, b => b in m.Values && Matches(b, f, now)) by {
      forall b | b in all ensures b in m.Values && Matches(b, f, now) {
        ListingMembers(m, f, now, b);
      }
    }
    ListingNewestFirst(m, f, now);
    PageKeepsDescending(all, page, limit, EntryKey);
  }

  lemma PageMembers<T>(s: seq<T>, page: int, limit: int, p: T -> bool)
    requires page >= 1 && limit >= 1
    requires forall x :: x in s ==> p(x)
    ensures var data := Pagination.PageSlice(s, page, limit);
      forall k :: 0 <= k < |data| ==> p(data[k])
  {
    var data := Pagination.PageSlice(s, page, limit);
    forall k | 0 <= k < |data| ensures p(data[k]) {
      assert data[k] in s;
    }
  }

  lemma PageKeepsDescending<T>(s: seq<T>, page: int, limit: int, key: T -> real)
    requires page >= 1 && limit >= 1
    requires forall i, j :: 0 <= i < j < |s| ==> key(s[i]) >= key(s[j])
    ensures var data := Pagination.PageSlice(s, page, limit);
      forall i, j :: 0 <= i < j < |data| ==> key(data[i]) >= key(data[j])
  {
    var data := Pagination.PageSlice(s, page, limit);
    var start := (page - 1) * limit;
    Pagination.MulMonotone(limit, 0, page - 1);
    assert start >= 0;
    forall i, j | 0 <= i < j < |data| ensures key(data[i]) >= key(data[j]) {
      var a, b := start + i, start + j;
      assert data[i] == s[a] && data[j] == s[b];
      assert 0 <= a < b < |s|;
    }
  }

  // ------------------------------------------------------- getProductStock

  /** ProductStock: the date fields are `None` when they are omitted. */
  datatype ProductStock = ProductStock(productId: string, totalQuantity: real, batchesCount: nat,
                                       oldestBatchDate: Option<int>, nearestExpirationDate: Option<int>)

  /** The earliest entry date of a non-empty list of records. */
  function MinEntry(s: seq<Batch>): (r: int)
    requires s != []
    ensures exists k :: 0 <= k < |s| && s[k].entryDate == r
    ensures forall k :: 0 <= k < |s| ==> r <= s[k].entryDate
  {
    if |s| == 1 then s[0].entryDate
    else
      var rest := MinEntry(s[1..]);
      assert forall k :: 1 <= k < |s| ==> s[k] == s[1..][k - 1];
      if s[0].entryDate <= rest then s[0].entryDate else rest
  }

  /** The nearest expiration date among the records that have one. */
  function MinExpiration(s: seq<Batch>): (r: Option<int>)
    ensures r.None? <==> forall k :: 0 <= k < |s| ==> s[k].expirationDate.None?
    ensures r.Some? ==> exists k :: 0 <= k < |s| && s[k].expirationDate == r
    ensures r.Some? ==> forall k :: 0 <= k < |s| && s[k].expirationDate.Some? ==> r.value <= s[k].expirationDate.value
  {
    if s == [] then None
    else
      var rest := MinExpiration(s[1..]);
      assert forall k :: 1 <= k < |s| ==> s[k] == s[1..][k - 1];
      if s[0].expirationDate.None? then rest
      else if rest.None? || s[0].expirationDate.value <= rest.value then s[0].expirationDate
      else rest
  }

  /** `getProductStock` */
  function GetProductStock(m: map<BatchId, Batch>, products: seq<Products.Product>, productId: string): (r: Result<ProductStock>)
    ensures r.Err? <==> Products.FindProduct(products, productId).None?
    ensures r.Err? ==> r.error == NotFound(ProductEntity)
    ensures r.Ok? ==>
      var s := StockedBatches(m, productId);
      r.value.productId == productId
      && r.value.totalQuantity == SumCurrent(s) && r.value.batchesCount == |s|
      && (r.value.oldestBatchDate.Some? <==> |s| > 0)
      && (r.value.oldestBatchDate.Some? ==>
            (exists k :: 0 <= k < |s| && s[k].entryDate == r.value.oldestBatchDate.value)
            && forall k :: 0 <= k < |s| ==> r.value.oldestBatchDate.value <= s[k].entryDate)
      && (r.value.nearestExpirationDate.Some? <==> exists k :: 0 <= k < |s| && s[k].expirationDate.Some?)
      && (r.value.nearestExpirationDate.Some? ==>
            forall k :: 0 <= k < |s| && s[k].expirationDate.Some? ==>
              r.value.nearestExpirationDate.value <= s[k].expirationDate.value)
    ensures r.Ok? ==> r.value.totalQuantity >= 0.0
                      && (r.value.totalQuantity == 0.0 <==> r.value.batchesCount == 0)
  {
    if Products.FindProduct(products, productId).None? then Err(NotFound(ProductEntity))
    else
      var s := StockedBatches(m, productId);
      StockedSum(m, productId);
      var oldest := if s == [] then None else Some(MinEntry(s));
      var nearest := MinExpiration(s);
      Ok(ProductStock(productId, SumCurrent(s), |s|, oldest, nearest))
  }

  // ------------------------------------------------------------- alerts

  /** Alert status, shared by the stock and expiry alerts. */
  datatype Severity = Expired | Critical | Warning

  datatype LowStockAlert = LowStockAlert(productId: string, productName: string, currentStock: real,
                                         minSaleQuantity: real, status: Severity)

  /** `product.min_sale_quantity ?? 0` */
  function AlertMinimum(p: Products.Product): real
  {
    if p.minSaleQuantity.Some? then p.minSaleQuantity.value else 0.0
  }

  /** The alert one active product raises, if any. */
  function LowStockAlertFor(m: map<BatchId, Batch>, p: Products.Product): Option<LowStockAlert>
  {
    var stock := SumCurrent(StockedBatches(m, p.id));
    if stock == 0.0 then Some(LowStockAlert(p.id, p.name, stock, AlertMinimum(p), Critical))
    else if stock < AlertMinimum(p) then Some(LowStockAlert(p.id, p.name, stock, AlertMinimum(p), Warning))
    else None
  }

  function OptSeq<T>(x: Option<T>): seq<T>
  {
    if x.Some? then [x.value] else []
  }

  /** The alerts in product order, before sorting. */
  function LowStockCandidates(m: map<BatchId, Batch>, products: seq<Products.Product>): seq<LowStockAlert>
  {
    if products == [] then []
    else
      var last := products[|products| - 1];
      LowStockCandidates(m, products[..|products| - 1])
      + (if last.isActive then OptSeq(LowStockAlertFor(m, last)) else [])
  }

  function StockKey(a: LowStockAlert): real { a.currentStock }

  /** Every alert names an active product, with its name, its stock and its
      minimum. */
  lemma {:induction false} LowStockCandidatesFrom(m: map<BatchId, Batch>, products: seq<Products.Product>)
    ensures forall a :: a in LowStockCandidates(m, products) ==>
      exists p :: p in products && p.isActive && p.id == a.productId && a.productName == p.name
        && a.currentStock == SumCurrent(StockedBatches(m, p.id)) && a.minSaleQuantity == AlertMinimum(p)
  {
    if products != [] {
      var init := products[..|products| - 1];
      LowStockCandidatesFrom(m, init);
      assert forall p :: p in init ==> p in products;
    }
  }

  /** Every alert is critical exactly when its stock is zero, and otherwise a
      warning with the stock below the minimum. */
  lemma {:induction false} LowStockCandidatesStatus(m: map<BatchId, Batch>, products: seq<Products.Product>)
    ensures forall a :: a in LowStockCandidates(m, products) ==>
      a.currentStock >= 0.0
      && (a.status == Critical <==> a.currentStock == 0.0)
      && (a.status != Critical ==> a.status == Warning && a.currentStock < a.minSaleQuantity)
  {
    if products != [] {
      LowStockCandidatesStatus(m, products[..|products| - 1]);
      StockedSum(m, products[|products| - 1].id);
    }
  }

  /** Every active product that is out of stock or below its minimum has an
      alert. */
  lemma {:induction false} LowStockCandidatesComplete(m: map<BatchId, Batch>, products: seq<Products.Product>)
    ensures forall p :: (p in products && p.isActive
      && (SumCurrent(StockedBatches(m, p.id)) == 0.0 || SumCurrent(StockedBatches(m, p.id)) < AlertMinimum(p))
      ==> LowStockAlertFor(m, p).Some? && LowStockAlertFor(m, p).value in LowStockCandidates(m, products))
  {
    if products != [] {
      var init := products[..|products| - 1];
      var last := products[|products| - 1];
      LowStockCandidatesComplete(m, init);
      assert forall p :: p in products ==> p in init || p == last;
    }
  }

  /** The comparator of `getLowStockAlerts`. */
  function LowStockCompare(a: LowStockAlert, b: LowStockAlert): real
  {
    if a.status == Critical && b.status != Critical then -1.0
    else if a.status != Critical && b.status == Critical then 1.0
    else a.currentStock - b.currentStock
  }

  /** On alerts whose status is critical exactly at zero stock, "critical
      first, then by stock" orders exactly as "by stock": the stable sort by
      stock is the source's sort. */
  lemma LowStockCompareIsByStock(a: LowStockAlert, b: LowStockAlert)
    requires a.currentStock >= 0.0 && b.currentStock >= 0.0
    requires (a.status == Critical <==> a.currentStock == 0.0) && (b.status == Critical <==> b.currentStock == 0.0)
    ensures LowStockCompare(a, b) < 0.0 <==> a.currentStock < b.currentStock
    ensures LowStockCompare(a, b) == 0.0 <==> a.currentStock == b.currentStock
  {
  }

  /** `getLowStockAlerts`: one pass over the products collecting alerts, then
      the sort. */
  method LowStockAlerts(m: map<BatchId, Batch>, products: seq<Products.Product>) returns (alerts: seq<LowStockAlert>)
    ensures alerts == SortBy(LowStockCandidates(m, products), StockKey)
  {
    var collected: seq<LowStockAlert> := [];
    var i := 0;
    while i < |products|
      invariant 0 <= i <= |products|
      invariant collected == LowStockCandidates(m, products[..i])
    {
      var p := products[i];
      assert products[..i + 1][..i] == products[..i];
      if p.isActive {
        var stock := SumCurrent(StockedBatches(m, p.id));
        if stock == 0.0 {
          collected := collected + [LowStockAlert(p.id, p.name, stock, AlertMinimum(p), Critical)];
        } else if stock < AlertMinimum(p) {
          collected := collected + [LowStockAlert(p.id, p.name, stock, AlertMinimum(p), Warning)];
        }
      }
      i := i + 1;
    }
    assert products[..i] == products;
    alerts := SortBy(collected, StockKey);
  }

  /** The sorted alerts put every critical alert before every warning. */
  lemma LowStockCriticalFirst(m: map<BatchId, Batch>, products: seq<Products.Product>)
    ensures var r := SortBy(LowStockCandidates(m, products), StockKey);
      forall i, j :: 0 <= i < j < |r| && r[j].status == Critical ==> r[i].status == Critical
  {
    var c := LowStockCandidates(m, products);
    var r := SortBy(c, StockKey);
    LowStockCandidatesStatus(m, products);
    SortByCorrect(c, StockKey);
    forall i, j | 0 <= i < j < |r| && r[j].status == Critical ensures r[i].status == Critical {
      SortByMembers(c, StockKey, r[i]);
      SortByMembers(c, StockKey, r[j]);
      assert StockKey(r[i]) <= StockKey(r[j]);
    }
  }

  datatype ExpiringAlert = ExpiringAlert(batchId: BatchId, productId: string, productName: string,
                                         currentQuantity: real, expirationDate: int,
                                         daysUntilExpiration: int, status: Severity)

  /** `< 0` expired, `<= 3` critical, `<= 7` warning, otherwise no alert. */
  function ExpiryStatus(days: int): Option<Severity>
  {
    if days < 0 then Some(Expired)
    else if days <= 3 then Some(Critical)
    else if days <= 7 then Some(Warning)
    else None
  }

  const UnknownProduct: string := "Producto desconocido"

  function ProductName(products: seq<Products.Product>, id: string, fallback: string): string
  {
    var p := Products.FindProduct(products, id);
    if p.Some? then p.value.name else fallback
  }

  function ExpiringAlertFor(b: Batch, products: seq<Products.Product>, now: int): Option<ExpiringAlert>
  {
    if b.expirationDate.None? then None
    else
      var days := DaysUntil(b.expirationDate.value, now);
      var status := ExpiryStatus(days);
      if status.None? then None
      else Some(ExpiringAlert(b.id, b.productId, ProductName(products, b.productId, UnknownProduct),
                              b.currentQuantity, b.expirationDate.value, days, status.value))
  }

  function ExpiringCandidates(batches: seq<Batch>, products: seq<Products.Product>, now: int): seq<ExpiringAlert>
  {
    if batches == [] then []
    else
      ExpiringCandidates(batches[..|batches| - 1], products, now)
      + OptSeq(ExpiringAlertFor(batches[|batches| - 1], products, now))
  }

  function InStock(m: map<BatchId, Batch>): seq<Batch>
  {
    Filter(InIdOrder(m), HasStock)
  }

  function DaysKey(a: ExpiringAlert): real { a.daysUntilExpiration as real }

  /** Every expiry alert is for a record in stock with an expiration date at
      most 7 days away, its status read from the rounded-up day count; and
      every such record raises one. */
  lemma {:induction false} ExpiringCandidatesSpec(batches: seq<Batch>, products: seq<Products.Product>, now: int)
    ensures forall a :: a in ExpiringCandidates(batches, products, now) ==>
      exists b :: b in batches && b.id == a.batchId && b.expirationDate == Some(a.expirationDate)
        && a.currentQuantity == b.currentQuantity && a.productId == b.productId
    ensures forall a :: a in ExpiringCandidates(batches, products, now) ==>
      a.daysUntilExpiration == DaysUntil(a.expirationDate, now) && a.daysUntilExpiration <= 7
      && ExpiryStatus(a.daysUntilExpiration) == Some(a.status)
    ensures forall b :: (b in batches && b.expirationDate.Some? && DaysUntil(b.expirationDate.value, now) <= 7
      ==> ExpiringAlertFor(b, products, now).Some?
          && ExpiringAlertFor(b, products, now).value in ExpiringCandidates(batches, products, now))
  {
    if batches != [] {
      var init := batches[..|batches| - 1];
      ExpiringCandidatesSpec(init, products, now);
      assert forall b :: b in init ==> b in batches;
      assert forall b :: b in batches ==> b in init || b == batches[|batches| - 1];
    }
  }

  function Rank(s: Severity): int
  {
    match s
    case Expired => 0
    case Critical => 1
    case Warning => 2
  }

  /** The comparator of `getExpiringProductsAlerts`. */
  function ExpiringCompare(a: ExpiringAlert, b: ExpiringAlert): int
  {
    if Rank(a.status) != Rank(b.status) then Rank(a.status) - Rank(b.status)
    else a.daysUntilExpiration - b.daysUntilExpiration
  }

  /** The status rank grows with the day count, so "by status, then by days"
      orders exactly as "by days": the stable sort by days is the source's sort. */
  lemma ExpiringCompareIsByDays(a: ExpiringAlert, b: ExpiringAlert)
    requires ExpiryStatus(a.daysUntilExpiration) == Some(a.status)
    requires ExpiryStatus(b.daysUntilExpiration) == Some(b.status)
    ensures ExpiringCompare(a, b) < 0 <==> a.daysUntilExpiration < b.daysUntilExpiration
    ensures ExpiringCompare(a, b) == 0 <==> a.daysUntilExpiration == b.daysUntilExpiration
  {
  }

  /** `getExpiringProductsAlerts`: one pass over the records in stock
      collecting alerts, then the sort. The threshold argument of the source
      is not consulted by it and is not a parameter here. */
  method ExpiringAlerts(m: map<BatchId, Batch>, products: seq<Products.Product>, now: int) returns (alerts: seq<ExpiringAlert>)
    ensures alerts == SortBy(ExpiringCandidates(InStock(m), products, now), DaysKey)
  {
    var collected := CollectExpiring(InStock(m), products, now);
    alerts := SortBy(collected, DaysKey);
  }

  /** The loop of `getExpiringProductsAlerts` over the records in stock. */
  method CollectExpiring(batches: seq<Batch>, products: seq<Products.Product>, now: int) returns (collected: seq<ExpiringAlert>)
    ensures collected == ExpiringCandidates(batches, products, now)
  {
    collected := [];
    var i := 0;
    while i < |batches|
      invariant 0 <= i <= |batches|
      invariant collected == ExpiringCandidates(batches[..i], products, now)
    {
      var b := batches[i];
      assert batches[..i + 1][..i] == batches[..i];
      if b.expirationDate.Some? {
        var days := DaysUntil(b.expirationDate.value, now);
        var status: Severity;
        var keep := true;
        if days < 0 {
          status := Expired;
        } else if days <= 3 {
          status := Critical;
        } else if days <= 7 {
          status := Warning;
        } else {
          keep := false;
          status := Warning;
        }
        assert ExpiryStatus(days) == if keep then Some(status) else None;
        if keep {
          var name := ProductName(products, b.productId, UnknownProduct);
          collected := collected + [ExpiringAlert(b.id, b.productId, name, b.currentQuantity,
                                                  b.expirationDate.value, days, status)];
        }
      }
      i := i + 1;
    }
    assert batches[..i] == batches;
  }
}
