/** Purchases from suppliers (back/src/services/purchase.service.ts): created
    PENDING, received once (which creates one inventory batch per line), and
    edited or cancelled only while still PENDING. */
module Purchases {
  import opened Common
  import Validation
  import Products
  import opened InventoryBatches
  import opened ItemLoop
  import Numbering

  /** `PurchaseType` */
  datatype PurchaseType = Direct | Consignment | SelfPurchase

  /** `PurchaseStatus`; there is no cancelled state, a cancel deletes. */
  datatype PurchaseStatus = Pending | Received | Completed

  function TypeName(t: PurchaseType): string
  {
    match t
    case Direct => "direct"
    case Consignment => "consignment"
    case SelfPurchase => "self_purchase"
  }

  /** `PurchaseItem`; `batchId` is filled in on receipt. */
  datatype PurchaseItem = PurchaseItem(productId: string, productName: string, quantity: real, unitCost: real,
                                       subtotal: real, expirationDate: Option<int>, batchNumber: Option<string>,
                                       batchId: Option<BatchId>)

  /** `Purchase`; the timestamps the server writes are `now`. */
  datatype Purchase = Purchase(id: nat, purchaseNumber: string, supplierId: string, supplierName: string,
                               purchaseType: PurchaseType, status: PurchaseStatus, items: seq<PurchaseItem>,
                               subtotal: real, tax: real, total: real, purchaseDate: int,
                               receivedDate: Option<int>, invoiceNumber: Option<string>, notes: Option<string>,
                               createdBy: string, createdAt: int)

  /** `CreatePurchaseItemRequest`; a missing number is `None`, a missing or
      empty date `Absent`. */
  datatype PurchaseItemRequest = PurchaseItemRequest(productId: string, quantity: Option<real>,
                                                     unitCost: Option<real>, expirationDate: DateInput,
                                                     batchNumber: Option<string>)

  /** `CreatePurchaseRequest` */
  datatype CreatePurchaseRequest = CreatePurchaseRequest(supplierId: string, purchaseType: Option<PurchaseType>,
                                                         items: Option<seq<PurchaseItemRequest>>,
                                                         tax: Option<real>, purchaseDate: DateInput,
                                                         invoiceNumber: Option<string>, notes: Option<string>)

  // ------------------------------------------------------------ one line

  const ItemRequired: seq<string> := ["product_id", "quantity", "unit_cost"]

  function ItemBody(item: PurchaseItemRequest): Validation.Body
  {
    map["product_id" := Validation.Str(item.productId), "quantity" := NumField(item.quantity),
        "unit_cost" := NumField(item.unitCost)]
  }

  /** The line's required fields pass exactly when the product id is not
      empty and neither number is missing or 0. */
  lemma ItemRequiredPass(item: PurchaseItemRequest)
    ensures Validation.ValidateRequiredFields(ItemBody(item), ItemRequired) == Pass <==>
      item.productId != "" && Products.Given(item.quantity) && Products.Given(item.unitCost)
  {
    var body := ItemBody(item);
    assert ItemRequired[0] == "product_id" && ItemRequired[1] == "quantity" && ItemRequired[2] == "unit_cost";
    assert Validation.Get(body, "product_id") == body["product_id"];
    assert Validation.Get(body, "quantity") == body["quantity"];
    assert Validation.Get(body, "unit_cost") == body["unit_cost"];
  }

  /** What a line must satisfy to be bought. */
  predicate ItemAcceptable(products: seq<Products.Product>, item: PurchaseItemRequest, now: int)
  {
    item.productId != "" && Products.Given(item.quantity) && Products.Given(item.unitCost)
    && item.quantity.value > 0.0 && item.unitCost.value >= 0.0
    && Products.FindProduct(products, item.productId).Some?
    && !item.expirationDate.Invalid?
    && (item.expirationDate.Parsed? ==> item.expirationDate.ms >= now)
  }

  /** The checks of one line, in the source's order, and the line it keeps. */
  function CheckItem(products: seq<Products.Product>, item: PurchaseItemRequest, now: int): Result<PurchaseItem>
  {
    var required := Validation.ValidateRequiredFields(ItemBody(item), ItemRequired);
    ItemRequiredPass(item);
    if required.Fail? then Err(required.error)
    else
      var q := item.quantity.value;
      var cost := item.unitCost.value;
      if q <= 0.0 then Err(BadRequest(NonPositiveQuantity))
      else if cost < 0.0 then Err(BadRequest(NegativePrice))
      else
        var product := Products.FindProduct(products, item.productId);
        if product.None? then Err(NotFound(ProductEntity))
        else if item.expirationDate.Invalid? then Err(BadRequest(InvalidExpirationDate))
        else if item.expirationDate.Parsed? && item.expirationDate.ms < now then Err(BadRequest(ExpirationInPast))
        else
          Ok(PurchaseItem(item.productId, product.value.name, q, cost, q * cost,
                          if item.expirationDate.Parsed? then Some(item.expirationDate.ms) else None,
                          if item.batchNumber.Some? && item.batchNumber.value != "" then item.batchNumber else None,
                          None))
  }

  /** A line is kept exactly when it is acceptable; the kept line has the
      requested quantity and cost, their product as subtotal, the parsed
      expiry, and no batch yet. */
  lemma CheckItemSpec(products: seq<Products.Product>, item: PurchaseItemRequest, now: int)
    ensures var r := CheckItem(products, item, now);
      (r.Ok? <==> ItemAcceptable(products, item, now))
      && (r.Ok? ==>
            r.value.productId == item.productId && r.value.quantity == item.quantity.value > 0.0
            && r.value.unitCost == item.unitCost.value > 0.0
            && r.value.subtotal == r.value.quantity * r.value.unitCost
            && r.value.productName == Products.FindProduct(products, item.productId).value.name
            && (r.value.expirationDate.Some? <==> item.expirationDate.Parsed?)
            && (r.value.expirationDate.Some? ==> r.value.expirationDate.value == item.expirationDate.ms >= now)
            && r.value.batchId.None?)
  {
    ItemRequiredPass(item);
  }

  /** A line with cost 0 is refused as a missing field. */
  lemma FreeLineRejected(products: seq<Products.Product>, item: PurchaseItemRequest, now: int)
    requires item.unitCost == Some(0.0)
    ensures CheckItem(products, item, now).Err?
    ensures CheckItem(products, item, now).error.BadRequest?
    ensures CheckItem(products, item, now).error.reason.MissingFields?
  {
    ItemRequiredPass(item);
  }

  function LineCheck(products: seq<Products.Product>, now: int): PurchaseItemRequest -> Result<PurchaseItem>
  {
    item => CheckItem(products, item, now)
  }

  function LineSubtotal(item: PurchaseItem): real { item.subtotal }

  // ------------------------------------------------------------ create

  const PurchaseRequired: seq<string> := ["supplier_id", "purchase_type", "items"]

  function PurchaseBody(req: CreatePurchaseRequest): Validation.Body
  {
    map["supplier_id" := Validation.Str(req.supplierId),
        "purchase_type" := if req.purchaseType.Some? then Validation.Str(TypeName(req.purchaseType.value))
                           else Validation.Undefined,
        "items" := if req.items.Some? then Validation.Composite else Validation.Undefined]
  }

  lemma PurchaseRequiredPass(req: CreatePurchaseRequest)
    ensures Validation.ValidateRequiredFields(PurchaseBody(req), PurchaseRequired) == Pass <==>
      req.supplierId != "" && req.purchaseType.Some? && req.items.Some?
  {
    var body := PurchaseBody(req);
    assert PurchaseRequired[0] == "supplier_id" && PurchaseRequired[1] == "purchase_type";
    assert PurchaseRequired[2] == "items";
    assert Validation.Get(body, "supplier_id") == body["supplier_id"];
    assert Validation.Get(body, "purchase_type") == body["purchase_type"];
    assert Validation.Get(body, "items") == body["items"];
  }

  /** `data.tax && data.tax >= 0 ? data.tax : 0` */
  function EffectiveTax(tax: Option<real>): (r: real)
    ensures r >= 0.0
    ensures r == 0.0 || (tax.Some? && r == tax.value)
  {
    if tax.Some? && tax.value != 0.0 && tax.value >= 0.0 then tax.value else 0.0
  }

  /** `x?.trim() ?? null` */
  function TrimOption(x: Option<string>): Option<string>
  {
    if x.Some? then Some(Trim(x.value)) else None
  }

  /** The whole of `create`: the checks in the source's order and the PENDING
      purchase it stores. */
  function PlanPurchase(req: CreatePurchaseRequest, products: seq<Products.Product>,
                       suppliers: seq<Products.Supplier>, userId: string, now: int, id: nat,
                       purchaseNumber: string): Result<Purchase>
  {
    var required := Validation.ValidateRequiredFields(PurchaseBody(req), PurchaseRequired);
    PurchaseRequiredPass(req);
    if required.Fail? then Err(required.error)
    else if req.items.value == [] then Err(BadRequest(NoItems))
    else
      var supplier := Products.FindSupplier(suppliers, req.supplierId);
      if supplier.None? then Err(NotFound(SupplierEntity))
      else
        var planned := Walk(LineCheck(products, now), LineSubtotal, req.items.value);
        if planned.Err? then Err(planned.error)
        else if req.purchaseDate.Invalid? then Err(BadRequest(InvalidPurchaseDate))
        else
          var tax := EffectiveTax(req.tax);
          Ok(Purchase(id, purchaseNumber, req.supplierId, supplier.value.name, req.purchaseType.value, Pending,
                      planned.value.0, planned.value.1, tax, planned.value.1 + tax,
                      if req.purchaseDate.Parsed? then req.purchaseDate.ms else now, None,
                      TrimOption(req.invoiceNumber), TrimOption(req.notes), userId, now))
  }

  /** A created purchase is stored under the id it was given and is
      consistent. */
  lemma PlanPurchaseStored(req: CreatePurchaseRequest, products: seq<Products.Product>,
                           suppliers: seq<Products.Supplier>, userId: string, now: int, id: nat,
                           purchaseNumber: string)
    requires PlanPurchase(req, products, suppliers, userId, now, id, purchaseNumber).Ok?
    ensures var p := PlanPurchase(req, products, suppliers, userId, now, id, purchaseNumber).value;
      p.id == id && Consistent(p)
  {
    PlanPurchaseFacts(req, products, suppliers, userId, now, id, purchaseNumber);
  }

  /** A purchase without lines is refused. */
  lemma NoItemsRejected(req: CreatePurchaseRequest, products: seq<Products.Product>,
                        suppliers: seq<Products.Supplier>, userId: string, now: int, id: nat, purchaseNumber: string)
    requires req.supplierId != "" && req.purchaseType.Some? && req.items == Some([])
    ensures PlanPurchase(req, products, suppliers, userId, now, id, purchaseNumber) == Err(BadRequest(NoItems))
  {
    PurchaseRequiredPass(req);
  }

  /** Invariant of a stored purchase: positive quantities; a PENDING one has
      no batch and no receipt date, a RECEIVED one has both. */
  predicate Consistent(p: Purchase)
  {
    (forall k :: 0 <= k < |p.items| ==> p.items[k].quantity > 0.0)
    && (p.status == Pending ==> p.receivedDate.None? && forall k :: 0 <= k < |p.items| ==> p.items[k].batchId.None?)
    && (p.status == Received ==> p.receivedDate.Some? && forall k :: 0 <= k < |p.items| ==> p.items[k].batchId.Some?)
  }

  /** A created purchase is PENDING with a line for each requested one, each
      acceptable; its subtotal is the sum of the lines, its tax the given one
      when positive and 0 otherwise, its total their sum; an unparseable
      purchase date is refused and a missing one is today. */
  lemma PlanPurchaseFacts(req: CreatePurchaseRequest, products: seq<Products.Product>,
                          suppliers: seq<Products.Supplier>, userId: string, now: int, id: nat,
                          purchaseNumber: string)
    requires PlanPurchase(req, products, suppliers, userId, now, id, purchaseNumber).Ok?
    ensures req.items.Some?
    ensures var p := PlanPurchase(req, products, suppliers, userId, now, id, purchaseNumber).value;
      p.status == Pending && Consistent(p) && p.id == id && p.purchaseNumber == purchaseNumber
      && |p.items| == |req.items.value| > 0
      && (forall k :: 0 <= k < |p.items| ==>
            ItemAcceptable(products, req.items.value[k], now)
            && Ok(p.items[k]) == CheckItem(products, req.items.value[k], now))
      && p.subtotal == Sum(LineSubtotal, p.items)
      && p.tax == EffectiveTax(req.tax) && p.total == p.subtotal + p.tax
      && !req.purchaseDate.Invalid?
      && p.purchaseDate == (if req.purchaseDate.Parsed? then req.purchaseDate.ms else now)
  {
    PurchaseRequiredPass(req);
    var check := LineCheck(products, now);
    var requested := req.items.value;
    WalkContents(check, LineSubtotal, requested);
    var items := Walk(check, LineSubtotal, requested).value.0;
    forall k | 0 <= k < |requested|
      ensures ItemAcceptable(products, requested[k], now) && Ok(items[k]) == CheckItem(products, requested[k], now)
      ensures items[k].quantity > 0.0 && items[k].batchId.None?
    {
      assert check(requested[k]) == CheckItem(products, requested[k], now);
      CheckItemSpec(products, requested[k], now);
    }
  }

  /** The checks and the line loop of `create` as the source runs them,
      returning at the first failure. */
  method RunCreate(req: CreatePurchaseRequest, products: seq<Products.Product>, suppliers: seq<Products.Supplier>,
                   userId: string, now: int, id: nat, purchaseNumber: string) returns (r: Result<Purchase>)
    ensures r == PlanPurchase(req, products, suppliers, userId, now, id, purchaseNumber)
  {
    PurchaseRequiredPass(req);
    var required := Validation.ValidateRequiredFields(PurchaseBody(req), PurchaseRequired);
    if required.Fail? {
      return Err(required.error);
    }
    var requested := req.items.value;
    if requested == [] {
      return Err(BadRequest(NoItems));
    }
    var supplier := Products.FindSupplier(suppliers, req.supplierId);
    if supplier.None? {
      return Err(NotFound(SupplierEntity));
    }
    var planned := Prepare(LineCheck(products, now), LineSubtotal, requested);
    if planned.Err? {
      return Err(planned.error);
    }
    var tax := EffectiveTax(req.tax);
    if req.purchaseDate.Invalid? {
      return Err(BadRequest(InvalidPurchaseDate));
    }
    var purchaseDate := if req.purchaseDate.Parsed? then req.purchaseDate.ms else now;
    r := Ok(Purchase(id, purchaseNumber, req.supplierId, supplier.value.name, req.purchaseType.value, Pending,
                     planned.value.0, planned.value.1, tax, planned.value.1 + tax, purchaseDate, None,
                     TrimOption(req.invoiceNumber), TrimOption(req.notes), userId, now));
  }

  // ------------------------------------------------------------ markAsReceived

  /** `item.batch_number || `${purchase_number}-${product_id.substring(0, 6)}`` */
  function BatchNumberFor(p: Purchase, item: PurchaseItem): string
  {
    if item.batchNumber.Some? && item.batchNumber.value != "" then item.batchNumber.value
    else p.purchaseNumber + "-" + item.productId[..if |item.productId| < 6 then |item.productId| else 6]
  }

  /** Without a number of its own a batch is named after the purchase and
      the first (at most) six characters of the product id. */
  lemma BatchNumberFallback(p: Purchase, item: PurchaseItem)
    requires item.batchNumber.None? || item.batchNumber.value == ""
    ensures var n := BatchNumberFor(p, item);
      var head := p.purchaseNumber + "-";
      |head| <= |n| <= |head| + 6 && n[..|head|] == head
      && n[|head|..] <= item.productId
      && (|item.productId| >= 6 ==> |n| == |head| + 6)
  {
  }

  /** The batch a received line becomes: its quantity as both initial and
      current quantity, its cost as purchase price, the purchase's date as
      entry date, the line's expiry. */
  function ReceivedBatch(p: Purchase, item: PurchaseItem, id: BatchId, userId: string): Batch
  {
    Batch(id, item.productId, p.supplierId, Some(BatchNumberFor(p, item)), item.quantity, item.quantity,
          item.unitCost, p.purchaseDate, item.expirationDate, Some("Compra: " + p.purchaseNumber), userId)
  }

  /** The ledger after the receipt loop has stored the lines' batches under
      consecutive ids from `firstId`. */
  function AddReceived(m: map<BatchId, Batch>, p: Purchase, items: seq<PurchaseItem>, firstId: BatchId,
                       userId: string): map<BatchId, Batch>
  {
    if items == [] then m
    else
      var n := |items| - 1;
      AddReceived(m, p, items[..n], firstId, userId)[firstId + n := ReceivedBatch(p, items[n], firstId + n, userId)]
  }

  /** The lines with their new batch ids. */
  function Linked(items: seq<PurchaseItem>, firstId: BatchId): (r: seq<PurchaseItem>)
    ensures |r| == |items|
  {
    seq(|items|, k requires 0 <= k < |items| => items[k].(batchId := Some(firstId + k)))
  }

  /** Receipt adds exactly one fresh batch per line, built from that line,
      and leaves every existing record as it was. */
  lemma {:induction false} AddReceivedSpec(m: map<BatchId, Batch>, p: Purchase, items: seq<PurchaseItem>,
                                           firstId: BatchId, userId: string)
    requires forall id :: id in m ==> id < firstId
    ensures var r := AddReceived(m, p, items, firstId, userId);
      (forall id :: id in r <==> id in m || firstId <= id < firstId + |items|)
      && (forall id :: id in m ==> r[id] == m[id])
      && forall k :: 0 <= k < |items| ==> r[firstId + k] == ReceivedBatch(p, items[k], firstId + k, userId)
  {
    if items != [] {
      var n := |items| - 1;
      AddReceivedSpec(m, p, items[..n], firstId, userId);
    }
  }

  /** The receipt loop of `markAsReceived`: each line becomes a batch under
      the next id, and the line records that id. */
  method ReceiveLines(m0: map<BatchId, Batch>, p: Purchase, firstId: BatchId, userId: string)
    returns (m: map<BatchId, Batch>, updated: seq<PurchaseItem>)
    ensures m == AddReceived(m0, p, p.items, firstId, userId)
    ensures updated == Linked(p.items, firstId)
  {
    m, updated := m0, [];
    var i := 0;
    while i < |p.items|
      invariant 0 <= i <= |p.items|
      invariant m == AddReceived(m0, p, p.items[..i], firstId, userId)
      invariant updated == Linked(p.items[..i], firstId)
    {
      var item := p.items[i];
      assert p.items[..i + 1][..i] == p.items[..i];
      m := m[firstId + i := ReceivedBatch(p, item, firstId + i, userId)];
      updated := updated + [item.(batchId := Some(firstId + i))];
      i := i + 1;
    }
    assert p.items[..i] == p.items;
  }

  /** Received batches of positive lines keep the ledger well formed. */
  lemma AddReceivedWellFormed(m: map<BatchId, Batch>, p: Purchase, items: seq<PurchaseItem>, firstId: BatchId,
                              userId: string)
    requires WellFormed(m) && forall id :: id in m ==> id < firstId
    requires forall k :: 0 <= k < |items| ==> items[k].quantity > 0.0
    ensures WellFormed(AddReceived(m, p, items, firstId, userId))
    ensures forall id :: id in AddReceived(m, p, items, firstId, userId) ==> id < firstId + |items|
  {
    AddReceivedSpec(m, p, items, firstId, userId);
  }

  // ------------------------------------------------------------ the service

  /** `UpdatePurchaseRequest`: `None` leaves a field alone, `Some(None)`
      clears it. */
  datatype UpdatePurchaseRequest = UpdatePurchaseRequest(invoiceNumber: Option<Option<string>>,
                                                         notes: Option<Option<string>>)

  function UpdateField(current: Option<string>, given: Option<Option<string>>): Option<string>
  {
    if given.None? then current else TrimOption(given.value)
  }

  /** Every stored purchase sits under its own id, below the next id, and is
      consistent. */
  ghost predicate Stored(purchases: map<nat, Purchase>, nextId: nat)
  {
    forall id :: id in purchases ==> purchases[id].id == id && id < nextId && Consistent(purchases[id])
  }

  /** Storing a consistent purchase under the next id keeps the store sound. */
  lemma StoreNext(purchases: map<nat, Purchase>, nextId: nat, p: Purchase)
    requires Stored(purchases, nextId) && p.id == nextId && Consistent(p)
    ensures Stored(purchases[nextId := p], nextId + 1)
  {
  }

  /** The purchases collection, by id. */
  class PurchaseService {
    var purchases: map<nat, Purchase>
    var nextId: nat

    ghost predicate Valid()
      reads this
    {
      Stored(purchases, nextId)
    }

    constructor ()
      ensures Valid() && purchases == map[]
    {
      purchases := map[];
      nextId := 0;
    }

    /** `create`: store the planned PENDING purchase, or change nothing. */
    method Create(req: CreatePurchaseRequest, products: seq<Products.Product>, suppliers: seq<Products.Supplier>,
                  userId: string, now: int, isoDate: string, countToday: nat) returns (r: Result<Purchase>)
      requires Valid()
      modifies this
      ensures Valid()
      ensures r == PlanPurchase(req, products, suppliers, userId, now, old(nextId),
                                Numbering.PurchaseNumber(isoDate, countToday))
      ensures r.Ok? ==> purchases == old(purchases)[old(nextId) := r.value] && nextId == old(nextId) + 1
      ensures r.Err? ==> purchases == old(purchases) && nextId == old(nextId)
    {
      var purchaseNumber := Numbering.PurchaseNumber(isoDate, countToday);
      r := RunCreate(req, products, suppliers, userId, now, nextId, purchaseNumber);
      if r.Ok? {
        PlanPurchaseStored(req, products, suppliers, userId, now, nextId, purchaseNumber);
        StoreNext(purchases, nextId, r.value);
        purchases := purchases[nextId := r.value];
        nextId := nextId + 1;
      }
    }

    /** `markAsReceived`: only a PENDING purchase is received; in one
        transaction each line becomes a new batch, the line records its
        batch's id, and the purchase becomes RECEIVED. A second call finds it
        RECEIVED and creates nothing. */
    method MarkAsReceived(ledger: Ledger, id: nat, userId: string, now: int) returns (r: Result<Purchase>)
      requires Valid() && ledger.Valid()
      modifies this, ledger
      ensures Valid() && ledger.Valid()
      ensures id !in old(purchases) ==>
        r == Err(NotFound(PurchaseEntity)) && purchases == old(purchases) && ledger.batches == old(ledger.batches)
      ensures id in old(purchases) && old(purchases[id].status) != Pending ==>
        r == Err(BadRequest(NotPending)) && purchases == old(purchases) && ledger.batches == old(ledger.batches)
      ensures id in old(purchases) && old(purchases[id].status) == Pending ==>
        var p := old(purchases[id]);
        var received := p.(items := Linked(p.items, old(ledger.nextId)), status := Received, receivedDate := Some(now));
        r == Ok(received) && purchases == old(purchases)[id := received]
        && ledger.batches == AddReceived(old(ledger.batches), p, p.items, old(ledger.nextId), userId)
        && ledger.nextId == old(ledger.nextId) + |p.items|
    {
      if id !in purchases {
        return Err(NotFound(PurchaseEntity));
      }
      var p := purchases[id];
      if p.status != Pending {
        return Err(BadRequest(NotPending));
      }
      var firstId := ledger.nextId;
      var m, updated := ReceiveLines(ledger.batches, p, firstId, userId);
      AddReceivedWellFormed(ledger.batches, p, p.items, firstId, userId);
      var received := p.(items := updated, status := Received, receivedDate := Some(now));
      ledger.batches := m;
      ledger.nextId := firstId + |p.items|;
      purchases := purchases[id := received];
      r := Ok(received);
    }

    /** `update`: only while PENDING; a given invoice number or note is
        trimmed (a null one clears the field); nothing else changes. */
    method Update(id: nat, req: UpdatePurchaseRequest) returns (r: Result<Purchase>)
      requires Valid()
      modifies this
      ensures Valid() && nextId == old(nextId)
      ensures id !in old(purchases) ==> r == Err(NotFound(PurchaseEntity)) && purchases == old(purchases)
      ensures id in old(purchases) && old(purchases[id].status) != Pending ==>
        r == Err(BadRequest(NotPending)) && purchases == old(purchases)
      ensures id in old(purchases) && old(purchases[id].status) == Pending ==>
        var p := old(purchases[id]);
        var edited := p.(invoiceNumber := UpdateField(p.invoiceNumber, req.invoiceNumber),
                         notes := UpdateField(p.notes, req.notes));
        r == Ok(edited) && purchases == old(purchases)[id := edited]
    {
      if id !in purchases {
        return Err(NotFound(PurchaseEntity));
      }
      var p := purchases[id];
      if p.status != Pending {
        return Err(BadRequest(NotPending));
      }
      var edited := p.(invoiceNumber := UpdateField(p.invoiceNumber, req.invoiceNumber),
                       notes := UpdateField(p.notes, req.notes));
      purchases := purchases[id := edited];
      r := Ok(edited);
    }

    /** `cancel`: only while PENDING, and it deletes the purchase. */
    method Cancel(id: nat) returns (r: Outcome)
      requires Valid()
      modifies this
      ensures Valid() && nextId == old(nextId)
      ensures id !in old(purchases) ==> r == Fail(NotFound(PurchaseEntity)) && purchases == old(purchases)
      ensures id in old(purchases) && old(purchases[id].status) != Pending ==>
        r == Fail(BadRequest(NotPending)) && purchases == old(purchases)
      ensures id in old(purchases) && old(purchases[id].status) == Pending ==>
        r == Pass && purchases == old(purchases) - {id}
    {
      if id !in purchases {
        return Fail(NotFound(PurchaseEntity));
      }
      if purchases[id].status != Pending {
        return Fail(BadRequest(NotPending));
      }
      purchases := purchases - {id};
      r := Pass;
    }
  }
}
