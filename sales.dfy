/** Point-of-sale sales (back/src/services/sale.service.ts): the request
    checks, the stock pre-check of every item, the totals, the first-in
    first-out consumption of batches inside one transaction, and the sales
    statistics. */
module Sales {
  import opened Common
  import opened Sorting
  import Validation
  import Products
  import opened InventoryBatches
  import opened Allocation
  import opened ItemLoop
  import Numbering

  /** sale.model.ts `PaymentMethod`. */
  datatype PaymentMethod = Cash | Card | Transfer | Mixed

  /** The split of a mixed payment; a missing amount is `None`. */
  datatype PaymentBreakdown = PaymentBreakdown(cash: Option<real>, card: Option<real>, transfer: Option<real>)

  /** `x || 0` */
  function OrZero(x: Option<real>): real
  {
    if x.Some? then x.value else 0.0
  }

  function BreakdownSum(b: PaymentBreakdown): real
  {
    OrZero(b.cash) + OrZero(b.card) + OrZero(b.transfer)
  }

  /** The mixed-payment checks made before any item is looked at. */
  function ValidatePayment(payment: PaymentMethod, breakdown: Option<PaymentBreakdown>): (r: Outcome)
    ensures r.Fail? ==> r.error.BadRequest?
    ensures r == Pass <==>
      payment != Mixed
      || (breakdown.Some? && BreakdownSum(breakdown.value) > 0.0
          && OrZero(breakdown.value.cash) >= 0.0 && OrZero(breakdown.value.card) >= 0.0
          && OrZero(breakdown.value.transfer) >= 0.0)
    ensures payment == Mixed && breakdown.None? ==> r == Fail(BadRequest(MixedWithoutBreakdown))
    ensures payment == Mixed && breakdown.Some? && BreakdownSum(breakdown.value) <= 0.0 ==>
      r == Fail(BadRequest(BreakdownNotPositive))
  {
    if payment != Mixed then Pass
    else if breakdown.None? then Fail(BadRequest(MixedWithoutBreakdown))
    else
      var b := breakdown.value;
      if BreakdownSum(b) <= 0.0 then Fail(BadRequest(BreakdownNotPositive))
      else if Products.Given(b.cash) && b.cash.value < 0.0 then Fail(BadRequest(NegativeCash))
      else if Products.Given(b.card) && b.card.value < 0.0 then Fail(BadRequest(NegativeCard))
      else if Products.Given(b.transfer) && b.transfer.value < 0.0 then Fail(BadRequest(NegativeTransfer))
      else Pass
  }

  // ------------------------------------------------------------- the items

  /** `CreateSaleItemRequest`; a missing number is `None`. */
  datatype SaleItemRequest = SaleItemRequest(productId: string, quantity: Option<real>, unitPrice: Option<real>)

  /** `BatchUsage` */
  datatype Usage = Usage(batchId: BatchId, quantityUsed: real)

  /** `SaleItem`; `batchesUsed` is empty until the transaction fills it. */
  datatype SaleItem = SaleItem(productId: string, productName: string, quantity: real, unitPrice: real,
                               subtotal: real, saleType: Products.SaleType, batchesUsed: seq<Usage>)

  const ItemRequired: seq<string> := ["product_id", "quantity", "unit_price"]

  function ItemBody(item: SaleItemRequest): Validation.Body
  {
    map["product_id" := Validation.Str(item.productId), "quantity" := NumField(item.quantity),
        "unit_price" := NumField(item.unitPrice)]
  }

  /** The required-field check of an item passes exactly when it has a product
      id and a non-zero quantity and unit price. */
  lemma ItemRequiredPass(item: SaleItemRequest)
    ensures Validation.ValidateRequiredFields(ItemBody(item), ItemRequired) == Pass <==>
      item.productId != "" && Products.Given(item.quantity) && Products.Given(item.unitPrice)
  {
    var body := ItemBody(item);
    assert Validation.Get(body, "product_id") == Validation.Str(item.productId);
    assert Validation.Get(body, "quantity") == NumField(item.quantity);
    assert Validation.Get(body, "unit_price") == NumField(item.unitPrice);
    assert ItemRequired[0] == "product_id" && ItemRequired[1] == "quantity" && ItemRequired[2] == "unit_price";
  }

  /** An item passes the pre-check: required fields, positive quantity,
      non-negative price, an active product, and enough stock in the batches
      that have not expired. */
  predicate ItemAcceptable(m: map<BatchId, Batch>, products: seq<Products.Product>, item: SaleItemRequest, now: int)
  {
    item.productId != "" && Products.Given(item.quantity) && Products.Given(item.unitPrice)
    && item.quantity.value > 0.0 && item.unitPrice.value >= 0.0
    && Products.FindProduct(products, item.productId).Some?
    && Products.FindProduct(products, item.productId).value.isActive
    && Available(FifoCandidates(m, item.productId), now) >= item.quantity.value
  }

  /** The stock part of the pre-check, over the product's batches in stock
      (oldest first): some batch, some batch not expired, enough in those. */
  function StockCheck(cands: seq<Batch>, quantity: real, now: int): Outcome
  {
    if cands == [] then Fail(BadRequest(NoStock))
    else if Sellable(cands, now) == [] then Fail(BadRequest(NoValidStock))
    else if Available(cands, now) < quantity then Fail(BadRequest(InsufficientStock))
    else Pass
  }

  /** For a positive quantity the three stock checks amount to one: enough
      stock in the batches that have not expired. */
  lemma StockCheckPass(cands: seq<Batch>, quantity: real, now: int)
    requires quantity > 0.0
    ensures StockCheck(cands, quantity, now) == Pass <==> Available(cands, now) >= quantity
  {
    if cands == [] {
      assert Sellable(cands, now) == [];
    }
  }

  /** One turn of the item loop before the transaction. */
  function CheckItem(m: map<BatchId, Batch>, products: seq<Products.Product>, item: SaleItemRequest, now: int): Result<SaleItem>
  {
    CheckItemIn(FifoCandidates(m, item.productId), products, item, now)
  }

  /** The same turn, given the product's batches in stock, oldest first. */
  function CheckItemIn(cands: seq<Batch>, products: seq<Products.Product>, item: SaleItemRequest, now: int): Result<SaleItem>
  {
    var required := Validation.ValidateRequiredFields(ItemBody(item), ItemRequired);
    ItemRequiredPass(item);
    if required.Fail? then Err(required.error)
    else if item.quantity.value <= 0.0 then Err(BadRequest(NonPositiveQuantity))
    else if item.unitPrice.value < 0.0 then Err(BadRequest(NegativePrice))
    else match Products.FindProduct(products, item.productId)
      case None => Err(NotFound(ProductEntity))
      case Some(p) =>
        if !p.isActive then Err(BadRequest(ProductInactive))
        else
          var q := item.quantity.value;
          var stock := StockCheck(cands, q, now);
          if stock.Fail? then Err(stock.error)
          else Ok(SaleItem(item.productId, p.name, q, item.unitPrice.value, q * item.unitPrice.value, p.saleType, []))
  }

  /** An item passes exactly when it is acceptable, and is then recorded with
      its product's name and sale type, its subtotal, and no batches yet; a
      failed required-field check is reported as such. */
  lemma CheckItemSpec(m: map<BatchId, Batch>, products: seq<Products.Product>, item: SaleItemRequest, now: int)
    ensures CheckItem(m, products, item, now).Ok? <==> ItemAcceptable(m, products, item, now)
    ensures CheckItem(m, products, item, now).Ok? ==>
      var p := Products.FindProduct(products, item.productId).value;
      CheckItem(m, products, item, now).value
        == SaleItem(item.productId, p.name, item.quantity.value, item.unitPrice.value,
                    item.quantity.value * item.unitPrice.value, p.saleType, [])
    ensures Validation.ValidateRequiredFields(ItemBody(item), ItemRequired).Fail? ==>
      CheckItem(m, products, item, now) == Err(Validation.ValidateRequiredFields(ItemBody(item), ItemRequired).error)
  {
    CheckItemInSpec(FifoCandidates(m, item.productId), products, item, now);
  }

  lemma CheckItemInSpec(cands: seq<Batch>, products: seq<Products.Product>, item: SaleItemRequest, now: int)
    ensures CheckItemIn(cands, products, item, now).Ok? <==>
      item.productId != "" && Products.Given(item.quantity) && Products.Given(item.unitPrice)
      && item.quantity.value > 0.0 && item.unitPrice.value >= 0.0
      && Products.FindProduct(products, item.productId).Some?
      && Products.FindProduct(products, item.productId).value.isActive
      && Available(cands, now) >= item.quantity.value
    ensures CheckItemIn(cands, products, item, now).Ok? ==>
      var p := Products.FindProduct(products, item.productId).value;
      CheckItemIn(cands, products, item, now).value
        == SaleItem(item.productId, p.name, item.quantity.value, item.unitPrice.value,
                    item.quantity.value * item.unitPrice.value, p.saleType, [])
    ensures Validation.ValidateRequiredFields(ItemBody(item), ItemRequired).Fail? ==>
      CheckItemIn(cands, products, item, now) == Err(Validation.ValidateRequiredFields(ItemBody(item), ItemRequired).error)
  {
    ItemRequiredPass(item);
    if Products.Given(item.quantity) && item.quantity.value > 0.0 {
      StockCheckPass(cands, item.quantity.value, now);
    }
  }

  /** A free item is refused: a unit price of 0 is falsy and so "missing". */
  lemma FreeItemRejected(m: map<BatchId, Batch>, products: seq<Products.Product>, item: SaleItemRequest, now: int)
    requires item.unitPrice == Some(0.0)
    ensures CheckItem(m, products, item, now).Err?
    ensures CheckItem(m, products, item, now).error.BadRequest?
    ensures CheckItem(m, products, item, now).error.reason.MissingFields?
  {
    ItemRequiredPass(item);
  }

  /** The amount the item loop adds up. */
  function SaleSubtotal(item: SaleItem): real { item.subtotal }

  /** The pre-check `create` applies to each item against the stored batches. */
  function ItemCheck(m: map<BatchId, Batch>, products: seq<Products.Product>, now: int): SaleItemRequest -> Result<SaleItem>
  {
    item => CheckItem(m, products, item, now)
  }

  // ------------------------------------------------------------ the totals

  /** `data.discount && data.discount > 0 ? data.discount : 0` */
  function EffectiveDiscount(discount: Option<real>): real
  {
    if discount.Some? && discount.value > 0.0 then discount.value else 0.0
  }

  /** The discount and the total, or why they are refused. */
  function Totals(subtotal: real, discount: Option<real>, payment: PaymentMethod,
                  breakdown: Option<PaymentBreakdown>): (r: Result<(real, real)>)
    ensures r.Ok? <==>
      subtotal >= EffectiveDiscount(discount)
      && !(payment == Mixed && breakdown.Some?
           && Abs(BreakdownSum(breakdown.value) - (subtotal - EffectiveDiscount(discount))) > 0.01)
    ensures r.Ok? ==> r.value.0 >= 0.0 && r.value.1 >= 0.0 && r.value.0 + r.value.1 == subtotal
    ensures r.Ok? && discount.Some? && discount.value > 0.0 ==> r.value.0 == discount.value
    ensures r.Ok? && payment == Mixed && breakdown.Some? ==>
      -0.01 <= BreakdownSum(breakdown.value) - r.value.1 <= 0.01
    ensures subtotal < EffectiveDiscount(discount) ==> r == Err(BadRequest(DiscountExceedsSubtotal))
  {
    var d := EffectiveDiscount(discount);
    var total := subtotal - d;
    if total < 0.0 then Err(BadRequest(DiscountExceedsSubtotal))
    else if payment == Mixed && breakdown.Some? && Abs(BreakdownSum(breakdown.value) - total) > 0.01 then
      Err(BadRequest(BreakdownMismatch))
    else Ok((d, total))
  }

  // ------------------------------------------------------- the transaction

  /** `SaleInventoryMovement`: one outflow of a batch, recorded as a negative quantity. */
  datatype Movement = Movement(saleId: nat, batchId: BatchId, productId: string, quantity: real, createdAt: int)

  /** The record a draw leaves behind: the batch as read, less what was taken. */
  function Drawn(d: Draw): Batch
  {
    d.batch.(currentQuantity := d.batch.currentQuantity - d.used)
  }

  /** The batch writes of a walk, in order. */
  function ApplyDraws(m: map<BatchId, Batch>, draws: seq<Draw>): map<BatchId, Batch>
  {
    if draws == [] then m
    else
      var last := draws[|draws| - 1];
      ApplyDraws(m, draws[..|draws| - 1])[last.batch.id := Drawn(last)]
  }

  function UsageOf(d: Draw): Usage
  {
    Usage(d.batch.id, d.used)
  }

  function Usages(draws: seq<Draw>): (r: seq<Usage>)
    ensures |r| == |draws|
  {
    seq(|draws|, k requires 0 <= k < |draws| => UsageOf(draws[k]))
  }

  function MovementsFor(saleId: nat, productId: string, createdAt: int, usages: seq<Usage>): (r: seq<Movement>)
    ensures |r| == |usages|
    ensures forall k :: 0 <= k < |r| ==>
      r[k] == Movement(saleId, usages[k].batchId, productId, -usages[k].quantityUsed, createdAt)
  {
    seq(|usages|, k requires 0 <= k < |usages| =>
      Movement(saleId, usages[k].batchId, productId, -usages[k].quantityUsed, createdAt))
  }

  /** The inner loop of the transaction over one product's batches, oldest
      first: stop once nothing remains, skip an expired batch, otherwise take
      `min(remaining, current_quantity)` and write the batch back. */
  method ConsumeBatches(m0: map<BatchId, Batch>, cands: seq<Batch>, quantity: real, now: int)
    returns (m: map<BatchId, Batch>, usages: seq<Usage>, remaining: real)
    ensures var a := Allocate(cands, quantity, now);
      remaining == a.1 && m == ApplyDraws(m0, a.0) && usages == Usages(a.0)
  {
    m, usages, remaining := m0, [], quantity;
    ghost var draws: seq<Draw> := [];
    var i := 0;
    assert cands[0..] == cands && [] + Allocate(cands, quantity, now).0 == Allocate(cands, quantity, now).0;
    while i < |cands|
      invariant 0 <= i <= |cands|
      invariant Allocate(cands, quantity, now)
                == (draws + Allocate(cands[i..], remaining, now).0, Allocate(cands[i..], remaining, now).1)
      invariant m == ApplyDraws(m0, draws)
      invariant |usages| == |draws| && forall k :: 0 <= k < |draws| ==> usages[k] == UsageOf(draws[k])
    {
      var b := cands[i];
      if remaining <= 0.0 {
        break;
      }
      if Allocation.Expired(b, now) {
        AllocateSkips(cands, i, remaining, now);
        i := i + 1;
        continue;
      }
      var use := Min(remaining, b.currentQuantity);
      ghost var d := Draw(b, use);
      AllocateTakes(cands, quantity, now, draws, i, remaining);
      ApplyDrawsStep(m0, draws, d);
      m := m[b.id := b.(currentQuantity := b.currentQuantity - use)];
      usages := usages + [Usage(b.id, use)];
      draws := draws + [d];
      remaining := remaining - use;
      i := i + 1;
    }
    assert draws + [] == draws;
  }

  /** An expired batch is passed over. */
  lemma AllocateSkips(cands: seq<Batch>, i: nat, remaining: real, now: int)
    requires i < |cands| && remaining > 0.0 && Allocation.Expired(cands[i], now)
    ensures Allocate(cands[i..], remaining, now) == Allocate(cands[i + 1..], remaining, now)
  {
    assert cands[i..][0] == cands[i] && cands[i..][1..] == cands[i + 1..];
  }

  /** A live batch gives `min(remaining, current_quantity)`, and the walk
      goes on with the rest. */
  lemma AllocateTakes(cands: seq<Batch>, quantity: real, now: int, draws: seq<Draw>, i: nat, remaining: real)
    requires i < |cands| && remaining > 0.0 && !Allocation.Expired(cands[i], now)
    requires Allocate(cands, quantity, now)
             == (draws + Allocate(cands[i..], remaining, now).0, Allocate(cands[i..], remaining, now).1)
    ensures var use := Min(remaining, cands[i].currentQuantity);
      var rest := Allocate(cands[i + 1..], remaining - use, now);
      Allocate(cands, quantity, now) == ((draws + [Draw(cands[i], use)]) + rest.0, rest.1)
  {
    var use := Min(remaining, cands[i].currentQuantity);
    var rest := Allocate(cands[i + 1..], remaining - use, now);
    assert cands[i..][0] == cands[i] && cands[i..][1..] == cands[i + 1..];
    assert Allocate(cands[i..], remaining, now).0 == [Draw(cands[i], use)] + rest.0;
    assert draws + ([Draw(cands[i], use)] + rest.0) == (draws + [Draw(cands[i], use)]) + rest.0;
  }

  /** One more draw written back. */
  lemma ApplyDrawsStep(m: map<BatchId, Batch>, draws: seq<Draw>, d: Draw)
    ensures ApplyDraws(m, draws + [d]) == ApplyDraws(m, draws)[d.batch.id := Drawn(d)]
  {
    assert (draws + [d])[..|draws|] == draws;
  }

  /** The batches a sale may draw on are stored records of the product, in stock. */
  lemma FifoCandidatesStocked(m: map<BatchId, Batch>, productId: string)
    ensures forall b :: b in FifoCandidates(m, productId) ==>
      b in m.Values && b.productId == productId && b.currentQuantity > 0.0
  {
    forall b | b in FifoCandidates(m, productId)
      ensures b in m.Values && b.productId == productId && b.currentQuantity > 0.0
    {
      SortByMembers(StockedBatches(m, productId), EntryKey, b);
      StockedBatchesMembers(m, productId, b);
    }
  }

  /** Every draw of a sale's walk is a stored, sellable record of the product,
      read as stored, and takes a positive quantity no larger than it holds. */
  lemma DrawsFromLedger(m: map<BatchId, Batch>, productId: string, quantity: real, now: int, draws: seq<Draw>)
    requires WellFormed(m) && draws == Allocate(FifoCandidates(m, productId), quantity, now).0
    ensures forall k :: 0 <= k < |draws| ==>
        (draws[k].batch.id in m && m[draws[k].batch.id] == draws[k].batch
         && draws[k].batch.productId == productId && !Allocation.Expired(draws[k].batch, now)
         && 0.0 < draws[k].used <= draws[k].batch.currentQuantity)
  {
    var cands := FifoCandidates(m, productId);
    FifoCandidatesStocked(m, productId);
    AllocateFifo(cands, quantity, now);
    var valid := Sellable(cands, now);
    forall k | 0 <= k < |draws|
      ensures draws[k].batch.id in m && m[draws[k].batch.id] == draws[k].batch
              && draws[k].batch.productId == productId && !Allocation.Expired(draws[k].batch, now)
    {
      var b := draws[k].batch;
      assert b == valid[k];
      FilterMembers(cands, (b: Batch) => !Allocation.Expired(b, now), b);
      var id :| id in m && m[id] == b;
    }
  }

  /** Writes that leave every batch non-negative keep the ledger well formed
      and add no record. */
  lemma {:induction false} ApplyDrawsWellFormed(m: map<BatchId, Batch>, draws: seq<Draw>)
    requires WellFormed(m)
    requires forall k :: 0 <= k < |draws| ==>
      draws[k].batch.id in m && draws[k].used <= draws[k].batch.currentQuantity
    ensures WellFormed(ApplyDraws(m, draws)) && ApplyDraws(m, draws).Keys == m.Keys
  {
    if draws != [] {
      var init := draws[..|draws| - 1];
      assert forall k :: 0 <= k < |init| ==> init[k] == draws[k];
      ApplyDrawsWellFormed(m, init);
    }
  }

  /** `BatchUsage[]` summed: what the item took from its batches. */
  function SumUsages(us: seq<Usage>): real
  {
    if us == [] then 0.0 else us[0].quantityUsed + SumUsages(us[1..])
  }

  lemma {:induction false} SumUsagesOfDraws(draws: seq<Draw>)
    ensures SumUsages(Usages(draws)) == SumUsed(draws)
  {
    if draws != [] {
      assert Usages(draws)[1..] == Usages(draws[1..]);
      SumUsagesOfDraws(draws[1..]);
    }
  }

  /** One item of the transaction, on the batches as the transaction sees
      them: walk the product's batches, fail if anything remains, otherwise
      the written batches, the item with its usages, and its movements. */
  function ConsumeItem(m: map<BatchId, Batch>, item: SaleItem, saleId: nat, now: int)
    : Result<(map<BatchId, Batch>, SaleItem, seq<Movement>)>
  {
    var a := Allocate(FifoCandidates(m, item.productId), item.quantity, now);
    if a.1 > 0.0 then Err(BadRequest(IncompleteConsumption))
    else
      var used := Usages(a.0);
      Ok((ApplyDraws(m, a.0), item.(batchesUsed := used), MovementsFor(saleId, item.productId, now, used)))
  }

  /** When the walk leaves nothing over, it took exactly what was asked. */
  lemma DrawnAll(cands: seq<Batch>, quantity: real, now: int)
    requires quantity > 0.0 && Allocate(cands, quantity, now).1 <= 0.0
    requires forall k :: 0 <= k < |cands| ==> cands[k].currentQuantity >= 0.0
    ensures SumUsages(Usages(Allocate(cands, quantity, now).0)) == quantity
  {
    AllocateConserves(cands, quantity, now);
    AllocateRemaining(cands, quantity, now);
    AvailableNonNegative(cands, now);
    SumUsagesOfDraws(Allocate(cands, quantity, now).0);
  }

  /** A consumed item leaves the ledger well formed, with the same records. */
  lemma ConsumeItemKeepsLedger(m: map<BatchId, Batch>, item: SaleItem, saleId: nat, now: int)
    requires WellFormed(m)
    ensures var r := ConsumeItem(m, item, saleId, now);
      r.Ok? ==> WellFormed(r.value.0) && r.value.0.Keys == m.Keys
  {
    var draws := Allocate(FifoCandidates(m, item.productId), item.quantity, now).0;
    DrawsFromLedger(m, item.productId, item.quantity, now, draws);
    ApplyDrawsWellFormed(m, draws);
  }

  /** A consumed item took exactly its quantity, from stored batches of its
      own product, and is otherwise the item as checked. */
  lemma ConsumeItemTakesQuantity(m: map<BatchId, Batch>, item: SaleItem, saleId: nat, now: int)
    requires WellFormed(m) && item.quantity > 0.0
    ensures var r := ConsumeItem(m, item, saleId, now);
      r.Ok? ==>
        (r.value.1 == item.(batchesUsed := r.value.1.batchesUsed)
         && SumUsages(r.value.1.batchesUsed) == item.quantity
         && forall k :: 0 <= k < |r.value.1.batchesUsed| ==>
              (r.value.1.batchesUsed[k].batchId in m
               && m[r.value.1.batchesUsed[k].batchId].productId == item.productId))
  {
    var cands := FifoCandidates(m, item.productId);
    var a := Allocate(cands, item.quantity, now);
    if a.1 <= 0.0 {
      FifoCandidatesStocked(m, item.productId);
      DrawnAll(cands, item.quantity, now);
      DrawsFromLedger(m, item.productId, item.quantity, now, a.0);
      var used := Usages(a.0);
      assert forall k :: 0 <= k < |used| ==> used[k] == UsageOf(a.0[k]);
    }
  }

  /** A pre-checked item is fully drawn when nothing else touched its
      product's batches: the walk finds what the pre-check counted. */
  lemma CheckedItemIsDrawn(m: map<BatchId, Batch>, products: seq<Products.Product>, request: SaleItemRequest,
                           saleId: nat, now: int)
    requires WellFormed(m) && CheckItem(m, products, request, now).Ok?
    ensures ConsumeItem(m, CheckItem(m, products, request, now).value, saleId, now).Ok?
  {
    CheckItemSpec(m, products, request, now);
    var cands := FifoCandidates(m, request.productId);
    FifoCandidatesStocked(m, request.productId);
    AllocateRemaining(cands, request.quantity.value, now);
  }

  /** One item of the transaction as a value: the batches as the transaction
      sees them and the item, to the written batches, the item with its
      usages and its movements, or an error. */
  type Step = (map<BatchId, Batch>, SaleItem) -> Result<(map<BatchId, Batch>, SaleItem, seq<Movement>)>

  /** What the transaction writes: the batches, the items with their usages,
      and the movements. */
  datatype Consumed = Consumed(batches: map<BatchId, Batch>, items: seq<SaleItem>, movements: seq<Movement>)

  /** The outer loop of the transaction: each item on the batches the
      previous items left; the first failure aborts the whole transaction. */
  function Transact(step: Step, m0: map<BatchId, Batch>, items: seq<SaleItem>): (r: Result<Consumed>)
    ensures r.Ok? ==> |r.value.items| == |items|
  {
    if items == [] then Ok(Consumed(m0, [], []))
    else
      var prev := Transact(step, m0, items[..|items| - 1]);
      if prev.Err? then prev
      else
        var next := step(prev.value.batches, items[|items| - 1]);
        if next.Err? then Err(next.error)
        else Ok(Consumed(next.value.0, prev.value.items + [next.value.1], prev.value.movements + next.value.2))
  }

  lemma {:induction false} TransactErrSticky(step: Step, m0: map<BatchId, Batch>, items: seq<SaleItem>, i: nat)
    requires i <= |items| && Transact(step, m0, items[..i]).Err?
    ensures Transact(step, m0, items) == Transact(step, m0, items[..i])
    decreases |items|
  {
    if i < |items| {
      var init := items[..|items| - 1];
      assert init[..i] == items[..i];
      TransactErrSticky(step, m0, init, i);
    } else {
      assert items[..i] == items;
    }
  }

  /** One more item of the transaction. */
  lemma TransactStep(step: Step, m0: map<BatchId, Batch>, items: seq<SaleItem>, i: nat, acc: Consumed)
    requires i < |items| && Transact(step, m0, items[..i]) == Ok(acc)
    ensures var next := step(acc.batches, items[i]);
      Transact(step, m0, items[..i + 1])
        == if next.Err? then Err(next.error)
           else Ok(Consumed(next.value.0, acc.items + [next.value.1], acc.movements + next.value.2))
  {
    var prefix := items[..i + 1];
    assert prefix != [];
    assert prefix[..|prefix| - 1] == items[..i];
    assert prefix[|prefix| - 1] == items[i];
  }

  function SaleStep(saleId: nat, now: int): Step
  {
    (m: map<BatchId, Batch>, item: SaleItem) => ConsumeItem(m, item, saleId, now)
  }

  /** One item of the transaction as the source runs it: the inner walk
      over the product's batches, then the check that nothing remains. */
  method ConsumeOne(m: map<BatchId, Batch>, item: SaleItem, saleId: nat, now: int)
    returns (r: Result<(map<BatchId, Batch>, SaleItem, seq<Movement>)>)
    ensures r == ConsumeItem(m, item, saleId, now)
  {
    var written, used, remaining := ConsumeBatches(m, FifoCandidates(m, item.productId), item.quantity, now);
    if remaining > 0.0 {
      return Err(BadRequest(IncompleteConsumption));
    }
    r := Ok((written, item.(batchesUsed := used), MovementsFor(saleId, item.productId, now, used)));
  }

  /** The transaction's loops as the source runs them, on a working copy of
      the batches. */
  method ConsumeAll(m0: map<BatchId, Batch>, items: seq<SaleItem>, saleId: nat, now: int) returns (r: Result<Consumed>)
    ensures r == Transact(SaleStep(saleId, now), m0, items)
  {
    var step := SaleStep(saleId, now);
    var m := m0;
    var done: seq<SaleItem> := [];
    var moves: seq<Movement> := [];
    var i := 0;
    while i < |items|
      invariant 0 <= i <= |items|
      invariant Transact(step, m0, items[..i]) == Ok(Consumed(m, done, moves))
    {
      TransactStep(step, m0, items, i, Consumed(m, done, moves));
      var next := ConsumeOne(m, items[i], saleId, now);
      if next.Err? {
        TransactErrSticky(step, m0, items, i + 1);
        return Err(next.error);
      }
      done := done + [next.value.1];
      moves := moves + next.value.2;
      m := next.value.0;
      i := i + 1;
    }
    assert items[..i] == items;
    r := Ok(Consumed(m, done, moves));
  }

  /** What every step keeps and every step establishes for its item holds
      after the whole transaction. */
  lemma {:induction false} TransactInvariant(step: Step, m0: map<BatchId, Batch>, items: seq<SaleItem>,
                                             keep: map<BatchId, Batch> -> bool, done: (SaleItem, SaleItem) -> bool)
    requires keep(m0)
    requires forall m, item :: keep(m) && step(m, item).Ok? ==>
      keep(step(m, item).value.0) && done(item, step(m, item).value.1)
    ensures var r := Transact(step, m0, items);
      r.Ok? ==> keep(r.value.batches) && forall k :: 0 <= k < |items| ==> done(items[k], r.value.items[k])
  {
    var r := Transact(step, m0, items);
    if items != [] && r.Ok? {
      var init := items[..|items| - 1];
      TransactInvariant(step, m0, init, keep, done);
      var prev := Transact(step, m0, init).value;
      assert forall k :: 0 <= k < |init| ==> r.value.items[k] == prev.items[k] && items[k] == init[k];
    }
  }

  /** A committed transaction leaves the ledger well formed with the same
      records, and every item took exactly its quantity from its own
      product's batches. */
  lemma TransactSound(m0: map<BatchId, Batch>, items: seq<SaleItem>, saleId: nat, now: int)
    requires WellFormed(m0)
    requires forall k :: 0 <= k < |items| ==> items[k].quantity > 0.0
    ensures var r := Transact(SaleStep(saleId, now), m0, items);
      r.Ok? ==>
        (WellFormed(r.value.batches) && r.value.batches.Keys == m0.Keys
         && forall k :: 0 <= k < |items| ==>
              (r.value.items[k] == items[k].(batchesUsed := r.value.items[k].batchesUsed)
               && SumUsages(r.value.items[k].batchesUsed) == items[k].quantity))
  {
    var step := SaleStep(saleId, now);
    var keep := (m: map<BatchId, Batch>) => WellFormed(m) && m.Keys == m0.Keys;
    var done := (a: SaleItem, b: SaleItem) =>
      a.quantity > 0.0 ==> b == a.(batchesUsed := b.batchesUsed) && SumUsages(b.batchesUsed) == a.quantity;
    forall m, item | keep(m) && step(m, item).Ok?
      ensures keep(step(m, item).value.0) && done(item, step(m, item).value.1)
    {
      ConsumeItemKeepsLedger(m, item, saleId, now);
      if item.quantity > 0.0 {
        ConsumeItemTakesQuantity(m, item, saleId, now);
      }
    }
    TransactInvariant(step, m0, items, keep, done);
  }

  // ------------------------------------------------------------- the sale

  /** `CreateSaleRequest`; a missing member is `None`. */
  datatype CreateSaleRequest = CreateSaleRequest(items: Option<seq<SaleItemRequest>>, discount: Option<real>,
                                                 paymentMethod: Option<PaymentMethod>,
                                                 breakdown: Option<PaymentBreakdown>)

  const SaleRequired: seq<string> := ["items", "payment_method"]

  function MethodName(p: PaymentMethod): string
  {
    match p
    case Cash => "cash"
    case Card => "card"
    case Transfer => "transfer"
    case Mixed => "mixed"
  }

  /** The request as `validateRequiredFields` sees it: an array, even an empty
      one, is truthy. */
  function SaleBody(req: CreateSaleRequest): Validation.Body
  {
    map["items" := if req.items.Some? then Validation.Composite else Validation.Undefined,
        "payment_method" := if req.paymentMethod.Some? then Validation.Str(MethodName(req.paymentMethod.value))
                            else Validation.Undefined]
  }

  lemma SaleRequiredPass(req: CreateSaleRequest)
    ensures Validation.ValidateRequiredFields(SaleBody(req), SaleRequired) == Pass <==>
      req.items.Some? && req.paymentMethod.Some?
  {
    var body := SaleBody(req);
    assert SaleRequired[0] == "items" && SaleRequired[1] == "payment_method";
    assert Validation.Get(body, "items") == body["items"];
    assert Validation.Get(body, "payment_method") == body["payment_method"];
  }

  /** What `create` settles before its transaction. */
  datatype Checked = Checked(items: seq<SaleItem>, subtotal: real, discount: real, total: real)

  /** Every check `create` makes before the transaction, in its order. */
  function CheckSale(m: map<BatchId, Batch>, req: CreateSaleRequest, products: seq<Products.Product>, now: int)
    : Result<Checked>
  {
    var required := Validation.ValidateRequiredFields(SaleBody(req), SaleRequired);
    SaleRequiredPass(req);
    if required.Fail? then Err(required.error)
    else if req.items.value == [] then Err(BadRequest(NoItems))
    else
      var pay := ValidatePayment(req.paymentMethod.value, req.breakdown);
      if pay.Fail? then Err(pay.error)
      else
        var planned := Walk(ItemCheck(m, products, now), SaleSubtotal, req.items.value);
        if planned.Err? then Err(planned.error)
        else
          var totals := Totals(planned.value.1, req.discount, req.paymentMethod.value, req.breakdown);
          if totals.Err? then Err(totals.error)
          else Ok(Checked(planned.value.0, planned.value.1, totals.value.0, totals.value.1))
  }

  /** `Sale`; `created_at` is the commit time, here `now`. */
  datatype Sale = Sale(id: nat, saleNumber: string, items: seq<SaleItem>, subtotal: real, discount: real,
                       total: real, paymentMethod: PaymentMethod, breakdown: Option<PaymentBreakdown>,
                       soldBy: string, createdAt: int)

  /** The whole of `create`: the checks, then the transaction, then the sale
      record it writes. */
  function PlanSale(m: map<BatchId, Batch>, req: CreateSaleRequest, products: seq<Products.Product>,
                    userId: string, now: int, saleId: nat, saleNumber: string): Result<(Sale, Consumed)>
  {
    var c := CheckSale(m, req, products, now);
    if c.Err? then Err(c.error)
    else
      var t := Transact(SaleStep(saleId, now), m, c.value.items);
      if t.Err? then Err(t.error)
      else
        SaleRequiredPass(req);
        Ok((Sale(saleId, saleNumber, t.value.items, c.value.subtotal, c.value.discount, c.value.total,
                 req.paymentMethod.value, req.breakdown, userId, now), t.value))
  }

  /** A sale without items is refused, so no batch is touched. */
  lemma NoItemsRejected(m: map<BatchId, Batch>, req: CreateSaleRequest, products: seq<Products.Product>,
                        userId: string, now: int, saleId: nat, saleNumber: string)
    requires req.items == Some([]) && req.paymentMethod.Some?
    ensures PlanSale(m, req, products, userId, now, saleId, saleNumber) == Err(BadRequest(NoItems))
  {
    SaleRequiredPass(req);
  }

  /** The checks of `create` that run before its transaction, as the source
      runs them: return at the first failure. */
  method PreCheck(m: map<BatchId, Batch>, req: CreateSaleRequest, products: seq<Products.Product>, now: int)
    returns (r: Result<Checked>)
    ensures r == CheckSale(m, req, products, now)
  {
    SaleRequiredPass(req);
    var required := Validation.ValidateRequiredFields(SaleBody(req), SaleRequired);
    if required.Fail? {
      return Err(required.error);
    }
    var requested := req.items.value;
    if requested == [] {
      return Err(BadRequest(NoItems));
    }
    var pay := ValidatePayment(req.paymentMethod.value, req.breakdown);
    if pay.Fail? {
      return Err(pay.error);
    }
    var planned := Prepare(ItemCheck(m, products, now), SaleSubtotal, requested);
    if planned.Err? {
      return Err(planned.error);
    }
    var totals := Totals(planned.value.1, req.discount, req.paymentMethod.value, req.breakdown);
    if totals.Err? {
      return Err(totals.error);
    }
    r := Ok(Checked(planned.value.0, planned.value.1, totals.value.0, totals.value.1));
  }

  /** A sale that passes the pre-check had both required members, some item,
      and every item through the item loop. */
  lemma CheckSaleWalk(m: map<BatchId, Batch>, req: CreateSaleRequest, products: seq<Products.Product>, now: int)
    requires CheckSale(m, req, products, now).Ok?
    ensures req.items.Some? && req.paymentMethod.Some? && req.items.value != []
    ensures var c := CheckSale(m, req, products, now).value;
      Walk(ItemCheck(m, products, now), SaleSubtotal, req.items.value) == Ok((c.items, c.subtotal))
  {
    SaleRequiredPass(req);
  }

  /** The items the loop returns are the requested ones, each acceptable and
      priced as asked, and the subtotal is their sum. */
  lemma WalkedItems(m: map<BatchId, Batch>, products: seq<Products.Product>, now: int,
                    requested: seq<SaleItemRequest>, items: seq<SaleItem>, subtotal: real)
    requires Walk(ItemCheck(m, products, now), SaleSubtotal, requested) == Ok((items, subtotal))
    ensures |items| == |requested| && subtotal == Sum(SaleSubtotal, items)
    ensures forall k :: 0 <= k < |requested| ==>
      (ItemAcceptable(m, products, requested[k], now)
       && CheckItem(m, products, requested[k], now) == Ok(items[k])
       && items[k].quantity == requested[k].quantity.value > 0.0 && items[k].batchesUsed == [])
  {
    var check := ItemCheck(m, products, now);
    WalkContents(check, SaleSubtotal, requested);
    forall k | 0 <= k < |requested|
      ensures ItemAcceptable(m, products, requested[k], now)
      ensures CheckItem(m, products, requested[k], now) == Ok(items[k])
      ensures items[k].quantity == requested[k].quantity.value > 0.0 && items[k].batchesUsed == []
    {
      assert check(requested[k]) == CheckItem(m, products, requested[k], now);
      CheckItemSpec(m, products, requested[k], now);
    }
  }

  /** What passes the pre-check: the requested items in order, each one
      acceptable and priced as the request says, and their subtotal. */
  lemma CheckSaleItems(m: map<BatchId, Batch>, req: CreateSaleRequest, products: seq<Products.Product>, now: int)
    requires CheckSale(m, req, products, now).Ok?
    ensures req.items.Some? && req.paymentMethod.Some?
    ensures var c := CheckSale(m, req, products, now).value;
      var requested := req.items.value;
      |c.items| == |requested| > 0
      && c.subtotal == Sum(SaleSubtotal, c.items)
      && forall k :: 0 <= k < |requested| ==>
           (ItemAcceptable(m, products, requested[k], now)
            && CheckItem(m, products, requested[k], now) == Ok(c.items[k])
            && c.items[k].quantity == requested[k].quantity.value > 0.0 && c.items[k].batchesUsed == [])
  {
    CheckSaleWalk(m, req, products, now);
    var c := CheckSale(m, req, products, now).value;
    WalkedItems(m, products, now, req.items.value, c.items, c.subtotal);
  }

  /** The sale `create` records: its items are the requested ones in order,
      each passed the pre-check, took exactly its quantity from its own
      product's batches and carries its subtotal; the subtotal is their sum. */
  lemma PlanSaleItems(m: map<BatchId, Batch>, req: CreateSaleRequest, products: seq<Products.Product>,
                      userId: string, now: int, saleId: nat, saleNumber: string)
    requires WellFormed(m)
    requires PlanSale(m, req, products, userId, now, saleId, saleNumber).Ok?
    ensures req.items.Some?
    ensures var sale := PlanSale(m, req, products, userId, now, saleId, saleNumber).value.0;
      var requested := req.items.value;
      |sale.items| == |requested| > 0
      && sale.subtotal == Sum(SaleSubtotal, sale.items)
      && forall k :: 0 <= k < |requested| ==>
           (ItemAcceptable(m, products, requested[k], now)
            && CheckItem(m, products, requested[k], now) == Ok(sale.items[k].(batchesUsed := []))
            && SumUsages(sale.items[k].batchesUsed) == requested[k].quantity.value)
  {
    CheckSaleItems(m, req, products, now);
    PlanSaleParts(m, req, products, userId, now, saleId, saleNumber);
    var c := CheckSale(m, req, products, now).value;
    ConsumedItems(m, products, now, req.items.value, c.items, saleId);
  }

  /** The transaction keeps each checked item and its subtotal and fills in
      the batches it drew from, to the item's full quantity. */
  lemma ConsumedItems(m: map<BatchId, Batch>, products: seq<Products.Product>, now: int,
                      requested: seq<SaleItemRequest>, items: seq<SaleItem>, saleId: nat)
    requires WellFormed(m)
    requires |items| == |requested|
    requires forall k :: 0 <= k < |requested| ==>
      (ItemAcceptable(m, products, requested[k], now)
       && CheckItem(m, products, requested[k], now) == Ok(items[k])
       && items[k].quantity == requested[k].quantity.value > 0.0 && items[k].batchesUsed == [])
    requires Transact(SaleStep(saleId, now), m, items).Ok?
    ensures var done := Transact(SaleStep(saleId, now), m, items).value.items;
      |done| == |requested| && Sum(SaleSubtotal, done) == Sum(SaleSubtotal, items)
      && forall k :: 0 <= k < |requested| ==>
           (ItemAcceptable(m, products, requested[k], now)
            && CheckItem(m, products, requested[k], now) == Ok(done[k].(batchesUsed := []))
            && SumUsages(done[k].batchesUsed) == requested[k].quantity.value)
  {
    TransactSound(m, items, saleId, now);
    var done := Transact(SaleStep(saleId, now), m, items).value.items;
    SumSame(SaleSubtotal, items, done);
  }

  /** A recorded sale is the checked one with the transaction's items. */
  lemma PlanSaleParts(m: map<BatchId, Batch>, req: CreateSaleRequest, products: seq<Products.Product>,
                      userId: string, now: int, saleId: nat, saleNumber: string)
    requires PlanSale(m, req, products, userId, now, saleId, saleNumber).Ok?
    ensures CheckSale(m, req, products, now).Ok?
    ensures var c := CheckSale(m, req, products, now).value;
      var t := Transact(SaleStep(saleId, now), m, c.items);
      var sale := PlanSale(m, req, products, userId, now, saleId, saleNumber).value.0;
      t.Ok? && sale.items == t.value.items && sale.subtotal == c.subtotal
  {
  }


  /** The money of a recorded sale: total = subtotal - discount, neither
      negative, a discount only when one above zero was asked for, and a
      mixed payment that is positive, has no negative part and matches the
      total to the cent. */
  lemma PlanSaleTotals(m: map<BatchId, Batch>, req: CreateSaleRequest, products: seq<Products.Product>,
                       userId: string, now: int, saleId: nat, saleNumber: string)
    requires PlanSale(m, req, products, userId, now, saleId, saleNumber).Ok?
    ensures var sale := PlanSale(m, req, products, userId, now, saleId, saleNumber).value.0;
      sale.total == sale.subtotal - sale.discount && sale.total >= 0.0
      && sale.discount == EffectiveDiscount(req.discount)
      && Some(sale.paymentMethod) == req.paymentMethod && sale.breakdown == req.breakdown
      && (sale.paymentMethod == Mixed ==>
            sale.breakdown.Some? && BreakdownSum(sale.breakdown.value) > 0.0
            && OrZero(sale.breakdown.value.cash) >= 0.0 && OrZero(sale.breakdown.value.card) >= 0.0
            && OrZero(sale.breakdown.value.transfer) >= 0.0
            && -0.01 <= BreakdownSum(sale.breakdown.value) - sale.total <= 0.01)
  {
    SaleRequiredPass(req);
  }

  /** A recorded sale leaves the ledger well formed with the same records. */
  lemma PlanSaleLedger(m: map<BatchId, Batch>, req: CreateSaleRequest, products: seq<Products.Product>,
                       userId: string, now: int, saleId: nat, saleNumber: string)
    requires WellFormed(m)
    requires PlanSale(m, req, products, userId, now, saleId, saleNumber).Ok?
    ensures var after := PlanSale(m, req, products, userId, now, saleId, saleNumber).value.1.batches;
      WellFormed(after) && after.Keys == m.Keys
  {
    CheckSaleItems(m, req, products, now);
    TransactSound(m, CheckSale(m, req, products, now).value.items, saleId, now);
  }

  /** Every movement a sale's transaction writes points back to that sale. */
  lemma {:induction false} MovementsOfSale(m0: map<BatchId, Batch>, items: seq<SaleItem>, saleId: nat, now: int)
    ensures var r := Transact(SaleStep(saleId, now), m0, items);
      r.Ok? ==> forall k :: 0 <= k < |r.value.movements| ==> r.value.movements[k].saleId == saleId
  {
    if items != [] {
      MovementsOfSale(m0, items[..|items| - 1], saleId, now);
    }
  }

  /** Every movement a planned sale writes points back to that sale, and
      the sale carries the id it was given. */
  lemma PlanSaleMovements(m: map<BatchId, Batch>, req: CreateSaleRequest, products: seq<Products.Product>,
                          userId: string, now: int, saleId: nat, saleNumber: string)
    requires PlanSale(m, req, products, userId, now, saleId, saleNumber).Ok?
    ensures var (sale, consumed) := PlanSale(m, req, products, userId, now, saleId, saleNumber).value;
      sale.id == saleId && forall k :: 0 <= k < |consumed.movements| ==> consumed.movements[k].saleId == saleId
  {
    MovementsOfSale(m, CheckSale(m, req, products, now).value.items, saleId, now);
  }

  /** `create` up to its writes: the checks in the source's order, then the
      transaction's reads and draws against a working copy of the ledger. */
  method RunSale(m: map<BatchId, Batch>, req: CreateSaleRequest, products: seq<Products.Product>,
                 userId: string, now: int, saleId: nat, saleNumber: string) returns (r: Result<(Sale, Consumed)>)
    ensures r == PlanSale(m, req, products, userId, now, saleId, saleNumber)
  {
    var c := PreCheck(m, req, products, now);
    if c.Err? {
      return Err(c.error);
    }
    var consumed := ConsumeAll(m, c.value.items, saleId, now);
    if consumed.Err? {
      return Err(consumed.error);
    }
    SaleRequiredPass(req);
    var sale := Sale(saleId, saleNumber, consumed.value.items, c.value.subtotal, c.value.discount, c.value.total,
                     req.paymentMethod.value, req.breakdown, userId, now);
    r := Ok((sale, consumed.value));
  }

  // ---------------------------------------------------------------- getStats

  /** The filters `getStats` takes; an empty seller does not filter. */
  datatype StatsFilters = StatsFilters(soldBy: Option<string>, start: DateInput, end: DateInput)

  /** The sales `getStats` adds up: the seller's (when one is given) within
      the date range. */
  function StatsSelection(sales: seq<Sale>, f: StatsFilters): seq<Sale>
  {
    Filter(sales, (sale: Sale) => (f.soldBy.None? || f.soldBy.value == "" || sale.soldBy == f.soldBy.value)
                                  && InDateRange(sale.createdAt, f.start, f.end))
  }

  /** `sales.reduce((sum, sale) => sum + sale.total, 0)` */
  function SumTotals(sales: seq<Sale>): real
  {
    if sales == [] then 0.0 else SumTotals(sales[..|sales| - 1]) + sales[|sales| - 1].total
  }

  function SumQuantities(items: seq<SaleItem>): real
  {
    if items == [] then 0.0 else SumQuantities(items[..|items| - 1]) + items[|items| - 1].quantity
  }

  /** Units sold over all items of all the sales. */
  function SumItemsSold(sales: seq<Sale>): real
  {
    if sales == [] then 0.0 else SumItemsSold(sales[..|sales| - 1]) + SumQuantities(sales[|sales| - 1].items)
  }

  datatype MethodTotals = MethodTotals(count: nat, amount: real)

  datatype PaymentTotals = PaymentTotals(cash: MethodTotals, card: MethodTotals, transfer: MethodTotals,
                                         mixed: MethodTotals)

  /** How many of the sales were paid one way, and for how much: an
      independent count over the sales. */
  function ByMethod(sales: seq<Sale>, p: PaymentMethod): MethodTotals
  {
    if sales == [] then MethodTotals(0, 0.0)
    else
      var prev := ByMethod(sales[..|sales| - 1], p);
      var last := sales[|sales| - 1];
      if last.paymentMethod == p then MethodTotals(prev.count + 1, prev.amount + last.total) else prev
  }

  function Tally(sales: seq<Sale>): PaymentTotals
  {
    PaymentTotals(ByMethod(sales, Cash), ByMethod(sales, Card), ByMethod(sales, Transfer), ByMethod(sales, Mixed))
  }

  /** Every sale falls under exactly one payment method: the four counts add
      up to the number of sales and the four amounts to their total. */
  lemma {:induction false} TallyPartitions(sales: seq<Sale>)
    ensures var t := Tally(sales);
      t.cash.count + t.card.count + t.transfer.count + t.mixed.count == |sales|
      && t.cash.amount + t.card.amount + t.transfer.amount + t.mixed.amount == SumTotals(sales)
  {
    if sales != [] {
      TallyPartitions(sales[..|sales| - 1]);
    }
  }

  /** The `forEach` over the sales that bumps one method's count and amount. */
  method TallyPayments(sales: seq<Sale>) returns (t: PaymentTotals)
    ensures t == Tally(sales)
  {
    t := PaymentTotals(MethodTotals(0, 0.0), MethodTotals(0, 0.0), MethodTotals(0, 0.0), MethodTotals(0, 0.0));
    var i := 0;
    while i < |sales|
      invariant 0 <= i <= |sales|
      invariant t == Tally(sales[..i])
    {
      var sale := sales[i];
      assert sales[..i + 1][..i] == sales[..i];
      match sale.paymentMethod {
        case Cash => t := t.(cash := MethodTotals(t.cash.count + 1, t.cash.amount + sale.total));
        case Card => t := t.(card := MethodTotals(t.card.count + 1, t.card.amount + sale.total));
        case Transfer => t := t.(transfer := MethodTotals(t.transfer.count + 1, t.transfer.amount + sale.total));
        case Mixed => t := t.(mixed := MethodTotals(t.mixed.count + 1, t.mixed.amount + sale.total));
      }
      i := i + 1;
    }
    assert sales[..i] == sales;
  }

  datatype SalesStats = SalesStats(totalSales: nat, totalAmount: real, totalItemsSold: real,
                                   paymentMethods: PaymentTotals)

  // ------------------------------------------------------------ the service

  /** The sales collection and the movements the sales wrote. Sale ids are
      allocated by a counter: the i-th recorded sale has id i. */
  class SaleService {
    var sales: seq<Sale>
    var movements: seq<Movement>
    var nextSaleId: nat

    ghost predicate Valid()
      reads this
    {
      nextSaleId == |sales|
      && (forall i :: 0 <= i < |sales| ==> sales[i].id == i)
      && forall k :: 0 <= k < |movements| ==> movements[k].saleId < nextSaleId
    }

    constructor ()
      ensures Valid() && sales == [] && movements == []
    {
      sales := [];
      movements := [];
      nextSaleId := 0;
    }

    /** `create`: the checks in the source's order, then one transaction that
        draws every item from its product's batches and writes the movements
        and the sale. On any error nothing is written. The day's sale count
        and the ISO date behind the sale number are inputs. */
    method Create(ledger: Ledger, req: CreateSaleRequest, products: seq<Products.Product>, userId: string,
                  now: int, isoDate: string, countToday: nat) returns (r: Result<Sale>)
      requires Valid() && ledger.Valid()
      modifies this, ledger
      ensures Valid() && ledger.Valid() && ledger.nextId == old(ledger.nextId)
      ensures var plan := PlanSale(old(ledger.batches), req, products, userId, now, old(nextSaleId),
                                   Numbering.SaleNumber(isoDate, countToday));
        (plan.Err? ==>
           r == Err(plan.error) && ledger.batches == old(ledger.batches)
           && sales == old(sales) && movements == old(movements))
        && (plan.Ok? ==>
              r == Ok(plan.value.0) && ledger.batches == plan.value.1.batches
              && sales == old(sales) + [plan.value.0] && movements == old(movements) + plan.value.1.movements)
    {
      var saleNumber := Numbering.SaleNumber(isoDate, countToday);
      var plan := RunSale(ledger.batches, req, products, userId, now, nextSaleId, saleNumber);
      if plan.Err? {
        return Err(plan.error);
      }
      PlanSaleLedger(ledger.batches, req, products, userId, now, nextSaleId, saleNumber);
      PlanSaleMovements(ledger.batches, req, products, userId, now, nextSaleId, saleNumber);
      ledger.batches := plan.value.1.batches;
      sales := sales + [plan.value.0];
      movements := movements + plan.value.1.movements;
      nextSaleId := nextSaleId + 1;
      r := Ok(plan.value.0);
    }

    /** `getStats`: how many sales, for how much, how many units, and the
        same per payment method, over the selected sales. */
    method GetStats(f: StatsFilters) returns (st: SalesStats)
      ensures var sel := StatsSelection(sales, f);
        st.totalSales == |sel| && st.totalAmount == SumTotals(sel) && st.totalItemsSold == SumItemsSold(sel)
        && st.paymentMethods == Tally(sel)
    {
      var sel := StatsSelection(sales, f);
      var byMethod := TallyPayments(sel);
      st := SalesStats(|sel|, SumTotals(sel), SumItemsSold(sel), byMethod);
    }
  }
}
