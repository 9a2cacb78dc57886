/** Returns of purchased goods to the supplier
    (back/src/services/purchase-return.service.ts): each line names a batch
    of the purchase and a quantity, the refund is the lines' quantities at the
    batches' purchase prices, and the batches lose what is returned. */
module PurchaseReturns {
  import opened Common
  import Validation
  import opened InventoryBatches
  import opened ItemLoop
  import Purchases
  import Numbering

  /** `ReturnReason` */
  datatype ReturnReason = Damaged | Expired | Exchange | Other

  /** `ReturnType` */
  datatype ReturnType = Refund | Swap | Credit

  function ReasonName(r: ReturnReason): string
  {
    match r
    case Damaged => "damaged"
    case Expired => "expired"
    case Exchange => "exchange"
    case Other => "other"
  }

  function TypeName(t: ReturnType): string
  {
    match t
    case Refund => "refund"
    case Swap => "exchange"
    case Credit => "credit"
  }

  /** `CreatePurchaseReturnItemRequest`; a missing member (or an empty batch
      id) is `None`. */
  datatype LineRequest = LineRequest(batchId: Option<BatchId>, quantityReturned: Option<real>,
                                     reason: Option<ReturnReason>, notes: Option<string>)

  /** `CreatePurchaseReturnRequest` */
  datatype CreateReturnRequest = CreateReturnRequest(purchaseId: Option<nat>, items: Option<seq<LineRequest>>,
                                                     returnType: Option<ReturnType>, returnDate: DateInput)

  /** `PurchaseReturnItem` */
  datatype ReturnItem = ReturnItem(productId: string, productName: string, batchId: BatchId,
                                   quantityReturned: real, unitCost: real, subtotal: real, reason: ReturnReason,
                                   notes: Option<string>)

  /** `PurchaseReturn`; `created_at` is `now`. */
  datatype PurchaseReturn = PurchaseReturn(id: nat, returnNumber: string, purchaseId: nat, purchaseNumber: string,
                                           supplierId: string, supplierName: string, items: seq<ReturnItem>,
                                           returnType: ReturnType, totalRefund: real, returnDate: int,
                                           createdBy: string, createdAt: int)

  // ------------------------------------------------------------ one line

  const LineRequired: seq<string> := ["batch_id", "quantity_returned", "reason"]

  function LineBody(line: LineRequest): Validation.Body
  {
    map["batch_id" := if line.batchId.Some? then Validation.Composite else Validation.Undefined,
        "quantity_returned" := NumField(line.quantityReturned),
        "reason" := if line.reason.Some? then Validation.Str(ReasonName(line.reason.value)) else Validation.Undefined]
  }

  lemma LineRequiredPass(line: LineRequest)
    ensures Validation.ValidateRequiredFields(LineBody(line), LineRequired) == Pass <==>
      line.batchId.Some? && line.quantityReturned.Some? && line.quantityReturned.value != 0.0 && line.reason.Some?
  {
    var body := LineBody(line);
    assert LineRequired[0] == "batch_id" && LineRequired[1] == "quantity_returned" && LineRequired[2] == "reason";
    assert Validation.Get(body, "batch_id") == body["batch_id"];
    assert Validation.Get(body, "quantity_returned") == body["quantity_returned"];
    assert Validation.Get(body, "reason") == body["reason"];
  }

  /** `purchase.items.find((pi) => pi.batch_id === batchId)` */
  function FindByBatch(items: seq<Purchases.PurchaseItem>, batchId: BatchId): (r: Option<Purchases.PurchaseItem>)
    ensures r.Some? ==> r.value in items && r.value.batchId == Some(batchId)
    ensures r.None? <==> forall k :: 0 <= k < |items| ==> items[k].batchId != Some(batchId)
  {
    if items == [] then None
    else if items[0].batchId == Some(batchId) then Some(items[0])
    else FindByBatch(items[1..], batchId)
  }

  /** What one line needs against a ledger: its fields, a positive quantity,
      a batch that exists, belongs to the purchase and holds at least that
      quantity. */
  predicate LineAcceptable(m: map<BatchId, Batch>, purchase: Purchases.Purchase, line: LineRequest)
  {
    line.batchId.Some? && line.quantityReturned.Some? && line.quantityReturned.value > 0.0 && line.reason.Some?
    && line.batchId.value in m
    && FindByBatch(purchase.items, line.batchId.value).Some?
    && line.quantityReturned.value <= m[line.batchId.value].currentQuantity
  }

  /** The checks of a line that need no ledger: its required fields and a
      positive quantity. */
  function LineFields(line: LineRequest): (r: Result<(BatchId, real, ReturnReason)>)
    ensures r.Ok? <==>
      line.batchId.Some? && line.quantityReturned.Some? && line.quantityReturned.value > 0.0 && line.reason.Some?
    ensures r.Ok? ==> r.value == (line.batchId.value, line.quantityReturned.value, line.reason.value)
  {
    var required := Validation.ValidateRequiredFields(LineBody(line), LineRequired);
    LineRequiredPass(line);
    if required.Fail? then Err(required.error)
    else if line.quantityReturned.value <= 0.0 then Err(BadRequest(NonPositiveQuantity))
    else Ok((line.batchId.value, line.quantityReturned.value, line.reason.value))
  }

  /** The checks of one line, in the source's order, against a ledger. */
  function CheckLine(m: map<BatchId, Batch>, purchase: Purchases.Purchase, line: LineRequest): Result<ReturnItem>
  {
    var fields := LineFields(line);
    if fields.Err? then Err(fields.error)
    else
      var (id, q, reason) := fields.value;
      if id !in m then Err(NotFound(BatchEntity))
      else
        var batch := m[id];
        var bought := FindByBatch(purchase.items, id);
        if bought.None? then Err(BadRequest(BatchNotInPurchase))
        else if q > batch.currentQuantity then Err(BadRequest(ReturnExceedsStock))
        else
          Ok(ReturnItem(batch.productId, bought.value.productName, id, q, batch.purchasePrice,
                        q * batch.purchasePrice, reason,
                        if line.notes.Some? && line.notes.value != "" then Some(Trim(line.notes.value)) else None))
  }

  /** A line passes exactly when it is acceptable; the kept line returns the
      requested quantity of that batch at its purchase price. */
  lemma CheckLineSpec(m: map<BatchId, Batch>, purchase: Purchases.Purchase, line: LineRequest)
    ensures var r := CheckLine(m, purchase, line);
      (r.Ok? <==> LineAcceptable(m, purchase, line))
      && (r.Ok? ==>
            r.value.batchId == line.batchId.value && r.value.quantityReturned == line.quantityReturned.value
            && r.value.productId == m[r.value.batchId].productId
            && r.value.unitCost == m[r.value.batchId].purchasePrice
            && r.value.subtotal == r.value.quantityReturned * r.value.unitCost
            && 0.0 < r.value.quantityReturned <= m[r.value.batchId].currentQuantity)
  {
    CheckLineOk(m, purchase, line);
    if CheckLine(m, purchase, line).Ok? {
      CheckLineValue(m, purchase, line);
    }
  }

  lemma CheckLineValue(m: map<BatchId, Batch>, purchase: Purchases.Purchase, line: LineRequest)
    requires CheckLine(m, purchase, line).Ok?
    ensures var item := CheckLine(m, purchase, line).value;
      item.batchId == line.batchId.value && item.quantityReturned == line.quantityReturned.value
      && item.batchId in m && item.productId == m[item.batchId].productId
      && item.unitCost == m[item.batchId].purchasePrice
      && item.subtotal == item.quantityReturned * item.unitCost
      && 0.0 < item.quantityReturned <= m[item.batchId].currentQuantity
  {
  }

  lemma CheckLineOk(m: map<BatchId, Batch>, purchase: Purchases.Purchase, line: LineRequest)
    ensures CheckLine(m, purchase, line).Ok? <==> LineAcceptable(m, purchase, line)
  {
  }

  function LineCheck(m: map<BatchId, Batch>, purchase: Purchases.Purchase): LineRequest -> Result<ReturnItem>
  {
    line => CheckLine(m, purchase, line)
  }

  function LineSubtotal(item: ReturnItem): real { item.subtotal }

  // ------------------------------------------------------- the batch updates

  /** The transaction's loop: each line's batch loses the line's quantity. */
  function Apply(m: map<BatchId, Batch>, items: seq<ReturnItem>): (r: map<BatchId, Batch>)
    ensures r.Keys == m.Keys
  {
    if items == [] then m
    else
      var prev := Apply(m, items[..|items| - 1]);
      Take(prev, items[|items| - 1])
  }

  /** One line taken off a ledger: its batch, if present, loses the quantity
      returned. */
  function Take(w: map<BatchId, Batch>, item: ReturnItem): (r: map<BatchId, Batch>)
    ensures r.Keys == w.Keys
  {
    if item.batchId in w then
      w[item.batchId := w[item.batchId].(currentQuantity := w[item.batchId].currentQuantity - item.quantityReturned)]
    else w
  }

  /** What the lines return of one batch in total. */
  function ReturnedOf(items: seq<ReturnItem>, id: BatchId): real
  {
    if items == [] then 0.0
    else
      var last := items[|items| - 1];
      ReturnedOf(items[..|items| - 1], id) + (if last.batchId == id then last.quantityReturned else 0.0)
  }

  /** After the loop each batch holds its quantity less everything the lines
      return of it, and nothing else about it changes. */
  lemma {:induction false} ApplyTotals(m: map<BatchId, Batch>, items: seq<ReturnItem>, id: BatchId)
    requires id in m
    ensures Apply(m, items)[id] == m[id].(currentQuantity := m[id].currentQuantity - ReturnedOf(items, id))
  {
    if items != [] {
      ApplyTotals(m, items[..|items| - 1], id);
    }
  }

  // ------------------------------------------------------------ as written

  /** `create` as written: every line is checked against the quantities read
      before the transaction, then the transaction subtracts all of them. */
  function PlanLinesAsWritten(m: map<BatchId, Batch>, purchase: Purchases.Purchase, lines: seq<LineRequest>)
    : Result<(seq<ReturnItem>, real, map<BatchId, Batch>)>
  {
    var walked := Walk(LineCheck(m, purchase), LineSubtotal, lines);
    if walked.Err? then Err(walked.error)
    else Ok((walked.value.0, walked.value.1, Apply(m, walked.value.0)))
  }

  /** Two lines returning the whole of one 5-unit batch both pass the check,
      so 10 units are accepted for return from a batch holding 5. Applied one
      after the other, as this model's transaction does, they leave the batch
      at -5; Firestore itself refuses the second line's read after the first
      line's write, so the program fails the return instead. */
  lemma AsWrittenOverReturns()
    ensures var batch := Batch(0, "p", "s", None, 5.0, 5.0, 1.0, 0, None, None, "u");
      var item := Purchases.PurchaseItem("p", "P", 5.0, 1.0, 5.0, None, None, Some(0));
      var purchase := Purchases.Purchase(0, "COMPRA-20240101-0001", "s", "S", Purchases.Direct,
                                         Purchases.Received, [item], 5.0, 0.0, 5.0, 0, Some(0), None, None, "u", 0);
      var line := LineRequest(Some(0), Some(5.0), Some(Damaged), None);
      var r := PlanLinesAsWritten(map[0 := batch], purchase, [line, line]);
      r.Ok? && r.value.2[0].currentQuantity == -5.0
  {
    var batch := Batch(0, "p", "s", None, 5.0, 5.0, 1.0, 0, None, None, "u");
    var item := Purchases.PurchaseItem("p", "P", 5.0, 1.0, 5.0, None, None, Some(0));
    var purchase := Purchases.Purchase(0, "COMPRA-20240101-0001", "s", "S", Purchases.Direct,
                                       Purchases.Received, [item], 5.0, 0.0, 5.0, 0, Some(0), None, None, "u", 0);
    var line := LineRequest(Some(0), Some(5.0), Some(Damaged), None);
    var m := map[0 := batch];
    var lines := [line, line];
    var check := LineCheck(m, purchase);
    assert FindByBatch(purchase.items, 0) == Some(item);
    CheckLineSpec(m, purchase, line);
    assert check(line).Ok?;
    var returned := check(line).value;
    assert returned.quantityReturned == 5.0 && returned.batchId == 0;
    WalkOk(check, LineSubtotal, lines);
    WalkContents(check, LineSubtotal, lines);
    var items := Walk(check, LineSubtotal, lines).value.0;
    assert items[0] == returned && items[1] == returned;
    ApplyTotals(m, items, 0);
    assert items[..1][..0] == [];
    assert ReturnedOf(items[..1][..0], 0) == 0.0;
    assert ReturnedOf(items[..1], 0) == 5.0;
    assert ReturnedOf(items, 0) == 10.0;
  }

  // ------------------------------------------------------------ corrected

  /** What a kept line promises about the ledger it was checked against: its
      batch exists, holds at least the quantity returned, which is positive,
      and its unit cost is the batch's purchase price. */
  predicate Fits(w: map<BatchId, Batch>, item: ReturnItem)
  {
    item.batchId in w && 0.0 < item.quantityReturned <= w[item.batchId].currentQuantity
    && item.unitCost == w[item.batchId].purchasePrice
  }

  /** The line check against a given working ledger. */
  function CheckAt(purchase: Purchases.Purchase): (map<BatchId, Batch>, LineRequest) -> Result<ReturnItem>
  {
    (w, line) => CheckLine(w, purchase, line)
  }

  /** A kept line names a batch of the purchase. */
  function InPurchase(purchase: Purchases.Purchase): ReturnItem -> bool
  {
    (item: ReturnItem) => FindByBatch(purchase.items, item.batchId).Some?
  }

  /** The lines checked in order, each against the ledger as the earlier
      lines leave it, so that together they never return more of a batch
      than it holds. */
  function Cumulative(check: (map<BatchId, Batch>, LineRequest) -> Result<ReturnItem>, m: map<BatchId, Batch>,
                      lines: seq<LineRequest>): (r: Result<(seq<ReturnItem>, real)>)
    ensures r.Ok? ==> |r.value.0| == |lines|
  {
    if lines == [] then Ok(([], 0.0))
    else
      var prev := Cumulative(check, m, lines[..|lines| - 1]);
      if prev.Err? then prev
      else
        var c := check(Apply(m, prev.value.0), lines[|lines| - 1]);
        if c.Err? then Err(c.error)
        else Ok((prev.value.0 + [c.value], prev.value.1 + c.value.subtotal))
  }

  /** Taking a fitting line off a well-formed ledger leaves it well formed. */
  lemma TakeWellFormed(w: map<BatchId, Batch>, item: ReturnItem)
    requires WellFormed(w) && Fits(w, item)
    ensures WellFormed(Apply(w, [item]))
  {
    assert [item][..0] == [];
  }

  /** One more accepted line: the ledger after it is the ledger after the
      earlier lines with this line taken off. */
  lemma ApplySnoc(m: map<BatchId, Batch>, items: seq<ReturnItem>, item: ReturnItem)
    ensures Apply(m, items + [item]) == Apply(Apply(m, items), [item])
  {
    assert (items + [item])[..|items|] == items;
    assert [item][..0] == [];
  }

  /** For any check whose kept lines fit the ledger they were checked
      against, the accepted lines keep a well-formed ledger well formed and
      the refund is the sum of the line subtotals. */
  lemma {:induction false} CumulativeWellFormed(check: (map<BatchId, Batch>, LineRequest) -> Result<ReturnItem>,
                                                m: map<BatchId, Batch>, lines: seq<LineRequest>)
    requires WellFormed(m)
    requires forall w, line :: check(w, line).Ok? ==> Fits(w, check(w, line).value)
    requires Cumulative(check, m, lines).Ok?
    ensures var (items, refund) := Cumulative(check, m, lines).value;
      WellFormed(Apply(m, items)) && refund == Sum(LineSubtotal, items)
  {
    if lines != [] {
      var init := lines[..|lines| - 1];
      CumulativeWellFormed(check, m, init);
      var prev := Cumulative(check, m, init).value;
      var w := Apply(m, prev.0);
      var c := check(w, lines[|lines| - 1]).value;
      TakeWellFormed(w, c);
      ApplySnoc(m, prev.0, c);
      assert (prev.0 + [c])[..|prev.0|] == prev.0;
    }
  }

  /** For any check whose kept lines fit the ledger they were checked
      against and satisfy `ok`, every accepted line satisfies `ok`, returns a
      positive quantity of a batch of the ledger and is priced at that
      batch's purchase price. */
  lemma {:induction false} CumulativeLines(check: (map<BatchId, Batch>, LineRequest) -> Result<ReturnItem>,
                                           ok: ReturnItem -> bool, m: map<BatchId, Batch>,
                                           lines: seq<LineRequest>, k: nat)
    requires forall w, line :: check(w, line).Ok? ==> Fits(w, check(w, line).value) && ok(check(w, line).value)
    requires Cumulative(check, m, lines).Ok? && k < |lines|
    ensures var item := Cumulative(check, m, lines).value.0[k];
      item.batchId in m && item.quantityReturned > 0.0
      && item.unitCost == m[item.batchId].purchasePrice && ok(item)
  {
    var init := lines[..|lines| - 1];
    var prev := Cumulative(check, m, init).value;
    if k < |lines| - 1 {
      CumulativeLines(check, ok, m, init, k);
      assert Cumulative(check, m, lines).value.0[k] == prev.0[k];
    } else {
      var w := Apply(m, prev.0);
      var c := check(w, lines[k]).value;
      assert Fits(w, c) && ok(c);
      ApplyTotals(m, prev.0, c.batchId);
      assert Cumulative(check, m, lines).value.0[k] == c;
    }
  }

  /** The corrected check keeps the ledger well formed, refunds the sum of
      the line subtotals, and returns only batches of the purchase. */
  lemma PlanLinesSound(check: (map<BatchId, Batch>, LineRequest) -> Result<ReturnItem>, m: map<BatchId, Batch>,
                       purchase: Purchases.Purchase, lines: seq<LineRequest>)
    requires forall w, line :: check(w, line) == CheckLine(w, purchase, line)
    requires WellFormed(m)
    requires Cumulative(check, m, lines).Ok?
    ensures var (items, refund) := Cumulative(check, m, lines).value;
      WellFormed(Apply(m, items)) && refund == Sum(LineSubtotal, items)
      && forall k :: 0 <= k < |items| ==>
           (items[k].batchId in m && items[k].quantityReturned > 0.0
            && items[k].unitCost == m[items[k].batchId].purchasePrice
            && FindByBatch(purchase.items, items[k].batchId).Some?)
  {
    forall w, line | check(w, line).Ok?
      ensures Fits(w, check(w, line).value) && InPurchase(purchase)(check(w, line).value)
    {
      CheckLineSpec(w, purchase, line);
    }
    CumulativeWellFormed(check, m, lines);
    var items := Cumulative(check, m, lines).value.0;
    forall k | 0 <= k < |items|
      ensures items[k].batchId in m && items[k].quantityReturned > 0.0
      ensures items[k].unitCost == m[items[k].batchId].purchasePrice
      ensures FindByBatch(purchase.items, items[k].batchId).Some?
    {
      CumulativeLines(check, InPurchase(purchase), m, lines, k);
      assert InPurchase(purchase)(items[k]);
    }
  }

  /** Checking a line against a ledger that holds less of each batch, and is
      otherwise the same, can only refuse more: what it accepts, the fuller
      ledger accepts identically. */
  lemma CheckLineMonotone(w: map<BatchId, Batch>, m: map<BatchId, Batch>, purchase: Purchases.Purchase,
                          line: LineRequest)
    requires w.Keys == m.Keys
    requires forall b :: b in m ==>
      w[b] == m[b].(currentQuantity := w[b].currentQuantity) && w[b].currentQuantity <= m[b].currentQuantity
    requires CheckLine(w, purchase, line).Ok?
    ensures CheckLine(m, purchase, line) == CheckLine(w, purchase, line)
  {
    CheckLineSpec(w, purchase, line);
    var (id, q, reason) := LineFields(line).value;
    assert w[id] == m[id].(currentQuantity := w[id].currentQuantity);
    var bought := FindByBatch(purchase.items, id);
    var notes := if line.notes.Some? && line.notes.value != "" then Some(Trim(line.notes.value)) else None;
    var item := ReturnItem(m[id].productId, bought.value.productName, id, q, m[id].purchasePrice,
                           q * m[id].purchasePrice, reason, notes);
    assert LineFields(line).Ok?;
    assert id in w;
    assert bought.Some?;
    assert q <= w[id].currentQuantity;
    assert CheckLine(w, purchase, line).value.productId == item.productId;
    assert CheckLine(w, purchase, line).value.notes == item.notes;
    assert CheckLine(w, purchase, line).value.reason == item.reason;
    assert CheckLine(w, purchase, line).value.productName == item.productName;
    assert CheckLine(w, purchase, line).value.batchId == item.batchId;
    assert CheckLine(w, purchase, line).value.quantityReturned == item.quantityReturned;
    assert CheckLine(w, purchase, line).value.unitCost == item.unitCost;
    assert CheckLine(w, purchase, line).value.subtotal == item.subtotal;
    assert CheckLine(w, purchase, line) == Ok(item);
    assert q <= m[id].currentQuantity;
    var kept := CheckLine(m, purchase, line).value;
    assert kept.productId == item.productId && kept.productName == item.productName && kept.batchId == item.batchId;
    assert kept.quantityReturned == item.quantityReturned && kept.unitCost == item.unitCost;
    assert kept.subtotal == item.subtotal && kept.reason == item.reason && kept.notes == item.notes;
  }

  /** `w` is `m` with some stock taken off its batches and nothing else
      changed. */
  predicate Shrunk(w: map<BatchId, Batch>, m: map<BatchId, Batch>)
  {
    w.Keys == m.Keys
    && forall b :: b in m ==>
         (w[b] == m[b].(currentQuantity := w[b].currentQuantity) && w[b].currentQuantity <= m[b].currentQuantity)
  }

  /** For any check whose kept lines fit, the ledger after the accepted
      lines is the starting ledger with some stock taken off. */
  lemma CumulativeShrunk(check: (map<BatchId, Batch>, LineRequest) -> Result<ReturnItem>,
                         m: map<BatchId, Batch>, lines: seq<LineRequest>)
    requires forall w, line :: check(w, line).Ok? ==> Fits(w, check(w, line).value)
    requires Cumulative(check, m, lines).Ok?
    ensures Shrunk(Apply(m, Cumulative(check, m, lines).value.0), m)
  {
    var items := Cumulative(check, m, lines).value.0;
    var w := Apply(m, items);
    forall k | 0 <= k < |items|
      ensures items[k].quantityReturned > 0.0
    {
      CumulativeLines(check, _ => true, m, lines, k);
    }
    forall b | b in m
      ensures w[b] == m[b].(currentQuantity := w[b].currentQuantity) && w[b].currentQuantity <= m[b].currentQuantity
    {
      ApplyTotals(m, items, b);
      ReturnedOfNonNegative(items, b);
    }
  }

  /** For any check whose kept lines fit, and which accepts against a
      shrunk ledger only what a fixed per-line check `single` accepts
      identically, the cumulative walk succeeds with the same lines and
      refund as walking `single` over the lines. */
  lemma {:induction false} CumulativeRefinesWalk(check: (map<BatchId, Batch>, LineRequest) -> Result<ReturnItem>,
                                                 single: LineRequest -> Result<ReturnItem>,
                                                 m: map<BatchId, Batch>, lines: seq<LineRequest>)
    requires forall w, line :: check(w, line).Ok? ==> Fits(w, check(w, line).value)
    requires forall w, line :: Shrunk(w, m) && check(w, line).Ok? ==> single(line) == check(w, line)
    requires Cumulative(check, m, lines).Ok?
    ensures Walk(single, LineSubtotal, lines) == Cumulative(check, m, lines)
  {
    if lines == [] {
      assert Walk(single, LineSubtotal, lines) == Ok(([], 0.0));
    } else {
      var init := lines[..|lines| - 1];
      CumulativeRefinesWalk(check, single, m, init);
      var prev := Cumulative(check, m, init).value;
      var w := Apply(m, prev.0);
      CumulativeShrunk(check, m, init);
      var c := check(w, lines[|lines| - 1]);
      assert single(lines[|lines| - 1]) == c;
    }
  }

  /** Every return the corrected check accepts, the as-written check accepts
      too, with the same lines and refund: the correction only refuses more. */
  lemma CorrectedRefinesAsWritten(check: (map<BatchId, Batch>, LineRequest) -> Result<ReturnItem>,
                                  m: map<BatchId, Batch>, purchase: Purchases.Purchase,
                                  lines: seq<LineRequest>)
    requires forall w, line :: check(w, line) == CheckLine(w, purchase, line)
    requires Cumulative(check, m, lines).Ok?
    ensures var r := PlanLinesAsWritten(m, purchase, lines);
      r.Ok? && (r.value.0, r.value.1) == Cumulative(check, m, lines).value
  {
    forall w, line | check(w, line).Ok?
      ensures Fits(w, check(w, line).value)
    {
      CheckLineSpec(w, purchase, line);
    }
    forall w, line | Shrunk(w, m) && check(w, line).Ok?
      ensures LineCheck(m, purchase)(line) == check(w, line)
    {
      CheckLineMonotone(w, m, purchase, line);
    }
    CumulativeRefinesWalk(check, LineCheck(m, purchase), m, lines);
  }

  lemma {:induction false} ReturnedOfNonNegative(items: seq<ReturnItem>, id: BatchId)
    requires forall k :: 0 <= k < |items| ==> items[k].quantityReturned > 0.0
    ensures ReturnedOf(items, id) >= 0.0
  {
    if items != [] {
      ReturnedOfNonNegative(items[..|items| - 1], id);
    }
  }

  // ------------------------------------------------------------ create

  const ReturnRequired: seq<string> := ["purchase_id", "items", "return_type"]

  function ReturnBody(req: CreateReturnRequest): Validation.Body
  {
    map["purchase_id" := if req.purchaseId.Some? then Validation.Composite else Validation.Undefined,
        "items" := if req.items.Some? then Validation.Composite else Validation.Undefined,
        "return_type" := if req.returnType.Some? then Validation.Str(TypeName(req.returnType.value))
                         else Validation.Undefined]
  }

  lemma ReturnRequiredPass(req: CreateReturnRequest)
    ensures Validation.ValidateRequiredFields(ReturnBody(req), ReturnRequired) == Pass <==>
      req.purchaseId.Some? && req.items.Some? && req.returnType.Some?
  {
    var body := ReturnBody(req);
    assert ReturnRequired[0] == "purchase_id" && ReturnRequired[1] == "items" && ReturnRequired[2] == "return_type";
    assert Validation.Get(body, "purchase_id") == body["purchase_id"];
    assert Validation.Get(body, "items") == body["items"];
    assert Validation.Get(body, "return_type") == body["return_type"];
  }

  /** The whole of `create` with the corrected line check: the return it
      records and the ledger after it. */
  function PlanReturn(m: map<BatchId, Batch>, purchases: map<nat, Purchases.Purchase>, req: CreateReturnRequest,
                      userId: string, now: int, id: nat, returnNumber: string)
    : Result<(PurchaseReturn, map<BatchId, Batch>)>
  {
    var required := Validation.ValidateRequiredFields(ReturnBody(req), ReturnRequired);
    ReturnRequiredPass(req);
    if required.Fail? then Err(required.error)
    else if req.items.value == [] then Err(BadRequest(NoItems))
    else if req.purchaseId.value !in purchases then Err(NotFound(PurchaseEntity))
    else
      var purchase := purchases[req.purchaseId.value];
      var planned := Cumulative(CheckAt(purchase), m, req.items.value);
      if planned.Err? then Err(planned.error)
      else if req.returnDate.Invalid? then Err(BadRequest(InvalidReturnDate))
      else
        Ok((PurchaseReturn(id, returnNumber, req.purchaseId.value, purchase.purchaseNumber, purchase.supplierId,
                           purchase.supplierName, planned.value.0, req.returnType.value, planned.value.1,
                           if req.returnDate.Parsed? then req.returnDate.ms else now, userId, now),
            Apply(m, planned.value.0)))
  }

  /** A return without lines is refused. */
  lemma NoItemsRejected(m: map<BatchId, Batch>, purchases: map<nat, Purchases.Purchase>, req: CreateReturnRequest,
                        userId: string, now: int, id: nat, returnNumber: string)
    requires req.purchaseId.Some? && req.returnType.Some? && req.items == Some([])
    ensures PlanReturn(m, purchases, req, userId, now, id, returnNumber) == Err(BadRequest(NoItems))
  {
    ReturnRequiredPass(req);
  }

  /** A recorded return has a line per requested line, refunds the sum of
      their subtotals, and leaves the ledger well formed with the same
      records; an unparseable return date is refused. */
  lemma PlanReturnFacts(m: map<BatchId, Batch>, purchases: map<nat, Purchases.Purchase>, req: CreateReturnRequest,
                        userId: string, now: int, id: nat, returnNumber: string)
    requires WellFormed(m)
    requires PlanReturn(m, purchases, req, userId, now, id, returnNumber).Ok?
    ensures req.items.Some? && req.purchaseId.Some? && req.purchaseId.value in purchases
    ensures var (ret, after) := PlanReturn(m, purchases, req, userId, now, id, returnNumber).value;
      |ret.items| == |req.items.value| > 0 && ret.totalRefund == Sum(LineSubtotal, ret.items)
      && WellFormed(after) && after.Keys == m.Keys
      && !req.returnDate.Invalid?
      && ret.purchaseNumber == purchases[req.purchaseId.value].purchaseNumber
      && forall k :: 0 <= k < |ret.items| ==>
           FindByBatch(purchases[req.purchaseId.value].items, ret.items[k].batchId).Some?
  {
    ReturnRequiredPass(req);
    var purchase := purchases[req.purchaseId.value];
    PlanLinesSound(CheckAt(purchase), m, purchase, req.items.value);
  }

  /** The corrected line loop as a transaction would run it: check each line
      against the working copy, then take its quantity off. */
  method RunLines(check: (map<BatchId, Batch>, LineRequest) -> Result<ReturnItem>, m: map<BatchId, Batch>,
                  lines: seq<LineRequest>)
    returns (r: Result<(seq<ReturnItem>, real)>, after: map<BatchId, Batch>)
    ensures r == Cumulative(check, m, lines)
    ensures r.Ok? ==> after == Apply(m, r.value.0)
  {
    var items: seq<ReturnItem> := [];
    var refund := 0.0;
    var w := m;
    var i := 0;
    while i < |lines|
      invariant 0 <= i <= |lines|
      invariant Cumulative(check, m, lines[..i]) == Ok((items, refund))
      invariant w == Apply(m, items)
    {
      var c := check(w, lines[i]);
      if c.Err? {
        CumulativeRefuses(check, m, lines, i, items, refund);
        return Err(c.error), m;
      }
      CumulativeAccepts(check, m, lines, i, items, refund);
      items := items + [c.value];
      w := Take(w, c.value);
      refund := refund + c.value.subtotal;
      i := i + 1;
    }
    assert lines[..i] == lines;
    r, after := Ok((items, refund)), w;
  }

  /** A line the check accepts extends the walk and is taken off the
      ledger. */
  lemma CumulativeAccepts(check: (map<BatchId, Batch>, LineRequest) -> Result<ReturnItem>, m: map<BatchId, Batch>,
                          lines: seq<LineRequest>, i: nat, items: seq<ReturnItem>, refund: real)
    requires i < |lines| && Cumulative(check, m, lines[..i]) == Ok((items, refund))
    requires check(Apply(m, items), lines[i]).Ok?
    ensures var item := check(Apply(m, items), lines[i]).value;
      Cumulative(check, m, lines[..i + 1]) == Ok((items + [item], refund + item.subtotal))
      && Apply(m, items + [item]) == Take(Apply(m, items), item)
  {
    CumulativeStep(check, m, lines, i, items, refund);
    ApplyStep(m, items, check(Apply(m, items), lines[i]).value);
  }

  /** A line the check refuses ends the walk with its error. */
  lemma CumulativeRefuses(check: (map<BatchId, Batch>, LineRequest) -> Result<ReturnItem>, m: map<BatchId, Batch>,
                          lines: seq<LineRequest>, i: nat, items: seq<ReturnItem>, refund: real)
    requires i < |lines| && Cumulative(check, m, lines[..i]) == Ok((items, refund))
    requires check(Apply(m, items), lines[i]).Err?
    ensures Cumulative(check, m, lines) == Err(check(Apply(m, items), lines[i]).error)
  {
    CumulativeStep(check, m, lines, i, items, refund);
    CumulativeErrSticky(check, m, lines, i + 1);
  }

  /** One more line of the cumulative walk. */
  lemma CumulativeStep(check: (map<BatchId, Batch>, LineRequest) -> Result<ReturnItem>, m: map<BatchId, Batch>,
                       lines: seq<LineRequest>, i: nat, items: seq<ReturnItem>, refund: real)
    requires i < |lines| && Cumulative(check, m, lines[..i]) == Ok((items, refund))
    ensures var c := check(Apply(m, items), lines[i]);
      Cumulative(check, m, lines[..i + 1])
        == if c.Err? then Err(c.error) else Ok((items + [c.value], refund + c.value.subtotal))
  {
    var next := lines[..i + 1];
    assert |next| == i + 1;
    assert next[..i] == lines[..i];
    assert next[i] == lines[i];
    var prev := Cumulative(check, m, next[..i]);
    assert prev == Ok((items, refund));
    var c := check(Apply(m, items), lines[i]);
    if c.Err? {
      assert Cumulative(check, m, next) == Err(c.error);
    } else {
      assert Cumulative(check, m, next) == Ok((items + [c.value], refund + c.value.subtotal));
    }
  }

  /** One more line taken off the ledger. */
  lemma ApplyStep(m: map<BatchId, Batch>, items: seq<ReturnItem>, item: ReturnItem)
    ensures Apply(m, items + [item]) == Take(Apply(m, items), item)
  {
    assert (items + [item])[..|items|] == items;
  }

  /** If the first `i` lines already fail, the whole loop fails the same way. */
  lemma {:induction false} CumulativeErrSticky(check: (map<BatchId, Batch>, LineRequest) -> Result<ReturnItem>,
                                               m: map<BatchId, Batch>, lines: seq<LineRequest>, i: nat)
    requires i <= |lines| && Cumulative(check, m, lines[..i]).Err?
    ensures Cumulative(check, m, lines) == Cumulative(check, m, lines[..i])
    decreases |lines|
  {
    if i < |lines| {
      var init := lines[..|lines| - 1];
      assert init[..i] == lines[..i];
      CumulativeErrSticky(check, m, init, i);
    } else {
      assert lines[..i] == lines;
    }
  }

  /** The checks of `create` in the source's order, then the line loop
      against a working copy of the ledger. */
  method RunPlan(m: map<BatchId, Batch>, purchases: map<nat, Purchases.Purchase>, req: CreateReturnRequest,
                 userId: string, now: int, id: nat, returnNumber: string)
    returns (r: Result<(PurchaseReturn, map<BatchId, Batch>)>)
    ensures r == PlanReturn(m, purchases, req, userId, now, id, returnNumber)
  {
    ReturnRequiredPass(req);
    var required := Validation.ValidateRequiredFields(ReturnBody(req), ReturnRequired);
    if required.Fail? {
      return Err(required.error);
    }
    var lines := req.items.value;
    if lines == [] {
      return Err(BadRequest(NoItems));
    }
    if req.purchaseId.value !in purchases {
      return Err(NotFound(PurchaseEntity));
    }
    var purchase := purchases[req.purchaseId.value];
    var planned, after := RunLines(CheckAt(purchase), m, lines);
    if planned.Err? {
      return Err(planned.error);
    }
    if req.returnDate.Invalid? {
      return Err(BadRequest(InvalidReturnDate));
    }
    var returnDate := if req.returnDate.Parsed? then req.returnDate.ms else now;
    var ret := PurchaseReturn(id, returnNumber, req.purchaseId.value, purchase.purchaseNumber,
                              purchase.supplierId, purchase.supplierName, planned.value.0, req.returnType.value,
                              planned.value.1, returnDate, userId, now);
    r := Ok((ret, after));
  }

  // ------------------------------------------------------------ the service

  /** The returns collection; the i-th recorded return has id i. */
  class ReturnService {
    var records: seq<PurchaseReturn>

    ghost predicate Valid()
      reads this
    {
      forall i :: 0 <= i < |records| ==> records[i].id == i
    }

    constructor ()
      ensures Valid() && records == []
    {
      records := [];
    }

    /** `create`, with each line checked against what the earlier lines
        left: the return is recorded and every batch loses what it gives back,
        together, or nothing changes. */
    method Create(ledger: Ledger, purchases: map<nat, Purchases.Purchase>, req: CreateReturnRequest, userId: string,
                  now: int, isoDate: string, countToday: nat) returns (r: Result<PurchaseReturn>)
      requires Valid() && ledger.Valid()
      modifies this, ledger
      ensures Valid() && ledger.Valid() && ledger.nextId == old(ledger.nextId)
      ensures var plan := PlanReturn(old(ledger.batches), purchases, req, userId, now, old(|records|),
                                     Numbering.ReturnNumber(isoDate, countToday));
        (plan.Err? ==> r == Err(plan.error) && ledger.batches == old(ledger.batches) && records == old(records))
        && (plan.Ok? ==>
              r == Ok(plan.value.0) && ledger.batches == plan.value.1 && records == old(records) + [plan.value.0])
    {
      var returnNumber := Numbering.ReturnNumber(isoDate, countToday);
      var plan := RunPlan(ledger.batches, purchases, req, userId, now, |records|, returnNumber);
      if plan.Err? {
        return Err(plan.error);
      }
      PlanReturnFacts(ledger.batches, purchases, req, userId, now, |records|, returnNumber);
      ledger.batches := plan.value.1;
      records := records + [plan.value.0];
      r := Ok(plan.value.0);
    }
  }
}
