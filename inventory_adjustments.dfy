/** Inventory adjustments (back/src/services/inventory-adjustment.service.ts):
    waste and manual corrections applied to one batch, written together with
    the batch's new quantity; their listing and their per-type summary. */
module InventoryAdjustments {
  import opened Common
  import opened Sorting
  import Validation
  import Pagination
  import opened InventoryBatches

  /** `AdjustmentType` */
  datatype AdjustmentType = WasteExpired | WasteDamaged | ManualCorrection

  function TypeName(t: AdjustmentType): string
  {
    match t
    case WasteExpired => "waste_expired"
    case WasteDamaged => "waste_damaged"
    case ManualCorrection => "manual_correction"
  }

  predicate IsWaste(t: AdjustmentType)
  {
    t == WasteExpired || t == WasteDamaged
  }

  /** `InventoryAdjustment`; `created_at` is the commit time, here `now`. */
  datatype Adjustment = Adjustment(id: nat, batchId: BatchId, productId: string, adjustmentType: AdjustmentType,
                                   quantity: real, reason: string, adjustedBy: string, createdAt: int)

  /** `CreateInventoryAdjustmentRequest`; a missing member (or an empty batch
      id) is `None`. */
  datatype CreateAdjustmentRequest = CreateAdjustmentRequest(batchId: Option<BatchId>,
                                                             adjustmentType: Option<AdjustmentType>,
                                                             quantity: Option<real>, reason: Option<string>)

  const AdjustmentRequired: seq<string> := ["batch_id", "adjustment_type", "quantity", "reason"]

  /** The request as `validateRequiredFields` sees it. */
  function AdjustmentBody(req: CreateAdjustmentRequest): Validation.Body
  {
    map["batch_id" := if req.batchId.Some? then Validation.Composite else Validation.Undefined,
        "adjustment_type" := if req.adjustmentType.Some? then Validation.Str(TypeName(req.adjustmentType.value))
                             else Validation.Undefined,
        "quantity" := NumField(req.quantity),
        "reason" := if req.reason.Some? then Validation.Str(req.reason.value) else Validation.Undefined]
  }

  /** The required-field check passes exactly when every member is there, the
      quantity is not 0 and the reason is not empty. */
  lemma AdjustmentRequiredPass(req: CreateAdjustmentRequest)
    ensures Validation.ValidateRequiredFields(AdjustmentBody(req), AdjustmentRequired) == Pass <==>
      req.batchId.Some? && req.adjustmentType.Some? && req.quantity.Some? && req.quantity.value != 0.0
      && req.reason.Some? && req.reason.value != ""
  {
    var body := AdjustmentBody(req);
    assert AdjustmentRequired[0] == "batch_id" && AdjustmentRequired[1] == "adjustment_type";
    assert AdjustmentRequired[2] == "quantity" && AdjustmentRequired[3] == "reason";
    assert Validation.Get(body, "batch_id") == body["batch_id"];
    assert Validation.Get(body, "adjustment_type") == body["adjustment_type"];
    assert Validation.Get(body, "quantity") == body["quantity"];
    assert Validation.Get(body, "reason") == body["reason"];
  }

  /** `create` up to its transaction: the record to write and the batch's new
      quantity, or the first error in the source's order. */
  function PlanAdjustment(m: map<BatchId, Batch>, req: CreateAdjustmentRequest, userId: string, now: int,
                          id: nat): Result<(Adjustment, real)>
  {
    var required := Validation.ValidateRequiredFields(AdjustmentBody(req), AdjustmentRequired);
    AdjustmentRequiredPass(req);
    if required.Fail? then Err(required.error)
    else if req.batchId.value !in m then Err(NotFound(BatchEntity))
    else
      var batch := m[req.batchId.value];
      var q := req.quantity.value;
      var t := req.adjustmentType.value;
      if q == 0.0 then Err(BadRequest(ZeroQuantity))
      else if IsWaste(t) && q > 0.0 then Err(BadRequest(WasteMustBeNegative))
      else if batch.currentQuantity + q < 0.0 then Err(BadRequest(AdjustmentBelowZero))
      else
        Ok((Adjustment(id, req.batchId.value, batch.productId, t, q, Trim(req.reason.value), userId, now),
            batch.currentQuantity + q))
  }

  /** When `create` accepts an adjustment, in both directions: all fields
      given (quantity not 0, reason not empty), the batch exists, a waste is
      not positive, and the batch does not go below zero. */
  lemma PlanAdjustmentOk(m: map<BatchId, Batch>, req: CreateAdjustmentRequest, userId: string, now: int, id: nat)
    ensures var r := PlanAdjustment(m, req, userId, now, id);
      r.Ok? <==>
        (req.batchId.Some? && req.adjustmentType.Some? && req.quantity.Some? && req.quantity.value != 0.0
         && req.reason.Some? && req.reason.value != ""
         && req.batchId.value in m
         && !(IsWaste(req.adjustmentType.value) && req.quantity.value > 0.0)
         && m[req.batchId.value].currentQuantity + req.quantity.value >= 0.0)
  {
    AdjustmentRequiredPass(req);
  }

  /** The record carries the batch, the batch's product, the type, the
      quantity and the trimmed reason; the batch's new quantity is its current
      one plus the adjustment, never negative, and a waste never raises it. */
  lemma PlanAdjustmentRecord(m: map<BatchId, Batch>, req: CreateAdjustmentRequest, userId: string, now: int,
                             id: nat)
    requires PlanAdjustment(m, req, userId, now, id).Ok?
    ensures req.batchId.Some? && req.batchId.value in m
    ensures req.adjustmentType.Some? && req.quantity.Some? && req.reason.Some?
    ensures var (adj, newQuantity) := PlanAdjustment(m, req, userId, now, id).value;
      var batch := m[req.batchId.value];
      adj == Adjustment(id, req.batchId.value, batch.productId, req.adjustmentType.value, req.quantity.value,
                        Trim(req.reason.value), userId, now)
      && newQuantity == batch.currentQuantity + adj.quantity && newQuantity >= 0.0
      && (IsWaste(adj.adjustmentType) ==> newQuantity < batch.currentQuantity)
  {
    AdjustmentRequiredPass(req);
  }

  /** An accepted adjustment carries the id it was given, names a batch of
      the ledger and leaves it a non-negative quantity. */
  lemma PlanAdjustmentBounds(m: map<BatchId, Batch>, req: CreateAdjustmentRequest, userId: string, now: int,
                             id: nat)
    requires PlanAdjustment(m, req, userId, now, id).Ok?
    ensures var (adj, newQuantity) := PlanAdjustment(m, req, userId, now, id).value;
      adj.id == id && adj.batchId in m && newQuantity >= 0.0
  {
    AdjustmentRequiredPass(req);
  }

  /** A 0 quantity is refused as a missing field: the later "must differ from
      0" check never fires. */
  lemma ZeroQuantityIsMissing(m: map<BatchId, Batch>, req: CreateAdjustmentRequest, userId: string, now: int,
                              id: nat)
    requires req.quantity == Some(0.0)
    ensures PlanAdjustment(m, req, userId, now, id).Err?
    ensures PlanAdjustment(m, req, userId, now, id).error.BadRequest?
    ensures PlanAdjustment(m, req, userId, now, id).error.reason.MissingFields?
    ensures "quantity" in PlanAdjustment(m, req, userId, now, id).error.reason.fields
  {
    var body := AdjustmentBody(req);
    assert body["quantity"] == Validation.Num(0.0);
    Validation.ZeroIsMissing(body, AdjustmentRequired, "quantity");
  }

  /** The errors in their order: not found before the sign rule, the sign rule
      before the stock rule. */
  lemma PlanAdjustmentErrors(m: map<BatchId, Batch>, req: CreateAdjustmentRequest, userId: string, now: int,
                             id: nat)
    requires req.batchId.Some? && req.adjustmentType.Some? && req.quantity.Some? && req.quantity.value != 0.0
    requires req.reason.Some? && req.reason.value != ""
    ensures req.batchId.value !in m ==> PlanAdjustment(m, req, userId, now, id) == Err(NotFound(BatchEntity))
    ensures req.batchId.value in m && IsWaste(req.adjustmentType.value) && req.quantity.value > 0.0 ==>
      PlanAdjustment(m, req, userId, now, id) == Err(BadRequest(WasteMustBeNegative))
    ensures req.batchId.value in m && !(IsWaste(req.adjustmentType.value) && req.quantity.value > 0.0)
            && m[req.batchId.value].currentQuantity + req.quantity.value < 0.0 ==>
      PlanAdjustment(m, req, userId, now, id) == Err(BadRequest(AdjustmentBelowZero))
  {
    AdjustmentRequiredPass(req);
  }

  /** A positive manual correction is accepted whatever the batch's initial
      quantity: the current quantity may end above it. */
  lemma CorrectionNotCapped(m: map<BatchId, Batch>, id: BatchId, q: real, reason: string, userId: string,
                            now: int, adjId: nat)
    requires WellFormed(m) && id in m && q > 0.0 && reason != ""
    requires m[id].currentQuantity + q > m[id].initialQuantity
    ensures var r := PlanAdjustment(m, CreateAdjustmentRequest(Some(id), Some(ManualCorrection), Some(q), Some(reason)),
                                    userId, now, adjId);
      r.Ok? && r.value.1 > m[id].initialQuantity
  {
    var req := CreateAdjustmentRequest(Some(id), Some(ManualCorrection), Some(q), Some(reason));
    PlanAdjustmentOk(m, req, userId, now, adjId);
    PlanAdjustmentRecord(m, req, userId, now, adjId);
  }

  // ------------------------------------------------------------- getAll

  /** `InventoryAdjustmentFilters`; an absent filter does not filter. */
  datatype AdjustmentFilters = AdjustmentFilters(batchId: Option<BatchId>, productId: Option<string>,
                                                 adjustmentType: Option<AdjustmentType>,
                                                 start: DateInput, end: DateInput)

  predicate AdjustmentQueryMatch(a: Adjustment, f: AdjustmentFilters)
  {
    (f.batchId.Some? ==> a.batchId == f.batchId.value)
    && (f.productId.Some? && f.productId.value != "" ==> a.productId == f.productId.value)
    && (f.adjustmentType.Some? ==> a.adjustmentType == f.adjustmentType.value)
  }

  function CreatedKey(a: Adjustment): real { a.createdAt as real }

  /** The query (equality filters, newest first), then the date range. The
      records are taken in id order, the order of ties. */
  function AdjustmentListing(adjustments: seq<Adjustment>, f: AdjustmentFilters): seq<Adjustment>
  {
    var queried := Filter(adjustments, a => AdjustmentQueryMatch(a, f));
    Filter(Reverse(SortBy(queried, CreatedKey)), (a: Adjustment) => InDateRange(a.createdAt, f.start, f.end))
  }

  /** `getAll`: an unparseable start or end date is refused; otherwise one
      page of the listing. */
  function ListAdjustments(adjustments: seq<Adjustment>, f: AdjustmentFilters, page: Option<int>,
                           limit: Option<int>): (r: Result<Page<Adjustment>>)
    ensures f.start.Invalid? ==> r == Err(BadRequest(InvalidStartDate))
    ensures !f.start.Invalid? && f.end.Invalid? ==> r == Err(BadRequest(InvalidEndDate))
    ensures r.Ok? <==> !f.start.Invalid? && !f.end.Invalid?
    ensures r.Ok? ==>
      (r.value.meta.total == |AdjustmentListing(adjustments, f)|
       && 1 <= r.value.meta.limit <= 100 && r.value.meta.page >= 1 && |r.value.data| <= r.value.meta.limit)
    ensures r.Ok? ==>
      r.value.data == Pagination.PageSlice(AdjustmentListing(adjustments, f), r.value.meta.page, r.value.meta.limit)
    ensures r.Ok? ==> forall k :: 0 <= k < |r.value.data| ==>
      r.value.data[k] in adjustments && AdjustmentQueryMatch(r.value.data[k], f)
      && InDateRange(r.value.data[k].createdAt, f.start, f.end)
    ensures r.Ok? ==> forall i, j :: 0 <= i < j < |r.value.data| ==>
      r.value.data[i].createdAt >= r.value.data[j].createdAt
  {
    if f.start.Invalid? then Err(BadRequest(InvalidStartDate))
    else if f.end.Invalid? then Err(BadRequest(InvalidEndDate))
    else
      var (p, l) := Pagination.Normalize(page, limit);
      var all := AdjustmentListing(adjustments, f);
      AdjustmentPageProperties(adjustments, f, p, l);
      Ok(Page(Pagination.PageSlice(all, p, l), Pagination.Calculate(p, l, |all|)))
  }

  /** Every record on a page of the listing passes the filters, and the page
      is newest first. */
  lemma AdjustmentPageProperties(adjustments: seq<Adjustment>, f: AdjustmentFilters, page: int, limit: int)
    requires page >= 1 && limit >= 1
    ensures var data := Pagination.PageSlice(AdjustmentListing(adjustments, f), page, limit);
      (forall k :: 0 <= k < |data| ==>
         data[k] in adjustments && AdjustmentQueryMatch(data[k], f) && InDateRange(data[k].createdAt, f.start, f.end))
      && forall i, j :: 0 <= i < j < |data| ==> data[i].createdAt >= data[j].createdAt
  {
    var all := AdjustmentListing(adjustments, f);
    PageMembers(all, page, limit,
                a => a in adjustments && AdjustmentQueryMatch(a, f) && InDateRange(a.createdAt, f.start, f.end)) by {
      forall a | a in all
        ensures a in adjustments && AdjustmentQueryMatch(a, f) && InDateRange(a.createdAt, f.start, f.end)
      {
        AdjustmentListingMembers(adjustments, f, a);
      }
    }
    AdjustmentListingNewestFirst(adjustments, f);
    PageKeepsDescending(all, page, limit, CreatedKey);
  }

  /** The listing holds exactly the records that pass the filters, with both
      date bounds inclusive. */
  lemma AdjustmentListingMembers(adjustments: seq<Adjustment>, f: AdjustmentFilters, a: Adjustment)
    ensures a in AdjustmentListing(adjustments, f) <==>
      a in adjustments && AdjustmentQueryMatch(a, f)
      && !(f.start.Parsed? && a.createdAt < f.start.ms) && !(f.end.Parsed? && a.createdAt > f.end.ms)
  {
    var queried := Filter(adjustments, a => AdjustmentQueryMatch(a, f));
    var sorted := SortBy(queried, CreatedKey);
    var ordered := Reverse(sorted);
    FilterMembers(adjustments, a => AdjustmentQueryMatch(a, f), a);
    SortByMembers(queried, CreatedKey, a);
    assert a in ordered <==> a in sorted by {
      if a in sorted {
        var k :| 0 <= k < |sorted| && sorted[k] == a;
        assert ordered[|sorted| - 1 - k] == a;
      }
    }
    FilterMembers(ordered, (a: Adjustment) => InDateRange(a.createdAt, f.start, f.end), a);
  }

  /** The listing is ordered newest first. */
  lemma AdjustmentListingNewestFirst(adjustments: seq<Adjustment>, f: AdjustmentFilters)
    ensures forall i, j :: 0 <= i < j < |AdjustmentListing(adjustments, f)| ==>
      AdjustmentListing(adjustments, f)[i].createdAt >= AdjustmentListing(adjustments, f)[j].createdAt
  {
    var queried := Filter(adjustments, a => AdjustmentQueryMatch(a, f));
    var sorted := SortBy(queried, CreatedKey);
    SortByCorrect(queried, CreatedKey);
    ReverseDescending(sorted, CreatedKey);
    FilterKeepsDescending(Reverse(sorted), (a: Adjustment) => InDateRange(a.createdAt, f.start, f.end), CreatedKey);
  }

  // ----------------------------------------------------- getAdjustmentsSummary

  /** The filters of `getAdjustmentsSummary`; here an unparseable date is not
      refused, it simply filters nothing. */
  datatype SummaryFilters = SummaryFilters(productId: Option<string>, start: DateInput, end: DateInput)

  function SummarySelection(adjustments: seq<Adjustment>, f: SummaryFilters): seq<Adjustment>
  {
    Filter(adjustments, (a: Adjustment) => (f.productId.None? || f.productId.value == "" || a.productId == f.productId.value)
                                          && InDateRange(a.createdAt, f.start, f.end))
  }

  datatype TypeTotals = TypeTotals(count: nat, totalQuantity: real)

  datatype AdjustmentSummary = AdjustmentSummary(totalAdjustments: nat, wasteExpired: TypeTotals,
                                                 wasteDamaged: TypeTotals, manualCorrection: TypeTotals)

  /** How many of the adjustments are of one type, and their summed absolute
      quantity. */
  function ByType(adjustments: seq<Adjustment>, t: AdjustmentType): (r: TypeTotals)
    ensures r.count <= |adjustments| && r.totalQuantity >= 0.0
  {
    if adjustments == [] then TypeTotals(0, 0.0)
    else
      var prev := ByType(adjustments[..|adjustments| - 1], t);
      var last := adjustments[|adjustments| - 1];
      if last.adjustmentType == t then TypeTotals(prev.count + 1, prev.totalQuantity + Abs(last.quantity))
      else prev
  }

  /** Σ |quantity| over the adjustments. */
  function SumAbs(adjustments: seq<Adjustment>): real
  {
    if adjustments == [] then 0.0
    else SumAbs(adjustments[..|adjustments| - 1]) + Abs(adjustments[|adjustments| - 1].quantity)
  }

  function Summary(adjustments: seq<Adjustment>): AdjustmentSummary
  {
    AdjustmentSummary(|adjustments|, ByType(adjustments, WasteExpired), ByType(adjustments, WasteDamaged),
                      ByType(adjustments, ManualCorrection))
  }

  /** The three types split the adjustments: their counts add up to the
      total and their quantities to Σ |quantity|. */
  lemma {:induction false} SummaryPartitions(adjustments: seq<Adjustment>)
    ensures var s := Summary(adjustments);
      s.wasteExpired.count + s.wasteDamaged.count + s.manualCorrection.count == s.totalAdjustments
      && s.wasteExpired.totalQuantity + s.wasteDamaged.totalQuantity + s.manualCorrection.totalQuantity
         == SumAbs(adjustments)
  {
    if adjustments != [] {
      SummaryPartitions(adjustments[..|adjustments| - 1]);
    }
  }

  /** The `forEach` that starts all three types at zero and adds one count
      and the absolute quantity per adjustment. */
  method Summarize(adjustments: seq<Adjustment>) returns (s: AdjustmentSummary)
    ensures s == Summary(adjustments)
  {
    var expired, damaged, corrected := TypeTotals(0, 0.0), TypeTotals(0, 0.0), TypeTotals(0, 0.0);
    var i := 0;
    while i < |adjustments|
      invariant 0 <= i <= |adjustments|
      invariant expired == ByType(adjustments[..i], WasteExpired)
      invariant damaged == ByType(adjustments[..i], WasteDamaged)
      invariant corrected == ByType(adjustments[..i], ManualCorrection)
    {
      var a := adjustments[i];
      assert adjustments[..i + 1][..i] == adjustments[..i];
      match a.adjustmentType {
        case WasteExpired => expired := TypeTotals(expired.count + 1, expired.totalQuantity + Abs(a.quantity));
        case WasteDamaged => damaged := TypeTotals(damaged.count + 1, damaged.totalQuantity + Abs(a.quantity));
        case ManualCorrection =>
          corrected := TypeTotals(corrected.count + 1, corrected.totalQuantity + Abs(a.quantity));
      }
      i := i + 1;
    }
    assert adjustments[..i] == adjustments;
    s := AdjustmentSummary(|adjustments|, expired, damaged, corrected);
  }

  // ------------------------------------------------------------ the service

  /** Replacing one batch's current quantity by a non-negative one keeps
      the ledger well formed, with the same records. */
  lemma SetQuantityKeepsLedger(m: map<BatchId, Batch>, id: BatchId, q: real)
    requires WellFormed(m) && id in m && q >= 0.0
    ensures var after := m[id := m[id].(currentQuantity := q)];
      WellFormed(after) && after.Keys == m.Keys
  {
  }

  /** Appending the record numbered after the last keeps every record at
      its own index. */
  lemma AppendKeepsIds(records: seq<Adjustment>, a: Adjustment)
    requires forall i :: 0 <= i < |records| ==> records[i].id == i
    requires a.id == |records|
    ensures forall i :: 0 <= i < |records + [a]| ==> (records + [a])[i].id == i
  {
  }

  /** The adjustments collection; the i-th recorded adjustment has id i. */
  class AdjustmentService {
    var adjustments: seq<Adjustment>

    ghost predicate Valid()
      reads this
    {
      forall i :: 0 <= i < |adjustments| ==> adjustments[i].id == i
    }

    constructor ()
      ensures Valid() && adjustments == []
    {
      adjustments := [];
    }

    /** `create`: on success the record is appended and the batch's current
        quantity replaced, both at once; on any error neither changes. */
    method Create(ledger: Ledger, req: CreateAdjustmentRequest, userId: string, now: int)
      returns (r: Result<Adjustment>)
      requires Valid() && ledger.Valid()
      modifies this, ledger
      ensures Valid() && ledger.Valid() && ledger.nextId == old(ledger.nextId)
      ensures var plan := PlanAdjustment(old(ledger.batches), req, userId, now, old(|adjustments|));
        (plan.Err? ==> r == Err(plan.error) && ledger.batches == old(ledger.batches) && adjustments == old(adjustments))
        && (plan.Ok? ==>
              r == Ok(plan.value.0) && adjustments == old(adjustments) + [plan.value.0]
              && ledger.batches == old(ledger.batches)[plan.value.0.batchId :=
                   old(ledger.batches)[plan.value.0.batchId].(currentQuantity := plan.value.1)])
    {
      var plan := PlanAdjustment(ledger.batches, req, userId, now, |adjustments|);
      if plan.Err? {
        return Err(plan.error);
      }
      PlanAdjustmentBounds(ledger.batches, req, userId, now, |adjustments|);
      var (adj, newQuantity) := plan.value;
      SetQuantityKeepsLedger(ledger.batches, adj.batchId, newQuantity);
      ledger.batches := ledger.batches[adj.batchId := ledger.batches[adj.batchId].(currentQuantity := newQuantity)];
      AppendKeepsIds(adjustments, adj);
      adjustments := adjustments + [adj];
      r := Ok(adj);
    }

    /** `getAdjustmentsSummary` over the selected adjustments. */
    method GetSummary(f: SummaryFilters) returns (s: AdjustmentSummary)
      ensures s == Summary(SummarySelection(adjustments, f))
    {
      s := Summarize(SummarySelection(adjustments, f));
    }
  }
}
