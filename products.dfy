/** Products and suppliers as the inventory services read them, and the
    pricing rules of back/src/utils/product-validation.util.ts. */
module Products {
  import opened Common

  /** product.model.ts: how a product is sold. The service stores whatever
      non-empty string it is given, so any other value is `Unnamed(text)`. */
  datatype SaleType = ByWeight | ByPiece | ByWeightOrPiece | Unnamed(text: string)

  /** The product fields the inventory services consult. A missing
      `min_sale_quantity` is `None`. */
  datatype Product = Product(id: string, name: string, saleType: SaleType,
                             minSaleQuantity: Option<real>, isActive: bool)

  datatype Supplier = Supplier(id: string, name: string)

  /** A document lookup by id: the first product with that id, if any. */
  function FindProduct(products: seq<Product>, id: string): (r: Option<Product>)
    ensures r.Some? ==> r.value in products && r.value.id == id
    ensures r.None? <==> forall p :: p in products ==> p.id != id
  {
    if products == [] then None
    else if products[0].id == id then Some(products[0])
    else FindProduct(products[1..], id)
  }

  function FindSupplier(suppliers: seq<Supplier>, id: string): (r: Option<Supplier>)
    ensures r.Some? ==> r.value in suppliers && r.value.id == id
    ensures r.None? <==> forall s :: s in suppliers ==> s.id != id
  {
    if suppliers == [] then None
    else if suppliers[0].id == id then Some(suppliers[0])
    else FindSupplier(suppliers[1..], id)
  }

  /** `if (price)`: an optional price is truthy when present and non-zero. */
  predicate Given(price: Option<real>)
  {
    price.Some? && price.value != 0.0
  }

  predicate Positive(price: Option<real>)
  {
    price.Some? && price.value > 0.0
  }

  /** `validateProductPricing`. `calculateByWeight` is `None` when the flag
      is undefined, in which case neither of its two rules applies. A sale
      type none of the three rules names is not checked at all. */
  function ValidateProductPricing(saleType: SaleType, pricePerKg: Option<real>,
                                  pricePerPiece: Option<real>, calculateByWeight: Option<bool>): (r: Outcome)
    ensures r.Fail? ==> r.error.BadRequest?
    ensures saleType == ByWeight ==>
      (r == Pass <==> Positive(pricePerKg) && !Given(pricePerPiece))
    ensures saleType == ByPiece ==>
      (r == Pass <==> Positive(pricePerPiece) && !Given(pricePerKg))
    ensures saleType == ByWeightOrPiece ==>
      (r == Pass <==> Positive(pricePerKg)
                      && (calculateByWeight == Some(false) ==> Positive(pricePerPiece))
                      && (calculateByWeight == Some(true) ==> !Given(pricePerPiece)))
    ensures saleType.Unnamed? ==> r == Pass
    ensures !Positive(pricePerKg) && (saleType == ByWeight || saleType == ByWeightOrPiece) ==>
      r == Fail(BadRequest(PricePerKgRequired))
  {
    match saleType
    case ByWeight =>
      if !Positive(pricePerKg) then Fail(BadRequest(PricePerKgRequired))
      else if Given(pricePerPiece) then Fail(BadRequest(PricePerPieceForbidden))
      else Pass
    case ByPiece =>
      if !Positive(pricePerPiece) then Fail(BadRequest(PricePerPieceRequired))
      else if Given(pricePerKg) then Fail(BadRequest(PricePerKgForbidden))
      else Pass
    case ByWeightOrPiece =>
      if !Positive(pricePerKg) then Fail(BadRequest(PricePerKgRequired))
      else if calculateByWeight == Some(false) && !Positive(pricePerPiece) then Fail(BadRequest(PricePerPieceRequired))
      else if calculateByWeight == Some(true) && Given(pricePerPiece) then Fail(BadRequest(PricePerPieceForbidden))
      else Pass
    case Unnamed(_) =>
      Pass
  }

  /** A value of the price record: `undefined`, something that is not a
      usable number (NaN, null, a string), or a number. */
  datatype PriceInput = Undefined | NotANumber | Number(x: real)

  predicate AcceptablePrice(v: PriceInput)
  {
    v.Undefined? || (v.Number? && v.x >= 0.0)
  }

  /** `validatePriceValues` over the record's entries in order: the first
      defined entry that is not a number at or above zero is reported. */
  function ValidatePriceValues(prices: seq<(string, PriceInput)>): (r: Outcome)
    ensures r == Pass <==> forall k :: 0 <= k < |prices| ==> AcceptablePrice(prices[k].1)
    ensures r.Fail? ==>
      exists k :: (0 <= k < |prices| && !AcceptablePrice(prices[k].1)
                   && r == Fail(BadRequest(InvalidPriceValue(prices[k].0)))
                   && forall m :: 0 <= m < k ==> AcceptablePrice(prices[m].1))
  {
    if prices == [] then Pass
    else if !AcceptablePrice(prices[0].1) then Fail(BadRequest(InvalidPriceValue(prices[0].0)))
    else
      var rest := ValidatePriceValues(prices[1..]);
      if rest.Fail? then
        var k :| 0 <= k < |prices[1..]| && !AcceptablePrice(prices[1..][k].1)
          && rest == Fail(BadRequest(InvalidPriceValue(prices[1..][k].0)))
          && forall m :: 0 <= m < k ==> AcceptablePrice(prices[1..][m].1);
        assert prices[k + 1] == prices[1..][k];
        assert forall m :: 1 <= m < k + 1 ==> prices[m] == prices[1..][m - 1];
        rest
      else
        assert forall k :: 1 <= k < |prices| ==> prices[k] == prices[1..][k - 1];
        rest
  }
}
