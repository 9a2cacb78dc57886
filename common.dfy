/** Values and helpers shared by every service: optional values, the error
    taxonomy of errors.util.ts, parsed dates, JavaScript whitespace and trim,
    and the integer arithmetic behind `Math.ceil` on day differences. */
module Common {

  datatype Option<T> = None | Some(value: T)

  /** The entity a NotFoundError names. */
  datatype Entity = ProductEntity | SupplierEntity | BatchEntity | PurchaseEntity

  /** Why a BadRequestError was raised; one constructor per distinct check. */
  datatype Reason =
    | MissingFields(fields: seq<string>)
    | NoItems
    | MixedWithoutBreakdown
    | BreakdownNotPositive
    | NegativeCash
    | NegativeCard
    | NegativeTransfer
    | NonPositiveQuantity
    | NegativePrice
    | ProductInactive
    | NoStock
    | NoValidStock
    | InsufficientStock
    | DiscountExceedsSubtotal
    | BreakdownMismatch
    | IncompleteConsumption
    | InvalidEntryDate
    | InvalidExpirationDate
    | ExpirationInPast
    | InvalidPurchaseDate
    | InvalidReturnDate
    | InvalidStartDate
    | InvalidEndDate
    | NegativeQuantity
    | ZeroQuantity
    | WasteMustBeNegative
    | AdjustmentBelowZero
    | NotPending
    | BatchNotInPurchase
    | ReturnExceedsStock
    | PricePerKgRequired
    | PricePerPieceForbidden
    | PricePerPieceRequired
    | PricePerKgForbidden
    | InvalidPriceValue(key: string)
    | InvalidEmail
    | PasswordTooShort

  datatype Error = NotFound(entity: Entity) | BadRequest(reason: Reason)

  datatype Result<T> = Ok(value: T) | Err(error: Error)

  /** A check that either passes or raises. */
  datatype Outcome = Pass | Fail(error: Error)

  /** A date string from a request: absent (or empty), unparseable
      (`isNaN(new Date(s).getTime())`), or parsed to epoch milliseconds. */
  datatype DateInput = Absent | Invalid | Parsed(ms: int)

  /** 1000 * 60 * 60 * 24 */
  const MsPerDay: int := 86400000

  function Abs(x: real): (r: real)
    ensures r >= 0.0 && (r == x || r == -x)
  {
    if x < 0.0 then -x else x
  }

  function Min(a: real, b: real): (r: real)
    ensures r <= a && r <= b && (r == a || r == b)
  {
    if a <= b then a else b
  }

  /** `Math.ceil(a / b)` for integers, b > 0. */
  function CeilDiv(a: int, b: int): (r: int)
    requires b > 0
    ensures b * (r - 1) < a <= b * r
  {
    var q := a / b;
    assert a == b * q + a % b;
    if a % b == 0 then q else q + 1
  }

  /** Days from `now` to `at`, rounded up: `Math.ceil((at - now) / MsPerDay)`. */
  function DaysUntil(at: int, now: int): (d: int)
    ensures MsPerDay * (d - 1) < at - now <= MsPerDay * d
  {
    CeilDiv(at - now, MsPerDay)
  }

  /** The characters JavaScript's `\s` and `String.prototype.trim` treat as white space. */
  predicate IsSpace(c: char)
  {
    c == ' ' || c == '\t' || c == '\n' || c == '\r' || c == '\U{000B}' || c == '\U{000C}'
    || c == '\U{00A0}' || c == '\U{1680}' || ('\U{2000}' <= c <= '\U{200A}')
    || c == '\U{2028}' || c == '\U{2029}' || c == '\U{202F}' || c == '\U{205F}'
    || c == '\U{3000}' || c == '\U{FEFF}'
  }

  function TrimStart(s: string): (r: string)
    ensures |r| <= |s| && r == s[|s| - |r|..]
    ensures r == [] || !IsSpace(r[0])
    ensures forall k :: 0 <= k < |s| - |r| ==> IsSpace(s[k])
  {
    if s != [] && IsSpace(s[0]) then TrimStart(s[1..]) else s
  }

  function TrimEnd(s: string): (r: string)
    ensures |r| <= |s| && r == s[..|r|]
    ensures r == [] || !IsSpace(r[|r| - 1])
    ensures forall k :: |r| <= k < |s| ==> IsSpace(s[k])
  {
    if s != [] && IsSpace(s[|s| - 1]) then TrimEnd(s[..|s| - 1]) else s
  }

  /** A character outside the Basic Multilingual Plane is two UTF-16 code units. */
  function Utf16Units(c: char): nat { if c as int > 0xFFFF then 2 else 1 }

  /** JavaScript's `string.length`: the number of UTF-16 code units. */
  function Utf16Length(s: string): (n: nat)
    ensures |s| <= n <= 2 * |s|
    ensures (forall k :: 0 <= k < |s| ==> s[k] as int <= 0xFFFF) ==> n == |s|
  {
    if s == [] then 0 else Utf16Units(s[0]) + Utf16Length(s[1..])
  }

  /** `r` is `s` with white space only cut off: `i` characters before it,
      the rest after it. */
  predicate CutAt(s: string, r: string, i: int)
  {
    0 <= i <= |s| - |r| && r == s[i..i + |r|]
    && (forall k :: 0 <= k < i ==> IsSpace(s[k]))
    && (forall k :: i + |r| <= k < |s| ==> IsSpace(s[k]))
  }

  /** `String.prototype.trim`: the infix left after removing white space at both ends. */
  function Trim(s: string): (r: string)
    ensures |r| <= |s|
    ensures exists i :: CutAt(s, r, i)
    ensures r == [] || (!IsSpace(r[0]) && !IsSpace(r[|r| - 1]))
  {
    TrimCut(s);
    TrimEnd(TrimStart(s))
  }

  /** Trimming both ends cuts white space only: what `TrimStart` skipped
      before, what `TrimEnd` dropped after. */
  lemma TrimCut(s: string)
    ensures CutAt(s, TrimEnd(TrimStart(s)), |s| - |TrimStart(s)|)
  {
    var a := TrimStart(s);
    var r := TrimEnd(a);
    var i := |s| - |a|;
    assert a == s[i..];
    assert r == a[..|r|];
    InfixOfSuffix(s, i, |r|);
    SpaceAfterInfix(s, a, i, |r|);
  }

  lemma InfixOfSuffix(s: string, i: nat, n: nat)
    requires i + n <= |s|
    ensures s[i..][..n] == s[i..i + n]
  {
  }

  lemma SpaceAfterInfix(s: string, a: string, i: nat, n: nat)
    requires i + n <= |s| && a == s[i..]
    requires forall k :: n <= k < |a| ==> IsSpace(a[k])
    ensures forall k :: i + n <= k < |s| ==> IsSpace(s[k])
  {
    forall k | i + n <= k < |s|
      ensures IsSpace(s[k])
    {
      assert s[k] == a[k - i];
    }
  }


  /** The in-memory date-range filter the services apply to a timestamp:
      a parsed start excludes earlier times, a parsed end excludes later ones;
      an unparseable bound compares false with everything and so filters nothing. */
  predicate InDateRange(t: int, start: DateInput, end: DateInput)
  {
    !(start.Parsed? && t < start.ms) && !(end.Parsed? && t > end.ms)
  }
}
