/** The first-in first-out walk a sale makes over a product's batches
    (back/src/services/sale.service.ts, the transaction of `create`): the
    batches in stock, oldest entry first; from each non-expired one it takes
    as much as is still needed. */
module Allocation {
  import opened Common
  import opened Sorting
  import opened InventoryBatches

  /** One step of the walk: the batch as read, and the quantity taken from it. */
  datatype Draw = Draw(batch: Batch, used: real)

  /** A batch whose expiration date is not after `now` may not be sold. */
  predicate Expired(b: Batch, now: int)
  {
    b.expirationDate.Some? && b.expirationDate.value <= now
  }

  /** The query of both the pre-check and the transaction: the product's
      batches in stock, by ascending entry date (ties by document id). */
  function FifoCandidates(m: map<BatchId, Batch>, productId: string): seq<Batch>
  {
    SortBy(StockedBatches(m, productId), EntryKey)
  }

  function Sellable(cands: seq<Batch>, now: int): seq<Batch>
  {
    Filter(cands, (b: Batch) => !Expired(b, now))
  }

  /** The stock the pre-check counts: the batches that are not expired. */
  function Available(cands: seq<Batch>, now: int): real
  {
    SumCurrent(Sellable(cands, now))
  }

  function SumUsed(draws: seq<Draw>): real
  {
    if draws == [] then 0.0 else draws[0].used + SumUsed(draws[1..])
  }

  /** The walk with the expiry test evaluated against the real time `now`:
      stop once nothing remains, skip expired batches, otherwise take
      `min(remaining, current_quantity)`. Returns the draws and what remains. */
  function Allocate(cands: seq<Batch>, remaining: real, now: int): (r: (seq<Draw>, real))
    ensures |r.0| <= |cands|
  {
    if cands == [] || remaining <= 0.0 then ([], remaining)
    else if Expired(cands[0], now) then Allocate(cands[1..], remaining, now)
    else
      var use := Min(remaining, cands[0].currentQuantity);
      var rest := Allocate(cands[1..], remaining - use, now);
      ([Draw(cands[0], use)] + rest.0, rest.1)
  }

  /** The walk as the source runs it: its `now` is the server-timestamp
      placeholder, a comparison with it is never true, so no batch is skipped. */
  function AllocateAsWritten(cands: seq<Batch>, remaining: real): (r: (seq<Draw>, real))
    ensures |r.0| <= |cands|
  {
    if cands == [] || remaining <= 0.0 then ([], remaining)
    else
      var use := Min(remaining, cands[0].currentQuantity);
      var rest := AllocateAsWritten(cands[1..], remaining - use);
      ([Draw(cands[0], use)] + rest.0, rest.1)
  }

  /** What is taken plus what remains is what was asked for. */
  lemma {:induction false} AllocateConserves(cands: seq<Batch>, remaining: real, now: int)
    ensures SumUsed(Allocate(cands, remaining, now).0) + Allocate(cands, remaining, now).1 == remaining
  {
    if cands != [] && remaining > 0.0 {
      if Expired(cands[0], now) {
        AllocateConserves(cands[1..], remaining, now);
      } else {
        var use := Min(remaining, cands[0].currentQuantity);
        AllocateConserves(cands[1..], remaining - use, now);
        var r := Allocate(cands, remaining, now);
        assert r.0[1..] == Allocate(cands[1..], remaining - use, now).0;
      }
    }
  }

  /** Something remains exactly when the sellable stock falls short, and
      then it is the shortfall. */
  lemma {:induction false} AllocateRemaining(cands: seq<Batch>, remaining: real, now: int)
    requires remaining > 0.0
    requires forall k :: 0 <= k < |cands| ==> cands[k].currentQuantity >= 0.0
    ensures Allocate(cands, remaining, now).1
            == if Available(cands, now) >= remaining then 0.0 else remaining - Available(cands, now)
  {
    if cands != [] {
      var tail := cands[1..];
      assert Sellable(cands, now) == if Expired(cands[0], now) then Sellable(tail, now)
                                     else [cands[0]] + Sellable(tail, now);
      if Expired(cands[0], now) {
        AllocateRemaining(tail, remaining, now);
      } else {
        var use := Min(remaining, cands[0].currentQuantity);
        AvailableNonNegative(tail, now);
        if use < remaining {
          AllocateRemaining(tail, remaining - use, now);
        }
      }
    }
  }

  lemma {:induction false} AvailableNonNegative(cands: seq<Batch>, now: int)
    requires forall k :: 0 <= k < |cands| ==> cands[k].currentQuantity >= 0.0
    ensures Available(cands, now) >= 0.0
  {
    if cands != [] {
      AvailableNonNegative(cands[1..], now);
      assert Sellable(cands, now) == if Expired(cands[0], now) then Sellable(cands[1..], now)
                                     else [cands[0]] + Sellable(cands[1..], now);
    }
  }

  /** First in, first out: the walk draws from the sellable batches in order,
      each draw takes a positive quantity no larger than the batch holds, and
      every batch before the last one drawn is emptied. */
  lemma {:induction false} AllocateFifo(cands: seq<Batch>, remaining: real, now: int)
    requires forall k :: 0 <= k < |cands| ==> cands[k].currentQuantity > 0.0
    ensures var draws := Allocate(cands, remaining, now).0;
      var valid := Sellable(cands, now);
      |draws| <= |valid|
      && (forall k :: 0 <= k < |draws| ==> draws[k].batch == valid[k])
      && (forall k :: 0 <= k < |draws| ==> 0.0 < draws[k].used <= draws[k].batch.currentQuantity)
      && (forall k :: 0 <= k < |draws| - 1 ==> draws[k].used == draws[k].batch.currentQuantity)
  {
    if cands != [] && remaining > 0.0 {
      var tail := cands[1..];
      assert Sellable(cands, now) == if Expired(cands[0], now) then Sellable(tail, now)
                                     else [cands[0]] + Sellable(tail, now);
      if Expired(cands[0], now) {
        AllocateFifo(tail, remaining, now);
      } else {
        var use := Min(remaining, cands[0].currentQuantity);
        AllocateFifo(tail, remaining - use, now);
        var rest := Allocate(tail, remaining - use, now).0;
        assert use < cands[0].currentQuantity ==> rest == [];
      }
    }
  }

  /** The model's draws are all from sellable batches. */
  lemma AllocateSkipsExpired(cands: seq<Batch>, remaining: real, now: int)
    requires forall k :: 0 <= k < |cands| ==> cands[k].currentQuantity > 0.0
    ensures forall k :: 0 <= k < |Allocate(cands, remaining, now).0| ==>
      !Expired(Allocate(cands, remaining, now).0[k].batch, now)
  {
    AllocateFifo(cands, remaining, now);
    var draws := Allocate(cands, remaining, now).0;
    forall k | 0 <= k < |draws| ensures !Expired(draws[k].batch, now) {
      assert draws[k].batch in Sellable(cands, now);
    }
  }

  /** The source's walk takes the older, expired batch although a sellable
      one holds enough: five units of an expired batch entered first, five of
      a sound one entered second, five sold. */
  lemma AsWrittenSellsExpired()
    ensures var expired := Batch(0, "p", "s", None, 5.0, 5.0, 1.0, 1, Some(5), None, "u");
      var sound := Batch(1, "p", "s", None, 5.0, 5.0, 1.0, 2, None, None, "u");
      var now := 10;
      Expired(expired, now)
      && AllocateAsWritten([expired, sound], 5.0) == ([Draw(expired, 5.0)], 0.0)
      && Allocate([expired, sound], 5.0, now) == ([Draw(sound, 5.0)], 0.0)
  {
    var expired := Batch(0, "p", "s", None, 5.0, 5.0, 1.0, 1, Some(5), None, "u");
    var sound := Batch(1, "p", "s", None, 5.0, 5.0, 1.0, 2, None, None, "u");
    var now := 10;
    assert [expired, sound][1..] == [sound];
    assert [sound][1..] == [];
    assert AllocateAsWritten([sound], 0.0) == ([], 0.0);
    assert AllocateAsWritten([expired, sound], 5.0) == ([Draw(expired, 5.0)] + [], 0.0);
    assert Allocate([], 0.0, now) == ([], 0.0);
    assert Allocate([sound], 5.0, now) == ([Draw(sound, 5.0)] + [], 0.0);
    assert Allocate([expired, sound], 5.0, now) == Allocate([sound], 5.0, now);
    assert [Draw(expired, 5.0)] + [] == [Draw(expired, 5.0)];
    assert [Draw(sound, 5.0)] + [] == [Draw(sound, 5.0)];
  }
}
