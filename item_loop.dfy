/** The loop the services share for the lines of a request (sale items,
    purchase items, return lines): check each line in order, stop at the first
    one that fails, otherwise keep the processed lines and a running sum of
    their amounts. */
module ItemLoop {
  import opened Common

  /** The `reduce` of the amounts, left to right. */
  function Sum<B>(amount: B -> real, s: seq<B>): real
  {
    if s == [] then 0.0 else Sum(amount, s[..|s| - 1]) + amount(s[|s| - 1])
  }

  /** Two lists with the same amounts, line by line, have the same sum. */
  lemma {:induction false} SumSame<B>(amount: B -> real, a: seq<B>, b: seq<B>)
    requires |a| == |b| && forall k :: 0 <= k < |a| ==> amount(a[k]) == amount(b[k])
    ensures Sum(amount, a) == Sum(amount, b)
  {
    if a != [] {
      SumSame(amount, a[..|a| - 1], b[..|b| - 1]);
    }
  }

  /** The loop as a function of the per-line check. */
  function Walk<A, B>(check: A -> Result<B>, amount: B -> real, items: seq<A>): (r: Result<(seq<B>, real)>)
    ensures r.Ok? ==> |r.value.0| == |items|
  {
    if items == [] then Ok(([], 0.0))
    else
      var prev := Walk(check, amount, items[..|items| - 1]);
      var c := check(items[|items| - 1]);
      if prev.Err? then prev
      else if c.Err? then Err(c.error)
      else Ok((prev.value.0 + [c.value], prev.value.1 + amount(c.value)))
  }

  /** The loop succeeds exactly when every line passes its check. */
  lemma {:induction false} WalkOk<A, B>(check: A -> Result<B>, amount: B -> real, items: seq<A>)
    ensures Walk(check, amount, items).Ok? <==> forall k :: 0 <= k < |items| ==> check(items[k]).Ok?
  {
    if items != [] {
      var init := items[..|items| - 1];
      WalkOk(check, amount, init);
      assert forall k :: 0 <= k < |init| ==> init[k] == items[k];
    }
  }

  /** On success the loop holds each checked line, in order, and the sum of
      their amounts. */
  lemma {:induction false} WalkContents<A, B>(check: A -> Result<B>, amount: B -> real, items: seq<A>)
    requires Walk(check, amount, items).Ok?
    ensures var r := Walk(check, amount, items).value;
      r.1 == Sum(amount, r.0) && forall k :: 0 <= k < |items| ==> check(items[k]) == Ok(r.0[k])
  {
    if items != [] {
      var init := items[..|items| - 1];
      WalkContents(check, amount, init);
      assert forall k :: 0 <= k < |init| ==> init[k] == items[k];
      var r := Walk(check, amount, items).value;
      assert r.0[..|r.0| - 1] == Walk(check, amount, init).value.0;
    }
  }

  /** The error reported is that of the first line that fails. */
  lemma {:induction false} WalkFirstError<A, B>(check: A -> Result<B>, amount: B -> real, items: seq<A>, i: nat)
    requires i < |items| && check(items[i]).Err?
    requires forall k :: 0 <= k < i ==> check(items[k]).Ok?
    ensures Walk(check, amount, items) == Err(check(items[i]).error)
  {
    var init := items[..|items| - 1];
    assert forall k :: 0 <= k < |init| ==> init[k] == items[k];
    if i < |items| - 1 {
      WalkFirstError(check, amount, init, i);
    } else {
      WalkOk(check, amount, init);
    }
  }

  /** If the first `i` lines already fail, the whole loop fails the same way. */
  lemma {:induction false} WalkErrSticky<A, B>(check: A -> Result<B>, amount: B -> real, items: seq<A>, i: nat)
    requires i <= |items| && Walk(check, amount, items[..i]).Err?
    ensures Walk(check, amount, items) == Walk(check, amount, items[..i])
    decreases |items|
  {
    if i < |items| {
      var init := items[..|items| - 1];
      assert init[..i] == items[..i];
      WalkErrSticky(check, amount, init, i);
    } else {
      assert items[..i] == items;
    }
  }

  /** The loop as the services run it: push each processed line, add its
      amount, return at the first error. */
  method Prepare<A, B>(check: A -> Result<B>, amount: B -> real, items: seq<A>) returns (r: Result<(seq<B>, real)>)
    ensures r == Walk(check, amount, items)
  {
    var processed: seq<B> := [];
    var total := 0.0;
    var i := 0;
    while i < |items|
      invariant 0 <= i <= |items|
      invariant Walk(check, amount, items[..i]) == Ok((processed, total))
    {
      var c := check(items[i]);
      ghost var next := items[..i + 1];
      assert next[..|next| - 1] == items[..i] && next[|next| - 1] == items[i];
      if c.Err? {
        assert Walk(check, amount, next) == Err(c.error);
        WalkErrSticky(check, amount, items, i + 1);
        return Err(c.error);
      }
      processed := processed + [c.value];
      total := total + amount(c.value);
      i := i + 1;
    }
    assert items[..i] == items;
    r := Ok((processed, total));
  }
}
