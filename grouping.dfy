/** The per-product grouping the reports build in a JavaScript `Map`
    (back/src/services/report.service.ts): entries keep the order in which
    their product first appears, and each new line adds to its product's
    running totals. */
module Grouping {
  import opened Common

  /** One line counted towards a product: a sale item or a waste adjustment. */
  datatype Contribution = Contribution(productId: string, name: string, quantity: real, amount: real)

  /** A product's entry: the name it was first seen with, and its totals. */
  datatype Group = Group(productId: string, name: string, quantity: real, amount: real, count: nat)

  /** `map.get(id)`: the position of the product's entry, or -1. */
  function IndexOf(gs: seq<Group>, id: string): (r: int)
    ensures -1 <= r < |gs|
    ensures r >= 0 ==> gs[r].productId == id && forall k :: 0 <= k < r ==> gs[k].productId != id
    ensures r < 0 ==> forall k :: 0 <= k < |gs| ==> gs[k].productId != id
  {
    if gs == [] then -1
    else if gs[0].productId == id then 0
    else
      var i := IndexOf(gs[1..], id);
      if i < 0 then -1 else i + 1
  }

  function Lookup(gs: seq<Group>, id: string): Option<Group>
  {
    var i := IndexOf(gs, id);
    if i < 0 then None else Some(gs[i])
  }

  /** One line added: a new entry at the end, or the product's entry updated
      where it stands. */
  function Add(gs: seq<Group>, c: Contribution): seq<Group>
  {
    var i := IndexOf(gs, c.productId);
    if i < 0 then gs + [Group(c.productId, c.name, c.quantity, c.amount, 1)]
    else gs[i := gs[i].(quantity := gs[i].quantity + c.quantity, amount := gs[i].amount + c.amount,
                        count := gs[i].count + 1)]
  }

  /** All lines added in order. */
  function GroupAll(cs: seq<Contribution>): seq<Group>
  {
    if cs == [] then [] else Add(GroupAll(cs[..|cs| - 1]), cs[|cs| - 1])
  }

  // ---------------------------------------------- per-product references

  function CountOf(cs: seq<Contribution>, id: string): nat
  {
    if cs == [] then 0
    else CountOf(cs[..|cs| - 1], id) + (if cs[|cs| - 1].productId == id then 1 else 0)
  }

  function QuantityOf(cs: seq<Contribution>, id: string): real
  {
    if cs == [] then 0.0
    else QuantityOf(cs[..|cs| - 1], id) + (if cs[|cs| - 1].productId == id then cs[|cs| - 1].quantity else 0.0)
  }

  function AmountOf(cs: seq<Contribution>, id: string): real
  {
    if cs == [] then 0.0
    else AmountOf(cs[..|cs| - 1], id) + (if cs[|cs| - 1].productId == id then cs[|cs| - 1].amount else 0.0)
  }

  /** The name carried by the product's first line. */
  function FirstName(cs: seq<Contribution>, id: string): string
  {
    if cs == [] then ""
    else if CountOf(cs[..|cs| - 1], id) > 0 then FirstName(cs[..|cs| - 1], id)
    else cs[|cs| - 1].name
  }

  /** What a product's entry should be after the lines `cs`, computed line by
      line on its own. */
  function Expected(cs: seq<Contribution>, id: string): Option<Group>
  {
    if CountOf(cs, id) == 0 then None
    else Some(Group(id, FirstName(cs, id), QuantityOf(cs, id), AmountOf(cs, id), CountOf(cs, id)))
  }

  ghost predicate Distinct(gs: seq<Group>)
  {
    forall i, j :: 0 <= i < j < |gs| ==> gs[i].productId != gs[j].productId
  }

  // ------------------------------------------------------------ lemmas

  /** Adding a line changes only the entry of its own product. */
  lemma AddLookup(gs: seq<Group>, c: Contribution, id: string)
    ensures Lookup(Add(gs, c), id) ==
      if id != c.productId then Lookup(gs, id)
      else if Lookup(gs, id).None? then Some(Group(id, c.name, c.quantity, c.amount, 1))
      else Some(Lookup(gs, id).value.(quantity := Lookup(gs, id).value.quantity + c.quantity,
                                       amount := Lookup(gs, id).value.amount + c.amount,
                                       count := Lookup(gs, id).value.count + 1))
  {
    var i := IndexOf(gs, c.productId);
    var r := Add(gs, c);
    var j := IndexOf(r, id);
    if i < 0 {
      assert forall k :: 0 <= k < |gs| ==> r[k] == gs[k];
      if id == c.productId {
        assert r[|gs|].productId == id;
      }
    } else {
      assert forall k :: 0 <= k < |gs| && k != i ==> r[k] == gs[k];
      assert r[i].productId == gs[i].productId;
      assert forall k :: 0 <= k < |gs| ==> r[k].productId == gs[k].productId;
      assert j == IndexOf(gs, id) by {
        IndexOfSameKeys(gs, r, id);
      }
    }
  }

  /** Two lists with the same product ids, position by position, find a
      product at the same position. */
  lemma IndexOfSameKeys(a: seq<Group>, b: seq<Group>, id: string)
    requires |a| == |b| && forall k :: 0 <= k < |a| ==> a[k].productId == b[k].productId
    ensures IndexOf(a, id) == IndexOf(b, id)
  {
  }

  /** Each product has one entry. */
  lemma {:induction false} GroupAllDistinct(cs: seq<Contribution>)
    ensures Distinct(GroupAll(cs))
  {
    if cs != [] {
      var gs := GroupAll(cs[..|cs| - 1]);
      GroupAllDistinct(cs[..|cs| - 1]);
      var c := cs[|cs| - 1];
      var i := IndexOf(gs, c.productId);
      var r := Add(gs, c);
      if i >= 0 {
        assert forall k :: 0 <= k < |gs| ==> r[k].productId == gs[k].productId;
      }
    }
  }

  /** After any lines, every product's entry is the one computed for it on
      its own: absent when it has no line, otherwise the name of its first
      line, the sums of its quantities and amounts and its number of lines. */
  lemma {:induction false} GroupAllSpec(cs: seq<Contribution>, id: string)
    ensures Lookup(GroupAll(cs), id) == Expected(cs, id)
  {
    if cs != [] {
      var init := cs[..|cs| - 1];
      var c := cs[|cs| - 1];
      GroupAllSpec(init, id);
      AddLookup(GroupAll(init), c, id);
      assert CountOf(cs, id) == CountOf(init, id) + (if c.productId == id then 1 else 0);
      assert QuantityOf(cs, id) == QuantityOf(init, id) + (if c.productId == id then c.quantity else 0.0);
      assert AmountOf(cs, id) == AmountOf(init, id) + (if c.productId == id then c.amount else 0.0);
      assert FirstName(cs, id) == if CountOf(init, id) > 0 then FirstName(init, id) else c.name;
      assert GroupAll(cs) == Add(GroupAll(init), c);
      if c.productId != id {
        assert Expected(cs, id) == Expected(init, id);
      } else if CountOf(init, id) == 0 {
        NoLinesNoTotals(init, id);
      }
    }
  }

  /** A product without lines has nothing summed for it. */
  lemma {:induction false} NoLinesNoTotals(cs: seq<Contribution>, id: string)
    requires CountOf(cs, id) == 0
    ensures QuantityOf(cs, id) == 0.0 && AmountOf(cs, id) == 0.0
  {
    if cs != [] {
      NoLinesNoTotals(cs[..|cs| - 1], id);
    }
  }

  /** Every entry is found under its own product id, so it is that product's
      expected entry. */
  lemma GroupAllEntries(cs: seq<Contribution>)
    ensures forall g :: g in GroupAll(cs) ==> Expected(cs, g.productId) == Some(g)
  {
    var gs := GroupAll(cs);
    GroupAllDistinct(cs);
    forall g | g in gs ensures Expected(cs, g.productId) == Some(g) {
      var k :| 0 <= k < |gs| && gs[k] == g;
      var i := IndexOf(gs, g.productId);
      assert i == k;
      GroupAllSpec(cs, g.productId);
    }
  }

  /** A product has an entry exactly when it has a line. */
  lemma GroupAllKeys(cs: seq<Contribution>, id: string)
    ensures (exists g :: g in GroupAll(cs) && g.productId == id) <==> CountOf(cs, id) > 0
  {
    GroupAllSpec(cs, id);
    var gs := GroupAll(cs);
    var i := IndexOf(gs, id);
    if i >= 0 {
      assert gs[i] in gs;
    }
  }

  function TotalQuantity(gs: seq<Group>): real
  {
    if gs == [] then 0.0 else TotalQuantity(gs[..|gs| - 1]) + gs[|gs| - 1].quantity
  }

  function LinesQuantity(cs: seq<Contribution>): real
  {
    if cs == [] then 0.0 else LinesQuantity(cs[..|cs| - 1]) + cs[|cs| - 1].quantity
  }

  lemma {:induction false} TotalQuantityUpdate(gs: seq<Group>, i: nat, g: Group)
    requires i < |gs|
    ensures TotalQuantity(gs[i := g]) == TotalQuantity(gs) - gs[i].quantity + g.quantity
  {
    var r := gs[i := g];
    if i < |gs| - 1 {
      assert r[..|r| - 1] == gs[..|gs| - 1][i := g];
      TotalQuantityUpdate(gs[..|gs| - 1], i, g);
    } else {
      assert r[..|r| - 1] == gs[..|gs| - 1];
    }
  }

  /** Grouping loses and invents nothing: the entries' quantities add up to
      the lines' quantities. */
  lemma {:induction false} GroupAllTotal(cs: seq<Contribution>)
    ensures TotalQuantity(GroupAll(cs)) == LinesQuantity(cs)
  {
    if cs != [] {
      var init := cs[..|cs| - 1];
      GroupAllTotal(init);
      var gs := GroupAll(init);
      var c := cs[|cs| - 1];
      var i := IndexOf(gs, c.productId);
      if i < 0 {
        assert (gs + [Group(c.productId, c.name, c.quantity, c.amount, 1)])[..|gs|] == gs;
      } else {
        TotalQuantityUpdate(gs, i, gs[i].(quantity := gs[i].quantity + c.quantity, amount := gs[i].amount + c.amount,
                                          count := gs[i].count + 1));
      }
    }
  }
}
