/** Ordering and filtering as the services see them: JavaScript's
    `Array.prototype.sort` with a numeric comparator (stable since ES2019),
    a document store's `orderBy` (ties in ascending document-id order), and
    `Array.prototype.filter` / a query's `where`. Both orderings are one
    stable insertion sort on a numeric key. */
module Sorting {

  ghost predicate SortedBy<T>(s: seq<T>, key: T -> real)
  {
    forall i, j :: 0 <= i < j < |s| ==> key(s[i]) <= key(s[j])
  }

  /** Inserts `x` before the first element whose key is not smaller. */
  function Insert<T>(x: T, s: seq<T>, key: T -> real): (r: seq<T>)
    ensures |r| == |s| + 1
  {
    if s == [] || key(x) <= key(s[0]) then [x] + s
    else [s[0]] + Insert(x, s[1..], key)
  }

  lemma {:induction false} InsertElements<T>(x: T, s: seq<T>, key: T -> real)
    ensures multiset(Insert(x, s, key)) == multiset(s) + multiset{x}
  {
    if s != [] && key(s[0]) < key(x) {
      InsertElements(x, s[1..], key);
      assert s == [s[0]] + s[1..];
    }
  }

  lemma {:induction false} InsertSorted<T>(x: T, s: seq<T>, key: T -> real)
    requires SortedBy(s, key)
    ensures SortedBy(Insert(x, s, key), key)
  {
    if s != [] && key(s[0]) < key(x) {
      var rest := Insert(x, s[1..], key);
      InsertSorted(x, s[1..], key);
      InsertElements(x, s[1..], key);
      forall i | 0 <= i < |rest| ensures key(s[0]) <= key(rest[i]) {
        assert rest[i] in multiset(rest);
        if rest[i] != x {
          assert rest[i] in multiset(s[1..]);
          var k :| 0 <= k < |s[1..]| && s[1..][k] == rest[i];
          assert s[k + 1] == rest[i];
        }
      }
    }
  }

  /** Stable sort by ascending key: elements with equal keys keep their input order. */
  function SortBy<T>(s: seq<T>, key: T -> real): (r: seq<T>)
    ensures |r| == |s|
  {
    if s == [] then [] else Insert(s[0], SortBy(s[1..], key), key)
  }

  /** The sorted sequence is ordered by the key and holds the same elements. */
  lemma {:induction false} SortByCorrect<T>(s: seq<T>, key: T -> real)
    ensures SortedBy(SortBy(s, key), key)
    ensures multiset(SortBy(s, key)) == multiset(s)
  {
    if s != [] {
      SortByCorrect(s[1..], key);
      InsertSorted(s[0], SortBy(s[1..], key), key);
      InsertElements(s[0], SortBy(s[1..], key), key);
      assert s == [s[0]] + s[1..];
    }
  }

  /** The input's elements are the output's elements. */
  lemma SortByMembers<T>(s: seq<T>, key: T -> real, x: T)
    ensures x in SortBy(s, key) <==> x in s
  {
    SortByCorrect(s, key);
    assert x in SortBy(s, key) <==> x in multiset(SortBy(s, key));
  }

  function Reverse<T>(s: seq<T>): (r: seq<T>)
    ensures |r| == |s|
    ensures forall i :: 0 <= i < |s| ==> r[i] == s[|s| - 1 - i]
  {
    if s == [] then [] else Reverse(s[1..]) + [s[0]]
  }

  /** Reversing an ascending sequence gives a descending one. */
  lemma ReverseDescending<T>(s: seq<T>, key: T -> real)
    requires SortedBy(s, key)
    ensures forall i, j :: 0 <= i < j < |s| ==> key(Reverse(s)[i]) >= key(Reverse(s)[j])
  {
    var r := Reverse(s);
    forall i, j | 0 <= i < j < |s| ensures key(r[i]) >= key(r[j]) {
      assert r[i] == s[|s| - 1 - i] && r[j] == s[|s| - 1 - j];
    }
  }

  /** `s.filter(p)`: the elements satisfying `p`, in their input order. */
  function Filter<T>(s: seq<T>, p: T -> bool): (r: seq<T>)
    ensures |r| <= |s|
    ensures forall k :: 0 <= k < |r| ==> p(r[k])
  {
    if s == [] then []
    else if p(s[0]) then [s[0]] + Filter(s[1..], p)
    else Filter(s[1..], p)
  }

  /** An element is kept exactly when it is in the input and satisfies `p`. */
  lemma {:induction false} FilterMembers<T>(s: seq<T>, p: T -> bool, x: T)
    ensures x in Filter(s, p) <==> x in s && p(x)
  {
    if s != [] {
      FilterMembers(s[1..], p, x);
      assert s == [s[0]] + s[1..];
    }
  }

  /** The least element of a non-empty set of ids. */
  ghost function Least(ks: set<nat>): (m: nat)
    requires ks != {}
    ensures IsLeast(m, ks)
    decreases ks
  {
    var x :| x in ks;
    if ks == {x} then x
    else
      var y := Least(ks - {x});
      assert forall k :: k in ks ==> k == x || k in ks - {x};
      if x < y then x else y
  }

  predicate IsLeast(m: nat, ks: set<nat>)
  {
    m in ks && forall k :: k in ks ==> m <= k
  }

  /** The elements of a set of document ids in ascending order. */
  function SortedIds(ks: set<nat>): (r: seq<nat>)
    ensures forall i, j :: 0 <= i < j < |r| ==> r[i] < r[j]
    ensures forall k :: k in ks <==> k in r
    ensures |r| == |ks|
    decreases ks
  {
    if ks == {} then []
    else
      assert IsLeast(Least(ks), ks);
      var m :| IsLeast(m, ks);
      var rest := SortedIds(ks - {m});
      assert |ks - {m}| == |ks| - 1;
      [m] + rest
  }
}
