/** Stock types and sequence facts shared by the other modules. */
module Wrappers {

  datatype Option<+T> = None | Some(value: T)
}

module Sequences {

  predicate NoDuplicates<T(==)>(xs: seq<T>) {
    forall i, j :: 0 <= i < j < |xs| ==> xs[i] != xs[j]
  }

  function Repeat<T>(x: T, n: nat): (r: seq<T>)
    ensures |r| == n
    ensures forall i :: 0 <= i < n ==> r[i] == x
  {
    seq(n, _ => x)
  }

  /** The least member of a non-empty finite set, the first key an ordered map visits. */
  ghost function Least(s: set<nat>): (m: nat)
    requires s != {}
    ensures m in s
    ensures forall k :: k in s ==> m <= k
  {
    var x :| x in s;
    if s == {x} then x
    else
      assert s - {x} != {};
      var m := Least(s - {x});
      assert forall k :: k in s ==> k == x || k in s - {x};
      if x <= m then x else m
  }

  lemma LeastExists(s: set<nat>)
    requires s != {}
    ensures exists m :: m in s && forall k :: k in s ==> m <= k
  {
    assert Least(s) in s;
  }

  lemma LeastUnique(s: set<nat>, m: nat)
    requires m in s && forall k :: k in s ==> m <= k
    ensures Least(s) == m
  {
    assert Least(s) in s;
  }

  lemma Concat3<T>(a: seq<T>, b: seq<T>, c: seq<T>)
    ensures (a + b) + c == a + (b + c)
  {
  }

  lemma MultisetHead<T>(xs: seq<T>)
    requires |xs| > 0
    ensures multiset(xs) == multiset{xs[0]} + multiset(xs[1..])
  {
    assert xs == [xs[0]] + xs[1..];
  }

  lemma MultisetLast<T>(xs: seq<T>)
    requires |xs| > 0
    ensures multiset(xs) == multiset(xs[..|xs| - 1]) + multiset{xs[|xs| - 1]}
  {
    assert xs == xs[..|xs| - 1] + [xs[|xs| - 1]];
  }

  /** Two sets that agree except perhaps on one element differ in size accordingly. */
  lemma SizeButOne<T>(a: set<T>, b: set<T>, t: T)
    requires forall u :: u != t ==> (u in a <==> u in b)
    ensures |a| + (if t in b then 1 else 0) == |b| + (if t in a then 1 else 0)
  {
    assert a - {t} == b - {t};
    assert |a - {t}| == |a| - (if t in a then 1 else 0);
    assert |b - {t}| == |b| - (if t in b then 1 else 0);
  }
}
