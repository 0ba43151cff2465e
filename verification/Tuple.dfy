/** The compile-time list functions that typed dispatch rests on. */
module Tuple {

  predicate ContainsType<T(==)>(tags: seq<T>, t: T) {
    if tags == [] then false
    else if tags[0] == t then true
    else ContainsType(tags[1..], t)
  }

  predicate DuplicateFree<T(==)>(tags: seq<T>) {
    if tags == [] then true else !ContainsType(tags[1..], tags[0]) && DuplicateFree(tags[1..])
  }

  /** Undefined for a type that is not listed, where the source does not compile. */
  function Index<T(==)>(tags: seq<T>, t: T): nat
    requires ContainsType(tags, t)
  {
    if tags[0] == t then 0 else Index(tags[1..], t) + 1
  }

  lemma {:induction false} ContainsIff<T>(tags: seq<T>, t: T)
    ensures ContainsType(tags, t) <==> t in tags
  {
    if tags != [] {
      ContainsIff(tags[1..], t);
      assert tags == [tags[0]] + tags[1..];
    }
  }

  /** The index is the first position that holds the type. */
  lemma {:induction false} IndexIsFirst<T>(tags: seq<T>, t: T)
    requires ContainsType(tags, t)
    ensures Index(tags, t) < |tags| && tags[Index(tags, t)] == t && t !in tags[..Index(tags, t)]
  {
    if tags[0] != t {
      IndexIsFirst(tags[1..], t);
      assert tags[..Index(tags, t)] == [tags[0]] + tags[1..][..Index(tags[1..], t)];
    }
  }

  /** Different types have different indices. */
  lemma IndexInjective<T>(tags: seq<T>, t: T, u: T)
    requires ContainsType(tags, t) && ContainsType(tags, u)
    ensures Index(tags, t) == Index(tags, u) <==> t == u
  {
    IndexIsFirst(tags, t);
    IndexIsFirst(tags, u);
  }

  lemma {:induction false} DuplicateFreeIsDistinct<T>(tags: seq<T>)
    ensures DuplicateFree(tags) <==> forall i, j :: 0 <= i < j < |tags| ==> tags[i] != tags[j]
  {
    if tags != [] {
      DuplicateFreeIsDistinct(tags[1..]);
      ContainsIff(tags[1..], tags[0]);
      assert forall i, j :: 0 < i < j < |tags| ==> tags[1..][i - 1] == tags[i] && tags[1..][j - 1] == tags[j];
      if !DuplicateFree(tags[1..]) {
        var i, j :| 0 <= i < j < |tags[1..]| && tags[1..][i] == tags[1..][j];
        assert tags[i + 1] == tags[j + 1];
      }
    }
  }

  /** A list is free of duplicates exactly when every position is the index of its own type. */
  lemma DuplicateFreeIff<T>(tags: seq<T>)
    ensures DuplicateFree(tags)
       <==> forall i :: 0 <= i < |tags| ==> ContainsType(tags, tags[i]) && Index(tags, tags[i]) == i
  {
    DuplicateFreeIsDistinct(tags);
    forall i | 0 <= i < |tags|
      ensures ContainsType(tags, tags[i])
      ensures DuplicateFree(tags) ==> Index(tags, tags[i]) == i
    {
      ContainsIff(tags, tags[i]);
      IndexIsFirst(tags, tags[i]);
    }
    if forall i :: 0 <= i < |tags| ==> ContainsType(tags, tags[i]) && Index(tags, tags[i]) == i {
      forall i, j | 0 <= i < j < |tags|
        ensures tags[i] != tags[j]
      {
        IndexInjective(tags, tags[i], tags[j]);
      }
    }
  }
}
