/** Python's stable `sorted(xs, key=..., reverse=True)`. */
module Sorting {

  function Insert<T>(x: T, sorted: seq<T>, key: T -> int): seq<T> {
    if sorted == [] || key(sorted[0]) <= key(x) then [x] + sorted
    else [sorted[0]] + Insert(x, sorted[1..], key)
  }

  function SortDesc<T>(xs: seq<T>, key: T -> int): seq<T> {
    if xs == [] then [] else Insert(xs[0], SortDesc(xs[1..], key), key)
  }

  ghost predicate Descending<T>(xs: seq<T>, key: T -> int) {
    forall i, j :: 0 <= i < j < |xs| ==> key(xs[i]) >= key(xs[j])
  }

  lemma {:induction false} InsertPermutes<T>(x: T, xs: seq<T>, key: T -> int)
    ensures multiset(Insert(x, xs, key)) == multiset{x} + multiset(xs)
  {
    if xs == [] {
    } else {
      assert xs == [xs[0]] + xs[1..];
      InsertPermutes(x, xs[1..], key);
    }
  }

  lemma {:induction false} InsertBounded<T>(x: T, xs: seq<T>, key: T -> int, bound: int)
    requires key(x) <= bound && forall i :: 0 <= i < |xs| ==> key(xs[i]) <= bound
    ensures forall i :: 0 <= i < |Insert(x, xs, key)| ==> key(Insert(x, xs, key)[i]) <= bound
  {
    if xs == [] || key(xs[0]) <= key(x) {
    } else {
      InsertBounded(x, xs[1..], key, bound);
    }
  }

  lemma {:induction false} InsertKeeps<T>(x: T, xs: seq<T>, key: T -> int)
    requires Descending(xs, key)
    ensures Descending(Insert(x, xs, key), key)
  {
    if xs == [] || key(xs[0]) <= key(x) {
    } else {
      InsertKeeps(x, xs[1..], key);
      InsertBounded(x, xs[1..], key, key(xs[0]));
    }
  }

  /** The result is descending and a permutation of the input. */
  lemma {:induction false} SortDescSorts<T>(xs: seq<T>, key: T -> int)
    ensures Descending(SortDesc(xs, key), key)
    ensures multiset(SortDesc(xs, key)) == multiset(xs)
    ensures |SortDesc(xs, key)| == |xs|
  {
    if xs == [] {
    } else {
      SortDescSorts(xs[1..], key);
      InsertKeeps(xs[0], SortDesc(xs[1..], key), key);
      InsertPermutes(xs[0], SortDesc(xs[1..], key), key);
      assert xs == [xs[0]] + xs[1..];
      assert |multiset(SortDesc(xs, key))| == |multiset(xs)|;
    }
  }
}
