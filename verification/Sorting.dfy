/** Sorting by an integer key, standing for Go's sort.Slice; how ties fall is nothing to rely on. */
module Sorting {
  function Insert<T>(s: seq<T>, x: T, key: T -> int): seq<T> {
    if s != [] && key(s[|s| - 1]) > key(x) then Insert(s[..|s| - 1], x, key) + [s[|s| - 1]] else s + [x]
  }

  function SortBy<T>(s: seq<T>, key: T -> int): seq<T> {
    if s == [] then [] else Insert(SortBy(s[..|s| - 1], key), s[|s| - 1], key)
  }

  ghost predicate Ordered<T>(s: seq<T>, key: T -> int) {
    forall i, j | 0 <= i < j < |s| :: key(s[i]) <= key(s[j])
  }

  lemma {:induction false} InsertPermutes<T>(s: seq<T>, x: T, key: T -> int)
    ensures multiset(Insert(s, x, key)) == multiset(s) + multiset{x}
    ensures |Insert(s, x, key)| == |s| + 1
  {
    if s != [] && key(s[|s| - 1]) > key(x) {
      InsertPermutes(s[..|s| - 1], x, key);
      assert s == s[..|s| - 1] + [s[|s| - 1]];
    }
  }

  lemma {:induction false} InsertBounded<T>(s: seq<T>, x: T, key: T -> int, bound: int)
    requires key(x) <= bound && forall i | 0 <= i < |s| :: key(s[i]) <= bound
    ensures forall i | 0 <= i < |Insert(s, x, key)| :: key(Insert(s, x, key)[i]) <= bound
  {
    if s != [] && key(s[|s| - 1]) > key(x) {
      InsertBounded(s[..|s| - 1], x, key, bound);
    }
  }

  lemma {:induction false} InsertSorts<T>(s: seq<T>, x: T, key: T -> int)
    requires Ordered(s, key)
    ensures Ordered(Insert(s, x, key), key)
  {
    if s != [] && key(s[|s| - 1]) > key(x) {
      var before, last := s[..|s| - 1], s[|s| - 1];
      InsertSorts(before, x, key);
      InsertBounded(before, x, key, key(last));
    }
  }

  /** Sorting gives an ordered permutation. */
  lemma {:induction false} SortSorts<T>(s: seq<T>, key: T -> int)
    ensures Ordered(SortBy(s, key), key)
    ensures multiset(SortBy(s, key)) == multiset(s)
    ensures |SortBy(s, key)| == |s|
  {
    if s != [] {
      var n := |s| - 1;
      SortSorts(s[..n], key);
      InsertSorts(SortBy(s[..n], key), s[n], key);
      InsertPermutes(SortBy(s[..n], key), s[n], key);
      assert s == s[..n] + [s[n]];
    }
  }
}
