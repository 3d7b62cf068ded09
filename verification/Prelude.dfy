/** Option and Result, and the few facts about sequences and sets that several modules share. */
module Prelude {
  datatype Option<+T> = None | Some(value: T)

  datatype Result<+T, +E> = Ok(value: T) | Err(error: E)

  /** The elements of a sequence, as a set. */
  function Elements<T>(s: seq<T>): set<T> {
    set x | x in s
  }

  lemma SubsetBound<T>(a: set<T>, b: set<T>)
    requires a <= b
    ensures |a| <= |b|
  {
    assert b == a + (b - a);
  }

  lemma ConcatAssoc<T>(a: seq<T>, b: seq<T>, c: seq<T>)
    ensures (a + b) + c == a + (b + c)
  {
  }

  /** Taking the last element off a + b takes it off b. */
  lemma ConcatInit<T>(a: seq<T>, b: seq<T>)
    requires b != []
    ensures (a + b)[..|a + b| - 1] == a + b[..|b| - 1] && (a + b)[|a + b| - 1] == b[|b| - 1]
  {
  }

  /** The position of the first `x` from `i` on, or the length. */
  function IndexOf<T(==)>(s: seq<T>, x: T, i: nat := 0): (r: nat)
    requires i <= |s|
    ensures i <= r <= |s|
    ensures r < |s| ==> s[r] == x
    ensures forall j | i <= j < r :: s[j] != x
    decreases |s| - i
  {
    if i == |s| || s[i] == x then i else IndexOf(s, x, i + 1)
  }

  lemma IndexOfIs<T>(s: seq<T>, x: T, r: nat)
    requires r < |s| && s[r] == x
    requires forall j | 0 <= j < r :: s[j] != x
    ensures IndexOf(s, x) == r
  {
  }
}
