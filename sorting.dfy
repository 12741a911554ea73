/**
 * `Array.prototype.sort` with a comparator, as an in-place sort of an array.
 * The order is given as `le(x, y)`: "x may stand before y". The pages sort
 * with comparators that induce a total preorder, which is what the sort
 * requires here.
 */
module Sorting {
  import opened Seqs

  ghost predicate Total<T(!new)>(le: (T, T) -> bool)
  {
    forall x, y :: le(x, y) || le(y, x)
  }

  ghost predicate Transitive<T(!new)>(le: (T, T) -> bool)
  {
    forall x, y, z :: le(x, y) && le(y, z) ==> le(x, z)
  }

  /** Every element may stand before every later one. */
  predicate Sorted<T>(s: seq<T>, le: (T, T) -> bool)
  {
    forall i, j :: 0 <= i < j < |s| ==> le(s[i], s[j])
  }

  /** Every element may stand before the next one. */
  predicate NeighboursSorted<T>(s: seq<T>, le: (T, T) -> bool)
  {
    forall k :: 0 < k < |s| ==> le(s[k - 1], s[k])
  }

  lemma {:induction false} NeighboursSortedIsSorted<T(!new)>(s: seq<T>, le: (T, T) -> bool)
    requires Transitive(le) && NeighboursSorted(s, le)
    ensures Sorted(s, le)
    decreases |s|
  {
    if |s| > 1 {
      var init := s[..|s| - 1];
      NeighboursSortedIsSorted(init, le);
      forall i | 0 <= i < |s| - 1 ensures le(s[i], s[|s| - 1]) {
        if i < |s| - 2 {
          assert le(s[i], s[|s| - 2]) && le(s[|s| - 2], s[|s| - 1]);
        }
      }
    }
  }

  /** `x` and `y` compare equal: each may stand before the other. */
  predicate Tied<T>(le: (T, T) -> bool, x: T, y: T)
  {
    le(x, y) && le(y, x)
  }

  function TiedFn<T>(le: (T, T) -> bool, x: T): T -> bool
  {
    (y: T) => Tied(le, x, y)
  }

  /**
   * Stability: the elements that compare equal to any one element stand in
   * `s` in the order they stand in `t`.
   */
  ghost predicate KeepsTies<T(!new)>(s: seq<T>, t: seq<T>, le: (T, T) -> bool)
  {
    forall x :: Filter(TiedFn(le, x), s) == Filter(TiedFn(le, x), t)
  }

  /**
   * Insertion sort: each element in turn moves left past the elements it
   * must stand before. It only moves an element past one it strictly
   * precedes, so equal elements keep their order.
   */
  method InsertionSort<T(!new)>(a: array<T>, le: (T, T) -> bool)
    requires Total(le) && Transitive(le)
    modifies a
    ensures NeighboursSorted(a[..], le)
    ensures multiset(a[..]) == old(multiset(a[..]))
    ensures KeepsTies(a[..], old(a[..]), le)
  {
    if a.Length == 0 {
      return;
    }
    var i := 1;
    while i < a.Length
      invariant 1 <= i <= a.Length
      invariant forall k :: 0 < k < i ==> le(a[k - 1], a[k])
      invariant multiset(a[..]) == old(multiset(a[..]))
      invariant KeepsTies(a[..], old(a[..]), le)
    {
      ghost var before := a[..];
      Insert(a, i, le);
      KeepsTiesTransitive(a[..], before, old(a[..]), le);
      i := i + 1;
    }
  }

  /** One step of the sort: `a[i]` moves left into the sorted prefix `a[..i]`. */
  method Insert<T(!new)>(a: array<T>, i: nat, le: (T, T) -> bool)
    requires Total(le) && Transitive(le)
    requires 0 < i < a.Length
    requires forall k :: 0 < k < i ==> le(a[k - 1], a[k])
    modifies a
    ensures forall k :: 0 < k <= i ==> le(a[k - 1], a[k])
    ensures multiset(a[..]) == old(multiset(a[..]))
    ensures KeepsTies(a[..], old(a[..]), le)
  {
    var j := i;
    while j > 0 && !le(a[j - 1], a[j])
      invariant Moving(a[..], i, j, le)
      invariant multiset(a[..]) == old(multiset(a[..]))
      invariant KeepsTies(a[..], old(a[..]), le)
    {
      ghost var before := a[..];
      a[j - 1], a[j] := a[j], a[j - 1];
      assert a[..] == Swap(before, j);
      MovingStep(before, i, j, le);
      SwapKeepsTies(before, j, le);
      KeepsTiesTransitive(a[..], before, old(a[..]), le);
      j := j - 1;
    }
    assert Moving(a[..], i, j, le);
  }

  lemma KeepsTiesTransitive<T(!new)>(r: seq<T>, s: seq<T>, t: seq<T>, le: (T, T) -> bool)
    requires KeepsTies(r, s, le) && KeepsTies(s, t, le)
    ensures KeepsTies(r, t, le)
  {
    forall x ensures Filter(TiedFn(le, x), r) == Filter(TiedFn(le, x), t) {
      assert Filter(TiedFn(le, x), r) == Filter(TiedFn(le, x), s);
    }
  }

  /** Exchanging two neighbours of which at most one passes a filter leaves the filter's result as it was. */
  lemma SwapKeepsFilter<T(!new)>(p: T -> bool, s: seq<T>, j: nat)
    requires 0 < j < |s| && !(p(s[j - 1]) && p(s[j]))
    ensures Filter(p, Swap(s, j)) == Filter(p, s)
  {
    var u, v, front, back := s[j - 1], s[j], s[..j - 1], s[j + 1..];
    SwapSplit(s, j);
    FilterAppend(p, front, [u, v] + back);
    FilterAppend(p, front, [v, u] + back);
    FilterAppend(p, [u, v], back);
    FilterAppend(p, [v, u], back);
    FilterPairSwap(p, u, v);
  }

  lemma FilterPairSwap<T(!new)>(p: T -> bool, u: T, v: T)
    requires !(p(u) && p(v))
    ensures Filter(p, [v, u]) == Filter(p, [u, v])
  {
    assert [u, v][..1] == [u] && [v, u][..1] == [v];
    assert [u][..0] == [] && [v][..0] == [];
  }

  /** The sort's exchange of two neighbours that are not tied keeps every tie in its order. */
  lemma SwapKeepsTies<T(!new)>(s: seq<T>, j: nat, le: (T, T) -> bool)
    requires Transitive(le) && 0 < j < |s| && !le(s[j - 1], s[j])
    ensures KeepsTies(Swap(s, j), s, le)
  {
    forall x ensures Filter(TiedFn(le, x), Swap(s, j)) == Filter(TiedFn(le, x), s) {
      if Tied(le, x, s[j - 1]) && Tied(le, x, s[j]) {
        assert false;
      }
      SwapKeepsFilter(TiedFn(le, x), s, j);
    }
  }

  /**
   * While `a[i]`'s element moves left and stands at `j`: every pair of
   * neighbours up to `i` is in order except perhaps the one ending at `j`,
   * and the elements on both sides of `j` are in order with each other.
   */
  ghost predicate Moving<T>(s: seq<T>, i: nat, j: nat, le: (T, T) -> bool)
  {
    && j <= i < |s|
    && (forall k :: 0 < k <= i && k != j ==> le(s[k - 1], s[k]))
    && (0 < j < i ==> le(s[j - 1], s[j + 1]))
  }

  lemma MovingStep<T(!new)>(s: seq<T>, i: nat, j: nat, le: (T, T) -> bool)
    requires Total(le) && Moving(s, i, j, le) && 0 < j && !le(s[j - 1], s[j])
    ensures Moving(Swap(s, j), i, j - 1, le) && multiset(Swap(s, j)) == multiset(s)
  {
    SwapPermutes(s, j);
  }

  /** `s` with the elements at `j - 1` and `j` exchanged. */
  function Swap<T>(s: seq<T>, j: nat): (r: seq<T>)
    requires 0 < j < |s|
    ensures |r| == |s| && r[j - 1] == s[j] && r[j] == s[j - 1]
    ensures forall k :: 0 <= k < |s| && k != j - 1 && k != j ==> r[k] == s[k]
  {
    s[j - 1 := s[j]][j := s[j - 1]]
  }

  /** `s` and `Swap(s, j)` around the exchanged pair. */
  lemma SwapSplit<T>(s: seq<T>, j: nat)
    requires 0 < j < |s|
    ensures s == s[..j - 1] + ([s[j - 1], s[j]] + s[j + 1..])
    ensures Swap(s, j) == s[..j - 1] + ([s[j], s[j - 1]] + s[j + 1..])
  {
  }

  lemma SwapPermutes<T>(s: seq<T>, j: nat)
    requires 0 < j < |s|
    ensures multiset(Swap(s, j)) == multiset(s)
  {
    SwapSplit(s, j);
  }
}
