/**
 * Array operations the pages use through `filter` and `reduce`, stated on
 * sequences, with the facts about them that the rest of the model needs.
 * Everything is defined from the last element backwards, so that a loop over
 * `s[..i]` unrolls one step at a time.
 */
module Seqs {

  // ---------------------------------------------------------------------------
  // filter
  // ---------------------------------------------------------------------------

  /** `s.filter(p)`. */
  function Filter<T(!new)>(p: T -> bool, s: seq<T>): (r: seq<T>)
    ensures |r| <= |s|
    ensures forall x :: x in r <==> x in s && p(x)
  {
    if s == [] then []
    else
      assert s == s[..|s| - 1] + [s[|s| - 1]];
      Filter(p, s[..|s| - 1]) + (if p(s[|s| - 1]) then [s[|s| - 1]] else [])
  }

  lemma {:induction false} FilterAppend<T(!new)>(p: T -> bool, a: seq<T>, b: seq<T>)
    ensures Filter(p, a + b) == Filter(p, a) + Filter(p, b)
    decreases |b|
  {
    if b == [] {
      assert a + b == a;
    } else {
      assert (a + b)[..|a + b| - 1] == a + b[..|b| - 1];
      FilterAppend(p, a, b[..|b| - 1]);
    }
  }

  /** Filtering twice with the same predicate changes nothing the second time. */
  lemma {:induction false} FilterIdempotent<T(!new)>(p: T -> bool, s: seq<T>)
    ensures Filter(p, Filter(p, s)) == Filter(p, s)
    decreases |s|
  {
    if s != [] {
      var init := s[..|s| - 1];
      FilterIdempotent(p, init);
      FilterAppend(p, Filter(p, init), if p(s[|s| - 1]) then [s[|s| - 1]] else []);
    }
  }

  /** Filtering keeps everything exactly when every element passes. */
  lemma {:induction false} FilterAll<T(!new)>(p: T -> bool, s: seq<T>)
    ensures Filter(p, s) == s <==> forall i :: 0 <= i < |s| ==> p(s[i])
    decreases |s|
  {
    if s != [] {
      var init := s[..|s| - 1];
      FilterAll(p, init);
      assert s == init + [s[|s| - 1]];
      if !p(s[|s| - 1]) {
        assert |Filter(p, s)| < |s| by { assert |Filter(p, s)| == |Filter(p, init)| <= |init|; }
      }
    }
  }

  /** Filtering by `p` and then by `q` is filtering once by their conjunction `pq`. */
  lemma {:induction false} FilterTwice<T(!new)>(p: T -> bool, q: T -> bool, pq: T -> bool, s: seq<T>)
    requires forall i :: 0 <= i < |s| ==> pq(s[i]) == (p(s[i]) && q(s[i]))
    ensures Filter(q, Filter(p, s)) == Filter(pq, s)
    decreases |s|
  {
    if s != [] {
      var init, last := s[..|s| - 1], s[|s| - 1];
      FilterTwice(p, q, pq, init);
      FilterAppend(q, Filter(p, init), if p(last) then [last] else []);
      assert [last][..0] == [];
    }
  }

  // ---------------------------------------------------------------------------
  // subsequences
  // ---------------------------------------------------------------------------

  /** `a` is `b` with some elements left out and the rest in their order. */
  predicate IsSubsequence<T(==)>(a: seq<T>, b: seq<T>)
    decreases |b|
  {
    if a == [] then true
    else if b == [] then false
    else if a[|a| - 1] == b[|b| - 1] then IsSubsequence(a[..|a| - 1], b[..|b| - 1])
    else IsSubsequence(a, b[..|b| - 1])
  }

  lemma {:induction false} SubsequenceDropLast<T>(a: seq<T>, b: seq<T>)
    requires a != [] && IsSubsequence(a, b)
    ensures IsSubsequence(a[..|a| - 1], b)
    decreases |b|, 0
  {
    var a', b' := a[..|a| - 1], b[..|b| - 1];
    if a[|a| - 1] == b[|b| - 1] {
      SubsequenceWeaken(a', b', b[|b| - 1]);
    } else {
      SubsequenceDropLast(a, b');
      SubsequenceWeaken(a', b', b[|b| - 1]);
    }
    assert b' + [b[|b| - 1]] == b;
  }

  /** A subsequence stays one when an element is added at the end. */
  lemma {:induction false} SubsequenceWeaken<T>(a: seq<T>, b': seq<T>, x: T)
    requires IsSubsequence(a, b')
    ensures IsSubsequence(a, b' + [x])
    decreases |b'|, 1
  {
    var b := b' + [x];
    assert b[..|b| - 1] == b';
    if a != [] && a[|a| - 1] == x {
      SubsequenceDropLast(a, b');
    }
  }

  /** A filter gives nothing exactly when no element passes. */
  lemma {:induction false} FilterEmpty<T(!new)>(p: T -> bool, s: seq<T>)
    ensures Filter(p, s) == [] <==> forall i :: 0 <= i < |s| ==> !p(s[i])
    decreases |s|
  {
    if s != [] {
      FilterEmpty(p, s[..|s| - 1]);
    }
  }

  /** Filtering keeps each element at most as often as the input has it. */
  lemma {:induction false} FilterSubMultiset<T(!new)>(p: T -> bool, s: seq<T>)
    ensures multiset(Filter(p, s)) <= multiset(s)
    decreases |s|
  {
    if s != [] {
      var init, last := s[..|s| - 1], s[|s| - 1];
      FilterSubMultiset(p, init);
      assert s == init + [last];
    }
  }

  lemma {:induction false} FilterIsSubsequence<T(!new)>(p: T -> bool, s: seq<T>)
    ensures IsSubsequence(Filter(p, s), s)
    decreases |s|
  {
    if s != [] {
      var init, last := s[..|s| - 1], s[|s| - 1];
      FilterIsSubsequence(p, init);
      var r := Filter(p, s);
      if p(last) {
        assert r[..|r| - 1] == Filter(p, init);
      } else {
        assert r == Filter(p, init);
        assert r != [] ==> p(r[|r| - 1]);
      }
    }
  }

  // ---------------------------------------------------------------------------
  // sums
  // ---------------------------------------------------------------------------

  /** `s.reduce((sum, x) => sum + f(x), 0)`. */
  function SumBy<T>(f: T -> int, s: seq<T>): int
  {
    if s == [] then 0 else SumBy(f, s[..|s| - 1]) + f(s[|s| - 1])
  }

  lemma {:induction false} SumByAppend<T>(f: T -> int, a: seq<T>, b: seq<T>)
    ensures SumBy(f, a + b) == SumBy(f, a) + SumBy(f, b)
    decreases |b|
  {
    if b == [] {
      assert a + b == a;
    } else {
      assert (a + b)[..|a + b| - 1] == a + b[..|b| - 1];
      SumByAppend(f, a, b[..|b| - 1]);
    }
  }

  /** Taking one element out of a sequence takes its term out of the sum. */
  lemma SumByRemove<T>(f: T -> int, b: seq<T>, j: int)
    requires 0 <= j < |b|
    ensures SumBy(f, b) == SumBy(f, b[..j] + b[j + 1..]) + f(b[j])
  {
    var x, y := b[..j], b[j + 1..];
    var xb := x + [b[j]];
    assert b == xb + y;
    assert xb[..|xb| - 1] == x;
    SumByAppend(f, xb, y);
    SumByAppend(f, x, y);
  }

  lemma MultisetRemove<T>(b: seq<T>, j: int)
    requires 0 <= j < |b|
    ensures multiset(b[..j] + b[j + 1..]) == multiset(b) - multiset{b[j]}
  {
    assert b == b[..j] + [b[j]] + b[j + 1..];
    assert multiset(b) == multiset(b[..j]) + multiset{b[j]} + multiset(b[j + 1..]);
  }

  /** A sum does not depend on the order of the elements. */
  lemma {:induction false} SumByPermutation<T>(f: T -> int, a: seq<T>, b: seq<T>)
    requires multiset(a) == multiset(b)
    ensures SumBy(f, a) == SumBy(f, b)
    decreases |a|
  {
    if a != [] {
      var init, last := a[..|a| - 1], a[|a| - 1];
      assert a == init + [last];
      assert multiset(init) == multiset(a) - multiset{last};
      assert last in multiset(b);
      var j :| 0 <= j < |b| && b[j] == last;
      MultisetRemove(b, j);
      SumByPermutation(f, init, b[..j] + b[j + 1..]);
      SumByRemove(f, b, j);
    }
  }

  /** A sum is zero when every term is. */
  lemma {:induction false} SumByZero<T>(f: T -> int, s: seq<T>)
    requires forall i :: 0 <= i < |s| ==> f(s[i]) == 0
    ensures SumBy(f, s) == 0
    decreases |s|
  {
    if s != [] {
      SumByZero(f, s[..|s| - 1]);
    }
  }

  /** A sum of non-negative terms over a filtered sequence is at most the full sum. */
  lemma {:induction false} SumByFilterBound<T(!new)>(f: T -> int, p: T -> bool, s: seq<T>)
    requires forall i :: 0 <= i < |s| ==> f(s[i]) >= 0
    ensures SumBy(f, Filter(p, s)) <= SumBy(f, s)
    decreases |s|
  {
    if s != [] {
      var init := s[..|s| - 1];
      SumByFilterBound(f, p, init);
      SumByAppend(f, Filter(p, init), if p(s[|s| - 1]) then [s[|s| - 1]] else []);
    }
  }

  /** A sum splits into the sum over the elements that pass a filter and the sum over those that fail it. */
  lemma {:induction false} SumBySplit<T(!new)>(f: T -> int, p: T -> bool, q: T -> bool, s: seq<T>)
    requires forall x :: q(x) == !p(x)
    ensures SumBy(f, s) == SumBy(f, Filter(p, s)) + SumBy(f, Filter(q, s))
    decreases |s|
  {
    if s != [] {
      var init, x := s[..|s| - 1], s[|s| - 1];
      SumBySplit(f, p, q, init);
      SumByAppend(f, Filter(p, init), if p(x) then [x] else []);
      SumByAppend(f, Filter(q, init), if q(x) then [x] else []);
      assert SumBy(f, [x]) == f(x) by { assert [x][..0] == []; }
    }
  }

  /** The sum of a list of numbers. */
  function Sum(s: seq<int>): int
  {
    if s == [] then 0 else Sum(s[..|s| - 1]) + s[|s| - 1]
  }

  /** The sum of `vs` when each `vs[i]` is `f(ks[i])`. */
  lemma {:induction false} SumOfImages<T>(f: T -> int, ks: seq<T>, vs: seq<int>)
    requires |vs| == |ks|
    requires forall i :: 0 <= i < |ks| ==> vs[i] == f(ks[i])
    ensures Sum(vs) == SumBy(f, ks)
    decreases |ks|
  {
    if ks != [] {
      SumOfImages(f, ks[..|ks| - 1], vs[..|vs| - 1]);
    }
  }

  // ---------------------------------------------------------------------------
  // distinct elements
  // ---------------------------------------------------------------------------

  predicate NoDuplicates<T(==)>(s: seq<T>)
  {
    forall i, j :: 0 <= i < j < |s| ==> s[i] != s[j]
  }

  /** The distinct elements of `s`, in the order of their first occurrence. */
  function Distinct<T(==,!new)>(s: seq<T>): (r: seq<T>)
    ensures NoDuplicates(r)
    ensures forall x :: x in r <==> x in s
  {
    if s == [] then []
    else
      var d := Distinct(s[..|s| - 1]);
      assert s == s[..|s| - 1] + [s[|s| - 1]];
      if s[|s| - 1] in d then d else d + [s[|s| - 1]]
  }

  lemma {:induction false} NoDuplicatesCount<T>(s: seq<T>, x: T)
    requires NoDuplicates(s)
    ensures multiset(s)[x] == if x in s then 1 else 0
    decreases |s|
  {
    if s != [] {
      var init := s[..|s| - 1];
      assert s == init + [s[|s| - 1]];
      NoDuplicatesCount(init, x);
      if x == s[|s| - 1] {
        forall i | 0 <= i < |init| ensures init[i] != x {
          assert init[i] == s[i];
        }
      }
    }
  }

  /** Reordering a sequence without duplicates gives a sequence without duplicates. */
  lemma NoDuplicatesPermutation<T>(a: seq<T>, b: seq<T>)
    requires NoDuplicates(a) && multiset(a) == multiset(b)
    ensures NoDuplicates(b)
  {
    forall i, j | 0 <= i < j < |b| ensures b[i] != b[j] {
      var x := b[i];
      assert b == b[..j] + [b[j]] + b[j + 1..];
      assert x in b[..j];
      assert multiset(b) == multiset(b[..j]) + multiset{b[j]} + multiset(b[j + 1..]);
      assert multiset(b)[x] >= 1 + multiset{b[j]}[x];
      NoDuplicatesCount(a, x);
    }
  }
}
