/**
 * List operations shared by several pages: `Array.prototype.filter`, and
 * "one element per derived key, the first one wins", which is what both a
 * `Set` built from a list and a `Map` filled with `if (!m.has(k)) m.set(k, v)`
 * keep, in first-seen order.
 *
 * Both are defined by recursion on the last element, so that the definition
 * of a one-longer prefix is the definition of the prefix plus one step, as a
 * left-to-right loop computes it.
 */
module Lists {

  /** `xs.filter(p)`. */
  function Filter<T>(xs: seq<T>, p: T -> bool): (r: seq<T>)
    ensures |r| <= |xs|
    ensures forall x :: x in r ==> x in xs && p(x)
    ensures forall x :: x in xs && p(x) ==> x in r
    decreases |xs|
  {
    if xs == [] then []
    else
      var r := Filter(xs[..|xs| - 1], p);
      var x := xs[|xs| - 1];
      assert xs == xs[..|xs| - 1] + [x];
      if p(x) then r + [x] else r
  }

  /** `a` is `b` with some elements dropped and the others kept in order. */
  predicate Subsequence<T(==)>(a: seq<T>, b: seq<T>)
    decreases |b|
  {
    if a == [] then true
    else if b == [] then false
    else
      (a[|a| - 1] == b[|b| - 1] && Subsequence(a[..|a| - 1], b[..|b| - 1]))
      || Subsequence(a, b[..|b| - 1])
  }

  /** A filter keeps the survivors in their original order. */
  lemma {:induction false} FilterIsSubsequence<T>(xs: seq<T>, p: T -> bool)
    ensures Subsequence(Filter(xs, p), xs)
    decreases |xs|
  {
    if xs != [] {
      var init, x := xs[..|xs| - 1], xs[|xs| - 1];
      FilterIsSubsequence(init, p);
      var r := Filter(init, p);
      if p(x) {
        assert (r + [x])[..|r|] == r;
      }
    }
  }

  /** When every element passes, the filter is the identity. */
  lemma {:induction false} FilterAll<T>(xs: seq<T>, p: T -> bool)
    requires forall x :: x in xs ==> p(x)
    ensures Filter(xs, p) == xs
    decreases |xs|
  {
    if xs != [] {
      FilterAll(xs[..|xs| - 1], p);
      assert xs[..|xs| - 1] + [xs[|xs| - 1]] == xs;
    }
  }

  /** The predicate `x => p(x) && q(x)`. */
  function Both<T>(p: T -> bool, q: T -> bool): T -> bool
  {
    x => p(x) && q(x)
  }

  /** Two chained filters keep what passes both: `xs.filter(p).filter(q)` is `xs.filter(x => p(x) && q(x))`. */
  lemma {:induction false} FilterFilter<T>(xs: seq<T>, p: T -> bool, q: T -> bool)
    ensures Filter(Filter(xs, p), q) == Filter(xs, Both(p, q))
    decreases |xs|
  {
    if xs != [] {
      var init, x := xs[..|xs| - 1], xs[|xs| - 1];
      FilterFilter(init, p, q);
      var a := Filter(init, p);
      if p(x) {
        assert (a + [x])[..|a|] == a;
      }
    }
  }

  // ---------------------------------------------------------------------------
  // One element per key, first one wins
  // ---------------------------------------------------------------------------

  /** The keys of the elements of `s`. */
  function KeySet<T(==), K(==)>(s: seq<T>, key: T -> K): set<K>
  {
    set x | x in s :: key(x)
  }

  /** Walks `xs` left to right and keeps an element only when no element kept
    * before it has the same key. */
  function KeepFirst<T(==), K(==)>(xs: seq<T>, key: T -> K): (r: seq<T>)
    ensures |r| <= |xs|
    decreases |xs|
  {
    if xs == [] then []
    else
      var kept := KeepFirst(xs[..|xs| - 1], key);
      var x := xs[|xs| - 1];
      if key(x) in KeySet(kept, key) then kept else kept + [x]
  }

  lemma KeySetAppend<T, K>(s: seq<T>, x: T, key: T -> K)
    ensures KeySet(s + [x], key) == KeySet(s, key) + {key(x)}
  {
    assert forall y :: y in s + [x] <==> y in s || y == x;
  }

  /** The kept elements come from `xs` and cover exactly the keys of `xs`. */
  lemma {:induction false} KeepFirstKeys<T, K>(xs: seq<T>, key: T -> K)
    ensures forall y :: y in KeepFirst(xs, key) ==> y in xs
    ensures KeySet(KeepFirst(xs, key), key) == KeySet(xs, key)
    decreases |xs|
  {
    if xs != [] {
      var init, x := xs[..|xs| - 1], xs[|xs| - 1];
      KeepFirstKeys(init, key);
      assert xs == init + [x];
      KeySetAppend(init, x, key);
      KeySetAppend(KeepFirst(init, key), x, key);
    }
  }

  /** No two elements of `s` share a key. */
  predicate DistinctKeys<T, K(==)>(s: seq<T>, key: T -> K)
  {
    forall i, j :: 0 <= i < j < |s| ==> key(s[i]) != key(s[j])
  }

  /** No two kept elements share a key. */
  lemma {:induction false} KeepFirstDistinct<T, K>(xs: seq<T>, key: T -> K)
    ensures DistinctKeys(KeepFirst(xs, key), key)
    decreases |xs|
  {
    if xs != [] {
      var init, x := xs[..|xs| - 1], xs[|xs| - 1];
      KeepFirstDistinct(init, key);
      var kept := KeepFirst(init, key);
      if key(x) !in KeySet(kept, key) {
        var r := kept + [x];
        forall i, j | 0 <= i < j < |r|
          ensures key(r[i]) != key(r[j])
        {
          if j == |kept| {
            assert r[i] in kept;
            assert key(r[i]) in KeySet(kept, key);
          } else {
            assert r[i] == kept[i] && r[j] == kept[j];
          }
        }
        assert KeepFirst(xs, key) == r;
      }
    }
  }

  /** `i` is the first position of `xs` holding its key. */
  predicate FirstOfKey<T, K(==)>(xs: seq<T>, key: T -> K, i: nat)
    requires i < |xs|
  {
    forall j :: 0 <= j < i ==> key(xs[j]) != key(xs[i])
  }

  /** Reference definition: the elements of `xs[..n]` at the first position of their key, in order. */
  function FirstOccurrences<T, K(==)>(xs: seq<T>, key: T -> K, n: nat): seq<T>
    requires n <= |xs|
  {
    if n == 0 then []
    else FirstOccurrences(xs, key, n - 1) + (if FirstOfKey(xs, key, n - 1) then [xs[n - 1]] else [])
  }

  /** KeepFirst keeps exactly the first occurrence of every key, in the order of those
    * first occurrences, and drops every later element with an already-seen key. */
  lemma {:induction false} KeepFirstIsFirstOccurrences<T, K>(xs: seq<T>, key: T -> K)
    ensures KeepFirst(xs, key) == FirstOccurrences(xs, key, |xs|)
  {
    assert xs[..|xs|] == xs;
    KeepFirstPrefix(xs, key, |xs|);
  }

  lemma {:induction false} KeepFirstPrefix<T, K>(xs: seq<T>, key: T -> K, n: nat)
    requires n <= |xs|
    ensures KeepFirst(xs[..n], key) == FirstOccurrences(xs, key, n)
  {
    if n > 0 {
      KeepFirstPrefix(xs, key, n - 1);
      var prefix := xs[..n];
      assert prefix[..n - 1] == xs[..n - 1];
      var kept := KeepFirst(xs[..n - 1], key);
      KeepFirstKeys(xs[..n - 1], key);
      var x := xs[n - 1];
      if !FirstOfKey(xs, key, n - 1) {
        var j :| 0 <= j < n - 1 && key(xs[j]) == key(x);
        assert xs[..n - 1][j] == xs[j];
      }
    }
  }
}
