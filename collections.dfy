/**
 * Facts about collections the stateful components rely on: totals over the
 * keys of a map, as the statistics functions compute them with `for ... of`
 * loops (the sum of `f(k)` over a finite set of keys, in no particular
 * order), and key lists without repetition, as a JavaScript `Map` keeps its
 * keys in insertion order.
 */
module Collections {

  /** No element occurs twice. */
  predicate Distinct<T(==)>(s: seq<T>) {
    forall i, j | 0 <= i < j < |s| :: s[i] != s[j]
  }

  function Elements<T(==)>(s: seq<T>): set<T> {
    set x | x in s
  }

  lemma {:induction false} DistinctCardinality<T>(s: seq<T>)
    requires Distinct(s)
    ensures |Elements(s)| == |s|
  {
    if s != [] {
      DistinctCardinality(s[1..]);
      assert Elements(s) == Elements(s[1..]) + {s[0]};
      assert s[0] !in Elements(s[1..]);
    }
  }

  /** The elements of a prefix one longer; a distinct sequence has not met its next element yet. */
  lemma ElementsSnoc<T>(s: seq<T>, n: int)
    requires 0 <= n < |s|
    ensures Elements(s[..n + 1]) == Elements(s[..n]) + {s[n]}
    ensures Distinct(s) ==> s[n] !in s[..n]
  {
    assert s[..n + 1] == s[..n] + [s[n]];
  }

  /** Removing keys one at a time is removing them all at once. */
  lemma MapMinusStep<K, V>(m: map<K, V>, done: set<K>, k: K)
    ensures (m - done) - {k} == m - (done + {k})
  {
  }

  /** The position of the first occurrence of `x`, or `|s|`. */
  function IndexOf<T(==)>(s: seq<T>, x: T): (i: nat)
    ensures i <= |s| && (i < |s| <==> x in s)
    ensures i < |s| ==> s[i] == x && x !in s[..i]
  {
    if s == [] then 0 else if s[0] == x then 0 else 1 + IndexOf(s[1..], x)
  }

  lemma IndexOfAt<T>(s: seq<T>, i: int)
    requires Distinct(s) && 0 <= i < |s|
    ensures IndexOf(s, s[i]) == i
  {
    var j := IndexOf(s, s[i]);
    assert s[j] == s[i];
  }

  /** `s` without the occurrences of `x`, in the same order. */
  function Without<T(==)>(s: seq<T>, x: T): (r: seq<T>)
    ensures forall y | y in r :: y in s && y != x
    ensures forall y | y in s && y != x :: y in r
    ensures |r| <= |s|
    ensures Distinct(s) ==> Distinct(r)
    ensures x !in s ==> r == s
    ensures Distinct(s) && x in s ==> |r| == |s| - 1
  {
    if s == [] then []
    else if s[0] == x then Without(s[1..], x)
    else
      var rest := Without(s[1..], x);
      assert Distinct(s) ==> s[0] !in s[1..];
      [s[0]] + rest
  }

  /** `s` without the elements of `xs`, the others kept in the same order. */
  function WithoutAll<T(==)>(s: seq<T>, xs: set<T>): seq<T>
  {
    if s == [] then []
    else if s[0] in xs then WithoutAll(s[1..], xs)
    else [s[0]] + WithoutAll(s[1..], xs)
  }

  /** What `WithoutAll` keeps: the elements outside `xs`, and all of `s` when none is in `xs`. */
  lemma {:induction false} WithoutAllMembers<T>(s: seq<T>, xs: set<T>)
    ensures forall y :: y in WithoutAll(s, xs) <==> y in s && y !in xs
    ensures (forall y | y in s :: y !in xs) ==> WithoutAll(s, xs) == s
  {
    if s != [] {
      WithoutAllMembers(s[1..], xs);
      assert forall y :: y in s <==> y == s[0] || y in s[1..];
    }
  }

  /** Taking out one more element is `Without` after the others. */
  lemma {:induction false} WithoutAllStep<T>(s: seq<T>, xs: set<T>, x: T)
    ensures Without(WithoutAll(s, xs), x) == WithoutAll(s, xs + {x})
  {
    if s != [] {
      WithoutAllStep(s[1..], xs, x);
      if s[0] !in xs {
        assert ([s[0]] + WithoutAll(s[1..], xs))[1..] == WithoutAll(s[1..], xs);
      }
    }
  }

  ghost function SumOver<K>(ks: set<K>, f: K -> int): int
    decreases ks
  {
    if ks == {} then 0 else var k :| k in ks; f(k) + SumOver(ks - {k}, f)
  }

  /** The sum does not depend on which key is taken out first. */
  lemma {:induction false} SumOverRemove<K>(ks: set<K>, f: K -> int, k: K)
    requires k in ks
    ensures SumOver(ks, f) == f(k) + SumOver(ks - {k}, f)
    decreases ks
  {
    var j :| j in ks && SumOver(ks, f) == f(j) + SumOver(ks - {j}, f);
    if j != k {
      SumOverRemove(ks - {j}, f, k);
      SumOverRemove(ks - {k}, f, j);
      assert ks - {j} - {k} == ks - {k} - {j};
    }
  }

  /** Adding a fresh key adds its term. */
  lemma SumOverAdd<K>(ks: set<K>, f: K -> int, k: K)
    requires k !in ks
    ensures SumOver(ks + {k}, f) == SumOver(ks, f) + f(k)
  {
    SumOverRemove(ks + {k}, f, k);
    assert ks + {k} - {k} == ks;
  }

  /** Terms that are all non-negative give a non-negative sum. */
  lemma {:induction false} SumOverNonNegative<K>(ks: set<K>, f: K -> int)
    requires forall k | k in ks :: f(k) >= 0
    ensures SumOver(ks, f) >= 0
    decreases ks
  {
    if ks != {} {
      var k :| k in ks;
      SumOverRemove(ks, f, k);
      SumOverNonNegative(ks - {k}, f);
    }
  }

  /** Two term functions that agree on the keys give the same sum. */
  lemma {:induction false} SumOverCongruent<K>(ks: set<K>, f: K -> int, g: K -> int)
    requires forall k | k in ks :: f(k) == g(k)
    ensures SumOver(ks, f) == SumOver(ks, g)
    decreases ks
  {
    if ks != {} {
      var k :| k in ks;
      SumOverRemove(ks, f, k);
      SumOverRemove(ks, g, k);
      SumOverCongruent(ks - {k}, f, g);
    }
  }
}
