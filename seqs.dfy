/**
 * The array operations both stores are built from: `filter`, `find` and `map` over an
 * ordered list, as functions on sequences together with what they guarantee.
 */
module Seqs {
  import opened Wrappers

  /** `r` is `s` with some elements left out and the rest kept in their relative order. */
  ghost predicate IsSubsequence<T>(r: seq<T>, s: seq<T>)
  {
    if r == [] then true
    else if s == [] then false
    else (r[0] == s[0] && IsSubsequence(r[1..], s[1..])) || IsSubsequence(r, s[1..])
  }

  /** Keeping every element is a way of keeping some. */
  lemma {:induction false} SubsequenceOfItself<T>(s: seq<T>)
    ensures IsSubsequence(s, s)
  {
    if s != [] {
      SubsequenceOfItself(s[1..]);
    }
  }

  /** The elements of `s` that satisfy `p`, in their original order (JavaScript's `filter`). */
  function Filter<T>(s: seq<T>, p: T -> bool): (r: seq<T>)
    ensures |r| <= |s|
    ensures IsSubsequence(r, s)
  {
    if s == [] then []
    else
      var rest := Filter(s[1..], p);
      assert s == [s[0]] + s[1..];
      if p(s[0]) then
        assert ([s[0]] + rest)[1..] == rest;
        [s[0]] + rest
      else
        rest
  }

  /** What survives the filter: every kept element passes, every passing element is kept. */
  lemma {:induction false} FilterMembers<T>(s: seq<T>, p: T -> bool)
    ensures forall i :: 0 <= i < |Filter(s, p)| ==> Filter(s, p)[i] in s && p(Filter(s, p)[i])
    ensures forall i :: 0 <= i < |s| && p(s[i]) ==> s[i] in Filter(s, p)
  {
    if s != [] {
      FilterMembers(s[1..], p);
      assert s == [s[0]] + s[1..];
    }
  }

  /** Filtering distributes over concatenation: filtering keeps the order of the survivors. */
  lemma {:induction false} FilterConcat<T>(a: seq<T>, b: seq<T>, p: T -> bool)
    ensures Filter(a + b, p) == Filter(a, p) + Filter(b, p)
  {
    if a == [] {
      assert a + b == b;
    } else {
      assert (a + b)[0] == a[0];
      assert (a + b)[1..] == a[1..] + b;
      FilterConcat(a[1..], b, p);
    }
  }

  /** A filter that every element passes leaves the sequence as it is. */
  lemma {:induction false} FilterKeepsAll<T>(s: seq<T>, p: T -> bool)
    requires forall i :: 0 <= i < |s| ==> p(s[i])
    ensures Filter(s, p) == s
  {
    if s != [] {
      FilterKeepsAll(s[1..], p);
    }
  }

  /** Filtering `[x] + after` where only `x` fails drops exactly `x`. */
  lemma FilterDropsHead<T>(x: T, after: seq<T>, p: T -> bool)
    requires !p(x)
    requires forall k :: 0 <= k < |after| ==> p(after[k])
    ensures Filter([x] + after, p) == after
  {
    assert ([x] + after)[1..] == after;
    FilterKeepsAll(after, p);
  }

  /** Filtering `before + [x] + after` where only `x` fails drops exactly `x`. */
  lemma FilterDropsOne<T>(before: seq<T>, x: T, after: seq<T>, p: T -> bool)
    requires forall k :: 0 <= k < |before| ==> p(before[k])
    requires !p(x)
    requires forall k :: 0 <= k < |after| ==> p(after[k])
    ensures Filter(before + [x] + after, p) == before + after
  {
    FilterDropsHead(x, after, p);
    assert before + [x] + after == before + ([x] + after);
    FilterConcat(before, [x] + after, p);
    FilterKeepsAll(before, p);
  }

  /** A filter that only the element at `i` fails removes exactly that element. */
  lemma FilterDropsOnly<T>(s: seq<T>, p: T -> bool, i: nat)
    requires i < |s| && !p(s[i])
    requires forall j :: 0 <= j < |s| && j != i ==> p(s[j])
    ensures Filter(s, p) == s[..i] + s[i + 1..]
    ensures |Filter(s, p)| == |s| - 1
  {
    var before, after := s[..i], s[i + 1..];
    assert forall k :: 0 <= k < |before| ==> before[k] == s[k];
    assert forall k :: 0 <= k < |after| ==> after[k] == s[i + 1 + k];
    assert s == before + [s[i]] + after;
    FilterDropsOne(before, s[i], after, p);
  }

  /** No two elements of `s` share a key: the ids of a store are unique. */
  ghost predicate DistinctKeys<T, K>(s: seq<T>, key: T -> K)
  {
    forall a, b :: 0 <= a < b < |s| ==> key(s[a]) != key(s[b])
  }

  /** The test of a delete's `filter`: the element's key is not `k`. */
  function WithoutKey<T, K(==)>(key: T -> K, k: K): T -> bool
  {
    (x: T) => key(x) != k
  }

  /**
   * With distinct keys, the element found at `i` is the only one carrying its key, so
   * filtering that key out removes exactly position `i`, keeps the rest in order and
   * leaves the keys distinct.
   */
  lemma FilterOutKey<T, K>(s: seq<T>, key: T -> K, k: K, i: nat)
    requires DistinctKeys(s, key)
    requires i < |s| && key(s[i]) == k
    ensures Filter(s, WithoutKey(key, k)) == s[..i] + s[i + 1..]
    ensures |Filter(s, WithoutKey(key, k))| == |s| - 1
    ensures DistinctKeys(s[..i] + s[i + 1..], key)
  {
    FilterDropsOnly(s, WithoutKey(key, k), i);
    var rest := s[..i] + s[i + 1..];
    forall a, b | 0 <= a < b < |rest|
      ensures key(rest[a]) != key(rest[b])
    {
      var a', b' := if a < i then a else a + 1, if b < i then b else b + 1;
      assert rest[a] == s[a'] && rest[b] == s[b'];
    }
  }

  /** The position of the first element of `s` that satisfies `p` (JavaScript's `find`). */
  function FirstIndex<T>(s: seq<T>, p: T -> bool): (r: Option<nat>)
    ensures r.Some? ==> r.value < |s| && p(s[r.value]) && forall j :: 0 <= j < r.value ==> !p(s[j])
    ensures r.None? <==> forall j :: 0 <= j < |s| ==> !p(s[j])
  {
    if s == [] then None
    else if p(s[0]) then Some(0)
    else match FirstIndex(s[1..], p)
      case None => None
      case Some(k) => Some(k + 1)
  }

  /** `f` applied to every element of `s`, position by position (JavaScript's `map`). */
  function Map<T, U>(s: seq<T>, f: T -> U): (r: seq<U>)
    ensures |r| == |s|
    ensures forall i :: 0 <= i < |s| ==> r[i] == f(s[i])
  {
    if s == [] then [] else [f(s[0])] + Map(s[1..], f)
  }
}
