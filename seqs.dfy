/**
 * The list operations of the Kotlin standard library that the repositories
 * and screens use: `indexOfFirst`, `firstOrNull`, `filter` (and `removeAll`,
 * which is `filter` with the predicate negated).
 */
module Seqs {
  import opened Wrappers

  /** `a` is `b` with some elements left out, order kept. */
  ghost predicate IsSubsequence<T>(a: seq<T>, b: seq<T>)
    decreases |b|
  {
    if a == [] then true
    else if b == [] then false
    else (a[0] == b[0] && IsSubsequence(a[1..], b[1..])) || IsSubsequence(a, b[1..])
  }

  /** `s.indexOfFirst(p)`: the least index whose element satisfies `p`, or -1. */
  function IndexOfFirst<T>(s: seq<T>, p: T -> bool): (k: int)
    ensures -1 <= k < |s|
    ensures k >= 0 ==> p(s[k]) && forall j :: 0 <= j < k ==> !p(s[j])
    ensures k < 0 ==> forall j :: 0 <= j < |s| ==> !p(s[j])
  {
    if s == [] then -1
    else if p(s[0]) then 0
    else
      var k := IndexOfFirst(s[1..], p);
      if k < 0 then -1 else k + 1
  }

  /** `s.firstOrNull(p)`. */
  function FirstOrNone<T>(s: seq<T>, p: T -> bool): Option<T> {
    var k := IndexOfFirst(s, p);
    if k >= 0 then Some(s[k]) else None
  }

  /** `s.filter(keep)`. */
  function Filter<T(==)>(s: seq<T>, keep: T -> bool): (r: seq<T>)
    ensures IsSubsequence(r, s)
    ensures forall i :: 0 <= i < |r| ==> keep(r[i])
    ensures multiset(r) <= multiset(s)
  {
    if s == [] then []
    else
      var rest := Filter(s[1..], keep);
      assert s == [s[0]] + s[1..];
      if keep(s[0]) then [s[0]] + rest else rest
  }

  /** Every element that passes the test is kept as often as it occurs. */
  lemma {:induction false} FilterKeepsMultiplicity<T>(s: seq<T>, keep: T -> bool)
    ensures forall i :: 0 <= i < |s| && keep(s[i]) ==>
      multiset(Filter(s, keep))[s[i]] == multiset(s)[s[i]]
  {
    if s != [] {
      FilterKeepsMultiplicity(s[1..], keep);
      assert s == [s[0]] + s[1..];
      assert forall i :: 1 <= i < |s| ==> s[i] == s[1..][i - 1];
    }
  }

  /** Filtering with a predicate every element satisfies changes nothing. */
  lemma {:induction false} FilterKeepsAll<T>(s: seq<T>, keep: T -> bool)
    requires forall i :: 0 <= i < |s| ==> keep(s[i])
    ensures Filter(s, keep) == s
  {
    if s != [] {
      FilterKeepsAll(s[1..], keep);
    }
  }
}
