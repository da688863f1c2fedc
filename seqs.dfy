/** The array operations the list views are built from: `filter` and `slice(0, n)`,
    with the order-preservation facts the views rely on. */
module Seqs {

  /** `s.filter(p)`: the elements satisfying `p`, in their original order. */
  function Filter<T>(s: seq<T>, p: T -> bool): (r: seq<T>)
    ensures |r| <= |s|
    ensures forall x | x in r :: x in s && p(x)
    ensures forall i | 0 <= i < |s| && p(s[i]) :: s[i] in r
  {
    if s == [] then []
    else
      var rest := Filter(s[1..], p);
      assert forall i | 1 <= i < |s| :: s[i] == s[1..][i - 1];
      if p(s[0]) then [s[0]] + rest else rest
  }

  /** A filter that keeps everything returns the sequence unchanged. */
  lemma {:induction false} FilterAll<T>(s: seq<T>, p: T -> bool)
    requires forall i | 0 <= i < |s| :: p(s[i])
    ensures Filter(s, p) == s
  {
    if s != [] {
      FilterAll(s[1..], p);
    }
  }

  /** `s.slice(0, n)`. */
  function Take<T>(s: seq<T>, n: nat): (r: seq<T>)
    ensures |r| == if |s| < n then |s| else n
    ensures r == s[..|r|]
    ensures forall x | x in r :: x in s
  {
    if |s| <= n then s else s[..n]
  }

  /** `r` can be obtained from `s` by deleting elements: `r` lists some of `s`'s elements in `s`'s order. */
  ghost predicate IsSubsequence<T>(r: seq<T>, s: seq<T>)
    decreases |s|
  {
    if r == [] then true
    else if s == [] then false
    else if r[0] == s[0] then IsSubsequence(r[1..], s[1..])
    else IsSubsequence(r, s[1..])
  }

  /** A filter keeps the survivors in their original order. */
  lemma {:induction false} FilterIsSubsequence<T>(s: seq<T>, p: T -> bool)
    ensures IsSubsequence(Filter(s, p), s)
  {
    if s != [] {
      FilterIsSubsequence(s[1..], p);
      var rest := Filter(s[1..], p);
      if !p(s[0]) && rest != [] {
        assert rest[0] in rest;
      }
    }
  }

  /** A filter keeps every copy of a value it accepts and no copy of one it rejects. */
  lemma {:induction false} FilterCount<T>(s: seq<T>, p: T -> bool, x: T)
    ensures multiset(Filter(s, p))[x] == if p(x) then multiset(s)[x] else 0
  {
    if s != [] {
      FilterCount(s[1..], p, x);
      assert s == [s[0]] + s[1..];
    }
  }

  /** Every prefix of a subsequence is a subsequence. */
  lemma {:induction false} PrefixOfSubsequence<T>(r: seq<T>, s: seq<T>, k: nat)
    requires IsSubsequence(r, s) && k <= |r|
    ensures IsSubsequence(r[..k], s)
    decreases |s|
  {
    if k > 0 {
      assert r[..k][0] == r[0];
      if r[0] == s[0] {
        PrefixOfSubsequence(r[1..], s[1..], k - 1);
        assert r[..k][1..] == r[1..][..k - 1];
      } else {
        PrefixOfSubsequence(r, s[1..], k);
      }
    }
  }

  /** Taking a prefix of a filter keeps the original order. */
  lemma TakeFilterIsSubsequence<T>(s: seq<T>, p: T -> bool, n: nat)
    ensures IsSubsequence(Take(Filter(s, p), n), s)
  {
    var f := Filter(s, p);
    FilterIsSubsequence(s, p);
    if |f| > n {
      PrefixOfSubsequence(f, s, n);
    } else {
      assert f[..|f|] == f;
      PrefixOfSubsequence(f, s, |f|);
    }
  }
}
