/**
 * The array operations the news service relies on: `filter` and
 * `slice(0, end)`, with subsequence as their reference notion of
 * "same elements, same relative order".
 */
module Sequences {

  /** `a` is obtained from `b` by deleting elements (order is kept). */
  ghost predicate IsSubseq<T>(a: seq<T>, b: seq<T>)
    decreases |b|
  {
    a == [] || (b != [] && ((a[0] == b[0] && IsSubseq(a[1..], b[1..])) || IsSubseq(a, b[1..])))
  }

  /** `Array.prototype.filter`. */
  function Keep<T>(s: seq<T>, p: T -> bool): seq<T>
  {
    if s == [] then [] else (if p(s[0]) then [s[0]] else []) + Keep(s[1..], p)
  }

  /** An element survives `filter` exactly when it was there and passes the test. */
  lemma {:induction false} KeepMembership<T>(s: seq<T>, p: T -> bool)
    ensures forall x :: x in Keep(s, p) <==> x in s && p(x)
  {
    if s != [] {
      KeepMembership(s[1..], p);
      assert s == [s[0]] + s[1..];
    }
  }

  /** `filter` keeps the relative order of what it keeps. */
  lemma {:induction false} KeepSubseq<T>(s: seq<T>, p: T -> bool)
    ensures IsSubseq(Keep(s, p), s)
  {
    if s != [] {
      KeepSubseq(s[1..], p);
      if p(s[0]) {
        assert Keep(s, p) == [s[0]] + Keep(s[1..], p);
        assert Keep(s, p)[0] == s[0] && Keep(s, p)[1..] == Keep(s[1..], p);
        assert IsSubseq(Keep(s, p)[1..], s[1..]);
      } else {
        assert Keep(s, p) == Keep(s[1..], p);
      }
    }
  }

  /** A test no element passes removes everything. */
  lemma {:induction false} KeepNone<T>(s: seq<T>, p: T -> bool)
    requires forall i :: 0 <= i < |s| ==> !p(s[i])
    ensures Keep(s, p) == []
  {
    if s != [] {
      KeepNone(s[1..], p);
    }
  }

  /** The end index `slice(0, end)` actually uses: negative ends count from the back. */
  function SliceEnd(len: nat, end: int): (e: nat)
    ensures e <= len
    ensures 0 <= end <= len ==> e == end
    ensures end > len ==> e == len
  {
    if end < 0 then (if len + end < 0 then 0 else len + end)
    else if end > len then len
    else end
  }

  /** `Array.prototype.slice(0, end)`. */
  function SliceTo<T>(s: seq<T>, end: int): (r: seq<T>)
    ensures r <= s
  {
    s[..SliceEnd(|s|, end)]
  }

  /** The first `min(n, |s|)` elements: what `slice(0, n)` means for `n >= 0`. */
  function Prefix<T>(s: seq<T>, n: nat): (r: seq<T>)
    ensures r <= s
    ensures |r| == if n <= |s| then n else |s|
  {
    if n <= |s| then s[..n] else s
  }

  lemma SliceToNonNegative<T>(s: seq<T>, n: nat)
    ensures SliceTo(s, n) == Prefix(s, n)
  {
  }
}
