/** The array library operations the screens lean on (`filter`, `slice`,
    `reverse`), as functions on sequences with the facts callers need. */
module Sequences {

  /** `r` is `s` with some elements dropped and the rest kept in order. */
  predicate IsSubsequence<T(==)>(r: seq<T>, s: seq<T>)
    decreases |s|
  {
    r == [] || (s != [] && if r[0] == s[0] then IsSubsequence(r[1..], s[1..]) else IsSubsequence(r, s[1..]))
  }

  /** Every sequence is a subsequence of itself. */
  lemma {:induction false} IsSubsequenceRefl<T>(s: seq<T>)
    ensures IsSubsequence(s, s)
  {
    if s != [] {
      IsSubsequenceRefl(s[1..]);
    }
  }

  /** `Array.prototype.filter`: the elements satisfying `f`, in their original order. */
  function Filter<T(==)>(s: seq<T>, f: T -> bool): (r: seq<T>)
    ensures |r| <= |s|
    ensures forall x :: x in r ==> x in s && f(x)
    ensures forall x :: x in s && f(x) ==> x in r
    ensures IsSubsequence(r, s)
  {
    if s == [] then []
    else if f(s[0]) then [s[0]] + Filter(s[1..], f)
    else Filter(s[1..], f)
  }

  lemma {:induction false} FilterConcat<T>(a: seq<T>, b: seq<T>, f: T -> bool)
    ensures Filter(a + b, f) == Filter(a, f) + Filter(b, f)
  {
    if a == [] {
      assert a + b == b;
    } else {
      assert (a + b)[0] == a[0];
      assert (a + b)[1..] == a[1..] + b;
      FilterConcat(a[1..], b, f);
    }
  }

  /** Filtering keeps everything exactly when every element passes. */
  lemma {:induction false} FilterAll<T>(s: seq<T>, f: T -> bool)
    requires forall x :: x in s ==> f(x)
    ensures Filter(s, f) == s
  {
    if s != [] {
      FilterAll(s[1..], f);
    }
  }

  /** `arr.slice(0, n)`: the first `n` elements, or all of them when fewer. */
  function Take<T>(s: seq<T>, n: nat): (r: seq<T>)
    ensures |r| == if n <= |s| then n else |s|
    ensures r <= s
  {
    if n <= |s| then s[..n] else s
  }

  /** `filter(f).slice(0, n)` keeps the passing elements of a prefix of `s`:
      either that prefix is all of `s`, or exactly `n` elements passed in it. */
  lemma {:induction false} TakeFilterPrefix<T>(s: seq<T>, f: T -> bool, n: nat)
    ensures exists k :: 0 <= k <= |s| && Take(Filter(s, f), n) == Filter(s[..k], f)
                        && (k < |s| ==> |Take(Filter(s, f), n)| == n)
    decreases |s|
  {
    if s == [] || n == 0 {
      assert s[..0] == [];
      assert Take(Filter(s, f), n) == Filter(s[..0], f);
    } else {
      var m: nat := if f(s[0]) then n - 1 else n;
      TakeFilterPrefix(s[1..], f, m);
      var j :| 0 <= j <= |s[1..]| && Take(Filter(s[1..], f), m) == Filter(s[1..][..j], f)
               && (j < |s[1..]| ==> |Take(Filter(s[1..], f), m)| == m);
      var prefix := s[..j + 1];
      assert prefix[0] == s[0] && prefix[1..] == s[1..][..j];
      if f(s[0]) {
        var rest := Filter(s[1..], f);
        assert Filter(s, f) == [s[0]] + rest;
        assert Filter(prefix, f) == [s[0]] + Filter(s[1..][..j], f);
        if n <= |rest| + 1 {
          assert ([s[0]] + rest)[..n] == [s[0]] + rest[..n - 1];
        }
        assert Take(Filter(s, f), n) == [s[0]] + Take(rest, m);
      } else {
        assert Filter(s, f) == Filter(s[1..], f);
        assert Filter(prefix, f) == Filter(s[1..][..j], f);
      }
      assert Take(Filter(s, f), n) == Filter(s[..j + 1], f);
    }
  }

  /** `arr.slice().reverse()`: a reversed copy. */
  function Reverse<T>(s: seq<T>): (r: seq<T>)
    ensures |r| == |s|
    ensures forall i :: 0 <= i < |s| ==> r[i] == s[|s| - 1 - i]
    ensures multiset(r) == multiset(s)
  {
    if s == [] then []
    else
      assert s == [s[0]] + s[1..];
      Reverse(s[1..]) + [s[0]]
  }
}
