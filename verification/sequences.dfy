/**
 * Sequence operations shared by the order queries and the product reducer:
 * JavaScript's Array.prototype.filter, a first-match search (MongoDB findOne
 * over the natural order), JavaScript's slice with non-negative bounds and the
 * skip/limit paging used by the list endpoints.
 */
module Sequences {
  import opened Wrappers

  /** A 1-based page number or a page size. */
  type Positive = n: int | 1 <= n witness 1

  /** a is obtained from b by deleting elements, keeping the order of the rest. */
  predicate IsSubsequence<T(==)>(a: seq<T>, b: seq<T>)
    decreases |b|
  {
    a == [] ||
    (b != [] && ((a[0] == b[0] && IsSubsequence(a[1..], b[1..])) || IsSubsequence(a, b[1..])))
  }

  /** The elements of s that satisfy keep, in their original order. */
  function Filter<T(==,!new)>(s: seq<T>, keep: T -> bool): (r: seq<T>)
    ensures |r| <= |s|
    ensures forall x :: x in r <==> x in s && keep(x)
    ensures IsSubsequence(r, s)
  {
    if s == [] then []
    else
      var rest := Filter(s[1..], keep);
      assert s == [s[0]] + s[1..];
      if keep(s[0]) then
        assert ([s[0]] + rest)[1..] == rest;
        [s[0]] + rest
      else
        rest
  }

  /** Filtering keeps every occurrence of a kept value and none of a dropped one. */
  lemma {:induction false} FilterMultiplicity<T(!new)>(s: seq<T>, keep: T -> bool, x: T)
    ensures multiset(Filter(s, keep))[x] == if keep(x) then multiset(s)[x] else 0
  {
    if s != [] {
      FilterMultiplicity(s[1..], keep, x);
      assert s == [s[0]] + s[1..];
    }
  }

  /** Filtering twice with the same predicate is filtering once. */
  lemma {:induction false} FilterIdempotent<T(!new)>(s: seq<T>, keep: T -> bool)
    ensures Filter(Filter(s, keep), keep) == Filter(s, keep)
  {
    if s != [] {
      FilterIdempotent(s[1..], keep);
    }
  }

  /** A filter that keeps every element returns the sequence itself. */
  lemma {:induction false} FilterKeepsAll<T(!new)>(s: seq<T>, keep: T -> bool)
    requires forall k :: 0 <= k < |s| ==> keep(s[k])
    ensures Filter(s, keep) == s
  {
    if s != [] {
      FilterKeepsAll(s[1..], keep);
    }
  }

  /** A filter that keeps no element returns the empty sequence. */
  lemma {:induction false} FilterKeepsNone<T(!new)>(s: seq<T>, keep: T -> bool)
    requires forall k :: 0 <= k < |s| ==> !keep(s[k])
    ensures Filter(s, keep) == []
  {
    if s != [] {
      FilterKeepsNone(s[1..], keep);
    }
  }

  /** Filtering keeps pairwise-distinct keys pairwise distinct. */
  lemma {:induction false} FilterKeepsDistinct<T(!new), K>(s: seq<T>, keep: T -> bool, key: T -> K)
    requires Distinct(s, key)
    ensures Distinct(Filter(s, keep), key)
  {
    if s != [] {
      var tail := s[1..];
      assert Distinct(tail, key) by {
        forall i, j | 0 <= i < j < |tail| ensures key(tail[i]) != key(tail[j]) {
          assert tail[i] == s[i + 1] && tail[j] == s[j + 1];
        }
      }
      FilterKeepsDistinct(tail, keep, key);
      if keep(s[0]) {
        var rest := Filter(tail, keep);
        forall x | x in rest
          ensures key(x) != key(s[0])
        {
          assert x in tail;
          var k :| 0 <= k < |tail| && tail[k] == x;
          assert s[k + 1] == x;
        }
        DistinctCons(s[0], rest, key);
      }
    }
  }

  /** No two elements of s share a key. */
  ghost predicate Distinct<T, K>(s: seq<T>, key: T -> K)
  {
    forall i, j :: 0 <= i < j < |s| ==> key(s[i]) != key(s[j])
  }

  /** Prepending an element whose key is new keeps keys distinct. */
  lemma DistinctCons<T, K>(x: T, s: seq<T>, key: T -> K)
    requires Distinct(s, key)
    requires forall y :: y in s ==> key(y) != key(x)
    ensures Distinct([x] + s, key)
  {
    var r := [x] + s;
    forall i, j | 0 <= i < j < |r| ensures key(r[i]) != key(r[j]) {
      assert r[j] == s[j - 1];
      if i > 0 {
        assert r[i] == s[i - 1];
      } else {
        assert s[j - 1] in s;
      }
    }
  }

  /** The index of the first element of s that satisfies p, if any. */
  function FindFirst<T>(s: seq<T>, p: T -> bool): (r: Option<nat>)
    ensures r.Some? ==> r.value < |s| && p(s[r.value])
    ensures r.Some? ==> forall j :: 0 <= j < r.value ==> !p(s[j])
    ensures r.None? <==> forall j :: 0 <= j < |s| ==> !p(s[j])
  {
    if s == [] then None
    else if p(s[0]) then Some(0)
    else match FindFirst(s[1..], p)
      case None => None
      case Some(i) => Some(i + 1)
  }

  /** JavaScript's s.slice(begin, end) for non-negative begin and end. */
  function Slice<T>(s: seq<T>, begin: nat, end: nat): (r: seq<T>)
    ensures |r| == if begin < end && begin < |s| then (if end < |s| then end else |s|) - begin else 0
    ensures forall k :: 0 <= k < |r| ==> r[k] == s[begin + k]
  {
    if begin >= |s| || end <= begin then []
    else if end < |s| then s[begin..end]
    else s[begin..]
  }

  /** The offset (page - 1) * limit of a 1-based page. */
  function Offset(page: Positive, limit: Positive): nat
  {
    (page - 1) * limit
  }

  /** How many of n elements fall on page `page` of size `limit`. */
  function PageLength(n: nat, page: Positive, limit: Positive): nat
  {
    if Offset(page, limit) < n then
      (if n - Offset(page, limit) < limit then n - Offset(page, limit) else limit)
    else 0
  }

  /** Page `page` of size `limit`: skip (page - 1) * limit, then take at most limit. */
  function Page<T>(s: seq<T>, page: Positive, limit: Positive): (r: seq<T>)
    ensures |r| <= limit
    ensures |r| == PageLength(|s|, page, limit)
    ensures forall k :: 0 <= k < |r| ==> Offset(page, limit) + k < |s| && r[k] == s[Offset(page, limit) + k]
  {
    Slice(s, Offset(page, limit), Offset(page, limit) + limit)
  }

  /** Every element shows up on page k / limit + 1, at position k % limit. */
  lemma PageCovers<T>(s: seq<T>, limit: Positive, k: nat)
    requires k < |s|
    ensures var p := Page(s, k / limit + 1, limit);
      k % limit < |p| && p[k % limit] == s[k]
  {
    var q, m := k / limit, k % limit;
    assert k == q * limit + m;
    assert Offset(q + 1, limit) == q * limit;
  }
}
