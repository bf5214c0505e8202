/**
 * Sequence operations that stand for the query engine's filter, findOne,
 * sort-descending and limit, written once and used by both route files.
 */
module Seqs {
  import opened Wrappers

  /** `a` is obtained from `b` by deleting elements, so `a` keeps the order of `b`. */
  predicate Subsequence<T(==)>(a: seq<T>, b: seq<T>)
    decreases |b|
  {
    if a == [] then true
    else if b == [] then false
    else if a[0] == b[0] then Subsequence(a[1..], b[1..])
    else Subsequence(a, b[1..])
  }

  /** The elements of `s` that satisfy `p`, in their original order and multiplicity. */
  function Filter<T(==,!new)>(s: seq<T>, p: T -> bool): (r: seq<T>)
    ensures forall x :: x in r <==> x in s && p(x)
    ensures forall x :: multiset(r)[x] == if p(x) then multiset(s)[x] else 0
    ensures Subsequence(r, s)
  {
    if s == [] then []
    else
      assert s == [s[0]] + s[1..];
      var rest := Filter(s[1..], p);
      if p(s[0]) then
        assert ([s[0]] + rest)[1..] == rest;
        [s[0]] + rest
      else
        assert rest != [] ==> rest[0] != s[0] by {
          if rest != [] { assert rest[0] in rest; }
        }
        rest
  }

  /** The index of the first element of `s` that satisfies `p`, like a findOne. */
  function Find<T>(s: seq<T>, p: T -> bool): (r: Option<nat>)
    ensures r.Some? ==> r.value < |s| && p(s[r.value])
    ensures r.Some? ==> forall j :: 0 <= j < r.value ==> !p(s[j])
    ensures r.None? <==> forall j :: 0 <= j < |s| ==> !p(s[j])
  {
    if s == [] then None
    else if p(s[0]) then Some(0)
    else
      match Find(s[1..], p)
      case None => None
      case Some(k) => Some(k + 1)
  }

  /** Every element of `s` has a key no smaller than the key of any element after it. */
  ghost predicate SortedDesc<T>(s: seq<T>, key: T -> int) {
    forall i, j :: 0 <= i < j < |s| ==> key(s[i]) >= key(s[j])
  }

  /** Inserts `x` into the descending sequence `s` ahead of the first element with a smaller key. */
  function InsertDesc<T(==)>(x: T, s: seq<T>, key: T -> int): (r: seq<T>)
    requires SortedDesc(s, key)
    ensures SortedDesc(r, key)
    ensures multiset(r) == multiset(s) + multiset{x}
    ensures forall y :: y in r ==> y == x || y in s
    decreases |s|
  {
    if s == [] || key(x) >= key(s[0]) then [x] + s
    else
      assert s == [s[0]] + s[1..];
      var t := InsertDesc(x, s[1..], key);
      assert forall k :: 0 <= k < |t| ==> key(t[k]) <= key(s[0]) by {
        forall k | 0 <= k < |t| ensures key(t[k]) <= key(s[0]) {
          assert t[k] in t;
          if t[k] != x {
            var j :| 0 <= j < |s[1..]| && s[1..][j] == t[k];
            assert s[j + 1] == t[k];
          }
        }
      }
      var r := [s[0]] + t;
      assert forall i, j :: 0 <= i < j < |r| ==> key(r[i]) >= key(r[j]) by {
        forall i, j | 0 <= i < j < |r| ensures key(r[i]) >= key(r[j]) {
          assert r[j] == t[j - 1];
          if i > 0 { assert r[i] == t[i - 1]; }
        }
      }
      r
  }

  /** `s` rearranged so that keys descend (newest first, when the key is a time). */
  function SortDesc<T(==)>(s: seq<T>, key: T -> int): (r: seq<T>)
    ensures SortedDesc(r, key)
    ensures multiset(r) == multiset(s)
  {
    if s == [] then []
    else
      assert s == [s[0]] + s[1..];
      InsertDesc(s[0], SortDesc(s[1..], key), key)
  }

  /** A prefix of a descending sequence holds its largest keys. */
  lemma PrefixHoldsLargest<T(!new)>(sorted: seq<T>, key: T -> int, m: nat)
    requires SortedDesc(sorted, key) && m <= |sorted|
    ensures forall x, i :: x in sorted && x !in sorted[..m] && 0 <= i < m ==> key(x) <= key(sorted[i])
  {
    forall x, i | x in sorted && x !in sorted[..m] && 0 <= i < m
      ensures key(x) <= key(sorted[i])
    {
      var k :| 0 <= k < |sorted| && sorted[k] == x;
    }
  }

  /**
   * At most `n` elements of `s` with the largest keys, largest first: a
   * sort-descending followed by a limit.
   */
  function Largest<T(==,!new)>(s: seq<T>, key: T -> int, n: nat): (r: seq<T>)
    ensures |r| == if |s| <= n then |s| else n
    ensures SortedDesc(r, key)
    ensures multiset(r) <= multiset(s)
    ensures |s| <= n ==> multiset(r) == multiset(s)
    ensures forall x :: x in s && x !in r ==> |r| == n
    ensures forall x, i :: x in s && x !in r && 0 <= i < |r| ==> key(x) <= key(r[i])
  {
    var sorted := SortDesc(s, key);
    var m := if |s| <= n then |s| else n;
    assert |sorted| == |s| by { assert |multiset(sorted)| == |multiset(s)|; }
    assert sorted == sorted[..m] + sorted[m..];
    assert multiset(sorted) == multiset(sorted[..m]) + multiset(sorted[m..]);
    assert forall x :: x in s <==> x in sorted by {
      forall x ensures x in s <==> x in sorted {
        assert x in s <==> x in multiset(s);
        assert x in sorted <==> x in multiset(sorted);
      }
    }
    assert |s| <= n ==> sorted[..m] == sorted;
    PrefixHoldsLargest(sorted, key, m);
    sorted[..m]
  }
}
