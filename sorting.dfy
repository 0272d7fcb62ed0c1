/**
 * `sorted(by: { key($0) > key($1) })` followed by `prefix(n)`: the ordering
 * used for newest-first attack lists and for the top triggers.  Swift does
 * not specify the order of elements with equal keys, so the contracts below
 * say nothing about it.
 */
module Sorting {

  /** Keys never increase from left to right. */
  predicate NonIncreasing<T>(s: seq<T>, key: T -> int) {
    forall i, j :: 0 <= i < j < |s| ==> key(s[i]) >= key(s[j])
  }

  /** Taking out the element at `i` takes one occurrence of it out of the multiset. */
  lemma MultisetRemoveAt<T>(s: seq<T>, i: nat)
    requires i < |s|
    ensures multiset(s[..i] + s[i + 1..]) == multiset(s) - multiset{s[i]}
  {
    assert s == s[..i] + [s[i]] + s[i + 1..];
  }

  /** Taking the head of one and its match out of the other keeps two reorderings alike. */
  lemma MatchingRest<T>(a: seq<T>, b: seq<T>, i: nat)
    requires multiset(a) == multiset(b) && a != [] && i < |b| && b[i] == a[0]
    ensures multiset(a[1..]) == multiset(b[..i] + b[i + 1..])
  {
    MultisetRemoveAt(a, 0);
    MultisetRemoveAt(b, i);
    assert a[..0] + a[1..] == a[1..];
  }

  /** The head of a non-increasing sequence is at least every later element. */
  lemma HeadAboveTail<T>(s: seq<T>, key: T -> int)
    requires NonIncreasing(s, key) && s != []
    ensures forall y :: y in s[1..] ==> key(s[0]) >= key(y)
  {
    forall y | y in s[1..] ensures key(s[0]) >= key(y) {
      var i :| 0 <= i < |s[1..]| && s[1..][i] == y;
      assert s[i + 1] == y;
    }
  }

  /** Putting an element at least as large as all others in front keeps the order. */
  lemma ConsNonIncreasing<T>(h: T, s: seq<T>, key: T -> int)
    requires NonIncreasing(s, key)
    requires forall y :: y in s ==> key(h) >= key(y)
    ensures NonIncreasing([h] + s, key)
  {
    var r := [h] + s;
    forall i, j | 0 <= i < j < |r| ensures key(r[i]) >= key(r[j]) {
      assert r[j] == s[j - 1];
      if i == 0 {
        assert s[j - 1] in s;
      } else {
        assert r[i] == s[i - 1];
      }
    }
  }

  /** `x` inserted before the first element with a smaller key. */
  function InsertByKey<T>(x: T, s: seq<T>, key: T -> int): (r: seq<T>)
    requires NonIncreasing(s, key)
    ensures multiset(r) == multiset(s) + multiset{x}
    ensures forall y :: y in r ==> y == x || y in s
    ensures NonIncreasing(r, key)
  {
    if s == [] then [x]
    else if key(x) >= key(s[0]) then
      HeadAboveTail(s, key);
      assert s == [s[0]] + s[1..];
      ConsNonIncreasing(x, s, key);
      [x] + s
    else
      var rest := InsertByKey(x, s[1..], key);
      HeadAboveTail(s, key);
      assert s == [s[0]] + s[1..];
      ConsNonIncreasing(s[0], rest, key);
      [s[0]] + rest
  }

  /** The elements of `s` rearranged so that keys never increase. */
  function SortByKeyDesc<T>(s: seq<T>, key: T -> int): (r: seq<T>)
    ensures multiset(r) == multiset(s)
    ensures NonIncreasing(r, key)
  {
    if s == [] then []
    else
      var r := InsertByKey(s[0], SortByKeyDesc(s[1..], key), key);
      assert s == [s[0]] + s[1..];
      r
  }

  function Min(a: int, b: int): int {
    if a <= b then a else b
  }

  /** In a non-increasing sequence, nothing after position `k` outranks anything before it. */
  lemma PrefixDominates<T>(sorted: seq<T>, key: T -> int, k: nat, x: T)
    requires NonIncreasing(sorted, key) && k <= |sorted| && x in sorted[k..]
    ensures forall y :: y in sorted[..k] ==> key(x) <= key(y)
  {
    var j :| k <= j < |sorted| && sorted[j] == x;
    forall y | y in sorted[..k] ensures key(x) <= key(y) {
      var i :| 0 <= i < k && sorted[i] == y;
    }
  }

  /**
   * The first `n` elements in descending key order: as many as there are
   * (up to `n`), drawn from `s`, keys never increasing, and nothing left out
   * has a larger key than anything kept.
   */
  function TopByKey<T>(s: seq<T>, key: T -> int, n: nat): (r: seq<T>)
    ensures |r| == Min(n, |s|)
    ensures multiset(r) <= multiset(s)
    ensures NonIncreasing(r, key)
    ensures forall x :: x in s && x !in r ==> |r| == n && forall y :: y in r ==> key(x) <= key(y)
  {
    var sorted := SortByKeyDesc(s, key);
    var k := Min(n, |s|);
    assert |sorted| == |multiset(sorted)| == |s|;
    forall x | x in s ensures x in sorted {
      assert x in multiset(s);
    }
    PrefixOfSorted(sorted, key, k);
    sorted[..k]
  }

  /** A prefix of a non-increasing sequence: in order, drawn from it, and outranking the rest. */
  lemma PrefixOfSorted<T>(sorted: seq<T>, key: T -> int, k: nat)
    requires NonIncreasing(sorted, key) && k <= |sorted|
    ensures multiset(sorted[..k]) <= multiset(sorted)
    ensures NonIncreasing(sorted[..k], key)
    ensures forall x :: x in sorted && x !in sorted[..k] ==>
              k < |sorted| && forall y :: y in sorted[..k] ==> key(x) <= key(y)
  {
    var r := sorted[..k];
    forall i, j | 0 <= i < j < |r| ensures key(r[i]) >= key(r[j]) {
      assert r[i] == sorted[i] && r[j] == sorted[j];
    }
    assert sorted == r + sorted[k..];
    assert multiset(sorted) == multiset(r) + multiset(sorted[k..]);
    forall x | x in sorted && x !in r
      ensures k < |sorted| && forall y :: y in r ==> key(x) <= key(y)
    {
      assert x in sorted[k..];
      PrefixDominates(sorted, key, k, x);
    }
  }

  /** A sequence without repeats holds each value at most once. */
  lemma {:induction false} NoRepeatsAtMostOnce<T>(s: seq<T>, x: T)
    requires forall i, j :: 0 <= i < j < |s| ==> s[i] != s[j]
    ensures multiset(s)[x] <= 1
  {
    if s != [] {
      assert s == [s[0]] + s[1..];
      NoRepeatsAtMostOnce(s[1..], x);
      if s[0] == x {
        assert x !in s[1..] by {
          forall k | 0 <= k < |s[1..]| ensures s[1..][k] != x {
            assert s[1..][k] == s[k + 1];
          }
        }
      }
    }
  }

  /** Drawn from a sequence without repeats, a sequence has none either. */
  lemma NoRepeatsInSubMultiset<T>(r: seq<T>, s: seq<T>)
    requires multiset(r) <= multiset(s)
    requires forall i, j :: 0 <= i < j < |s| ==> s[i] != s[j]
    ensures forall i, j :: 0 <= i < j < |r| ==> r[i] != r[j]
  {
    forall i, j | 0 <= i < j < |r| ensures r[i] != r[j] {
      if r[i] == r[j] {
        var x := r[i];
        assert r == r[..i] + [x] + r[i + 1..j] + [x] + r[j + 1..];
        assert multiset(r)[x] >= 2;
        NoRepeatsAtMostOnce(s, x);
        assert false;
      }
    }
  }
}
