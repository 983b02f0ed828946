/**
 * The display ordering shared by the bookings and logs pages:
 * `[...xs].sort((a, b) => key(b) - key(a))`. JavaScript's `Array.prototype.sort`
 * is stable, so the result is the stable arrangement of the copy with keys
 * non-increasing. It is defined here by insertion and then characterised:
 * a permutation, non-increasing, order-preserving among equal keys, and the
 * only sequence with those three properties.
 */
module Ordering {

  predicate NonIncreasing<T>(s: seq<T>, key: T -> int) {
    forall i, j :: 0 <= i < j < |s| ==> key(s[i]) >= key(s[j])
  }

  /** The elements of `s` whose key is `k`, in their order in `s`. */
  function WithKey<T>(s: seq<T>, key: T -> int, k: int): seq<T> {
    if s == [] then []
    else if key(s[0]) == k then [s[0]] + WithKey(s[1..], key, k)
    else WithKey(s[1..], key, k)
  }

  /** Puts `x` in front of the first element whose key is not larger than its own. */
  function Insert<T>(x: T, s: seq<T>, key: T -> int): (r: seq<T>)
    ensures |r| == |s| + 1
    ensures multiset(r) == multiset(s) + multiset{x}
    ensures r[0] == x || (s != [] && r[0] == s[0])
  {
    if s == [] || key(s[0]) <= key(x) then [x] + s
    else
      assert s == [s[0]] + s[1..];
      [s[0]] + Insert(x, s[1..], key)
  }

  lemma {:induction false} InsertNonIncreasing<T>(x: T, s: seq<T>, key: T -> int)
    requires NonIncreasing(s, key)
    ensures NonIncreasing(Insert(x, s, key), key)
  {
    if s != [] && key(s[0]) > key(x) {
      var t := Insert(x, s[1..], key);
      InsertNonIncreasing(x, s[1..], key);
      assert key(t[0]) <= key(s[0]);
      assert Insert(x, s, key) == [s[0]] + t;
    }
  }

  /** The copy-and-sort of the pages, newest (largest key) first. */
  function SortDesc<T>(s: seq<T>, key: T -> int): (r: seq<T>)
    ensures |r| == |s|
    ensures multiset(r) == multiset(s)
    ensures NonIncreasing(r, key)
  {
    if s == [] then []
    else
      assert s == [s[0]] + s[1..];
      InsertNonIncreasing(s[0], SortDesc(s[1..], key), key);
      Insert(s[0], SortDesc(s[1..], key), key)
  }

  lemma {:induction false} InsertWithKey<T>(x: T, s: seq<T>, key: T -> int, k: int)
    ensures WithKey(Insert(x, s, key), key, k)
         == (if key(x) == k then [x] else []) + WithKey(s, key, k)
  {
    if s == [] || key(s[0]) <= key(x) {
      assert ([x] + s)[1..] == s;
    } else {
      assert ([s[0]] + Insert(x, s[1..], key))[1..] == Insert(x, s[1..], key);
      InsertWithKey(x, s[1..], key, k);
    }
  }

  /** Stability: among elements with equal keys the sorted copy keeps the input order. */
  lemma {:induction false} SortDescStable<T>(s: seq<T>, key: T -> int, k: int)
    ensures WithKey(SortDesc(s, key), key, k) == WithKey(s, key, k)
  {
    if s != [] {
      InsertWithKey(s[0], SortDesc(s[1..], key), key, k);
      SortDescStable(s[1..], key, k);
    }
  }

  lemma {:induction false} WithKeyMember<T>(s: seq<T>, key: T -> int, k: int, i: nat)
    requires i < |s| && key(s[i]) == k
    ensures WithKey(s, key, k) != []
  {
    if key(s[0]) != k { WithKeyMember(s[1..], key, k, i - 1); }
  }

  lemma WithKeyHead<T>(s: seq<T>, key: T -> int)
    requires s != []
    ensures WithKey(s, key, key(s[0])) != []
  {
  }

  lemma {:induction false} WithKeyOrigin<T>(s: seq<T>, key: T -> int, k: int)
    requires WithKey(s, key, k) != []
    ensures exists i :: 0 <= i < |s| && key(s[i]) == k
  {
    if key(s[0]) != k {
      WithKeyOrigin(s[1..], key, k);
      var i :| 0 <= i < |s[1..]| && key(s[1..][i]) == k;
      assert key(s[i + 1]) == k;
    }
  }

  /**
   * Two non-increasing sequences that agree on the elements of every key are
   * equal. So any stable descending sort of a list, however implemented,
   * produces exactly `SortDesc` of it.
   */
  lemma {:induction false} StableSortUnique<T>(a: seq<T>, b: seq<T>, key: T -> int)
    requires NonIncreasing(a, key) && NonIncreasing(b, key)
    requires forall k :: WithKey(a, key, k) == WithKey(b, key, k)
    ensures a == b
    decreases |a|
  {
    if a == [] || b == [] {
      if a != [] { WithKeyHead(a, key); assert false; }
      if b != [] { WithKeyHead(b, key); assert false; }
    } else {
      var ka, kb := key(a[0]), key(b[0]);
      WithKeyMember(b, key, kb, 0);
      assert WithKey(a, key, kb) == WithKey(b, key, kb);
      WithKeyOrigin(a, key, kb);
      WithKeyMember(a, key, ka, 0);
      assert WithKey(b, key, ka) == WithKey(a, key, ka);
      WithKeyOrigin(b, key, ka);
      assert ka == kb;
      var ta, tb := WithKey(a[1..], key, ka), WithKey(b[1..], key, ka);
      assert [a[0]] + ta == WithKey(a, key, ka) == WithKey(b, key, ka) == [b[0]] + tb;
      assert a[0] == ([a[0]] + ta)[0] == ([b[0]] + tb)[0] == b[0];
      assert ta == ([a[0]] + ta)[1..] == ([b[0]] + tb)[1..] == tb;
      forall k ensures WithKey(a[1..], key, k) == WithKey(b[1..], key, k) {
        assert WithKey(a, key, k) == WithKey(b, key, k);
      }
      StableSortUnique(a[1..], b[1..], key);
      assert a == [a[0]] + a[1..];
      assert b == [b[0]] + b[1..];
    }
  }

  /** A list already newest-first (stably) is left as it is by the sort. */
  lemma SortDescOfSorted<T>(s: seq<T>, key: T -> int)
    requires NonIncreasing(s, key)
    ensures SortDesc(s, key) == s
  {
    forall k ensures WithKey(SortDesc(s, key), key, k) == WithKey(s, key, k) {
      SortDescStable(s, key, k);
    }
    StableSortUnique(SortDesc(s, key), s, key);
  }
}
