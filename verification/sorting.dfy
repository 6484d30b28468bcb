/** A stable sort into non-increasing order of a real-valued key.

    `Array.prototype.sort` with a comparator `(a, b) => key(b) - key(a)` is stable
    (ECMAScript 2019, section 23.1.3.30), so the result it computes is pinned down by three
    facts: it is ordered by non-increasing key, it is a permutation of the input, and,
    for every key value, the elements carrying that value keep their input order. The
    insertion sort below establishes all three. */
module Sorting {

  /** `s` is ordered by non-increasing `key`. */
  ghost predicate SortedDesc<T>(s: seq<T>, key: T -> real) {
    forall i, j :: 0 <= i < j < |s| ==> key(s[i]) >= key(s[j])
  }

  /** The subsequence of `s` whose key equals `k`: the order a stable sort must keep. */
  function WithKey<T>(s: seq<T>, key: T -> real, k: real): seq<T> {
    if |s| == 0 then []
    else (if key(s[0]) == k then [s[0]] else []) + WithKey(s[1..], key, k)
  }

  /** Places `x` in front of the first element whose key is not larger than its own. */
  function Insert<T>(x: T, s: seq<T>, key: T -> real): (r: seq<T>)
    requires SortedDesc(s, key)
    ensures SortedDesc(r, key)
    ensures multiset(r) == multiset(s) + multiset{x}
    ensures |r| == |s| + 1
    ensures r[0] == if |s| == 0 || key(x) >= key(s[0]) then x else s[0]
  {
    if |s| == 0 || key(x) >= key(s[0]) then
      [x] + s
    else
      var tail := Insert(x, s[1..], key);
      assert s == [s[0]] + s[1..];
      assert key(s[0]) >= key(tail[0]);
      [s[0]] + tail
  }

  /** Inserting `x` adds it at the front of its key class and leaves every other class alone. */
  lemma {:induction false} InsertStable<T>(x: T, s: seq<T>, key: T -> real, k: real)
    requires SortedDesc(s, key)
    ensures WithKey(Insert(x, s, key), key, k) == (if key(x) == k then [x] else []) + WithKey(s, key, k)
  {
    if |s| == 0 || key(x) >= key(s[0]) {
      assert Insert(x, s, key) == [x] + s;
      WithKeyCons(x, s, key, k);
    } else {
      var tail := Insert(x, s[1..], key);
      assert Insert(x, s, key) == [s[0]] + tail;
      InsertStable(x, s[1..], key, k);
      assert s == [s[0]] + s[1..];
      ConsPastOther(s[0], x, tail, s[1..], key, k);
    }
  }

  /** Putting an element with a different key than `x` in front of both sides keeps
      "`x` first among key `k`" true. */
  lemma ConsPastOther<T>(y: T, x: T, tail: seq<T>, rest: seq<T>, key: T -> real, k: real)
    requires key(y) != key(x)
    requires WithKey(tail, key, k) == (if key(x) == k then [x] else []) + WithKey(rest, key, k)
    ensures WithKey([y] + tail, key, k) == (if key(x) == k then [x] else []) + WithKey([y] + rest, key, k)
  {
    WithKeyCons(y, tail, key, k);
    WithKeyCons(y, rest, key, k);
  }

  lemma WithKeyCons<T>(y: T, rest: seq<T>, key: T -> real, k: real)
    ensures WithKey([y] + rest, key, k) == (if key(y) == k then [y] else []) + WithKey(rest, key, k)
  {
    assert ([y] + rest)[1..] == rest;
  }

  /** Stable insertion sort by non-increasing key. */
  function SortDesc<T>(s: seq<T>, key: T -> real): (r: seq<T>)
    ensures SortedDesc(r, key)
    ensures multiset(r) == multiset(s)
    ensures |r| == |s|
    ensures forall k :: WithKey(r, key, k) == WithKey(s, key, k)
  {
    if |s| == 0 then []
    else
      var rest := SortDesc(s[1..], key);
      var r := Insert(s[0], rest, key);
      assert s == [s[0]] + s[1..];
      assert forall k :: WithKey(r, key, k) == WithKey(s, key, k) by {
        forall k ensures WithKey(r, key, k) == WithKey(s, key, k) {
          InsertStable(s[0], rest, key, k);
        }
      }
      r
  }

  /** Sorting keeps exactly the elements of the input. */
  lemma SortedMembers<T>(s: seq<T>, key: T -> real, x: T)
    ensures x in SortDesc(s, key) <==> x in s
  {
    var r := SortDesc(s, key);
    assert x in r <==> x in multiset(r);
    assert x in s <==> x in multiset(s);
  }
}
