/**
 * Kotlin list operations the core uses: `take(n)` and the stable sorts `sortedBy` /
 * `sortedByDescending` (a descending sort is an ascending sort on the negated key).
 */
module Seqs {
  import opened Nullable

  /** `take(n)`: the first `n` elements, or all of them when there are fewer. */
  function Take<T>(s: seq<T>, n: nat): (r: seq<T>)
    ensures |r| == if |s| <= n then |s| else n
    ensures r == s[..|r|]
  {
    if |s| <= n then s else s[..n]
  }

  /** Growing a prefix by one element. */
  lemma PrefixStep<T>(s: seq<T>, i: nat)
    requires i < |s|
    ensures s[..i + 1] == s[..i] + [s[i]]
  {
  }

  /** The prefix of length `i + 1` is the prefix of length `i` followed by `s[i]`, seen from its last element. */
  lemma PrefixLast<T>(s: seq<T>, i: nat)
    requires i < |s|
    ensures |s[..i + 1]| == i + 1
    ensures s[..i + 1][..|s[..i + 1]| - 1] == s[..i] && s[..i + 1][|s[..i + 1]| - 1] == s[i]
  {
  }

  /** `s.map(f)` for a conversion that may fail: all converted, in order, or nothing. */
  function MapAll<A, B>(s: seq<A>, f: A -> Option<B>): (r: Option<seq<B>>)
    ensures r.Some? <==> forall i :: 0 <= i < |s| ==> f(s[i]).Some?
    ensures r.Some? ==> |r.value| == |s| && forall i :: 0 <= i < |s| ==> f(s[i]) == Some(r.value[i])
  {
    if s == [] then Some([])
    else
      var head := f(s[0]);
      var tail := MapAll(s[1..], f);
      if head.Some? && tail.Some? then
        var r := [head.value] + tail.value;
        assert forall i :: 1 <= i < |s| ==> s[i] == s[1..][i - 1] && r[i] == tail.value[i - 1];
        Some(r)
      else
        assert !(forall i :: 0 <= i < |s| ==> f(s[i]).Some?) by {
          if head.Some? {
            var j :| 0 <= j < |s[1..]| && !f(s[1..][j]).Some?;
            assert s[1..][j] == s[j + 1];
          }
        }
        None
  }

  /** `s` is in ascending order of `key`. */
  ghost predicate SortedBy<T>(s: seq<T>, key: T -> int) {
    forall i, j :: 0 <= i < j < |s| ==> key(s[i]) <= key(s[j])
  }

  /** The elements of `s` whose key is `k`, in their order in `s`. */
  function WithKey<T>(s: seq<T>, key: T -> int, k: int): (r: seq<T>)
    ensures forall x :: x in r ==> x in s && key(x) == k
    ensures |r| <= |s|
  {
    if s == [] then [] else (if key(s[0]) == k then [s[0]] else []) + WithKey(s[1..], key, k)
  }

  /** Places `x` into the sorted `s` after every element whose key is smaller than `x`'s. */
  function Insert<T>(x: T, s: seq<T>, key: T -> int): (r: seq<T>)
    requires SortedBy(s, key)
    ensures |r| == |s| + 1
    ensures multiset(r) == multiset(s) + multiset{x}
    ensures SortedBy(r, key)
  {
    if s == [] || key(x) <= key(s[0]) then
      InsertFront(x, s, key);
      [x] + s
    else
      var tail := Insert(x, s[1..], key);
      assert s == [s[0]] + s[1..];
      InsertBehind(x, s, key, tail);
      [s[0]] + tail
  }

  /** `x` goes in front when its key is no larger than the first one. */
  lemma InsertFront<T>(x: T, s: seq<T>, key: T -> int)
    requires SortedBy(s, key) && (s == [] || key(x) <= key(s[0]))
    ensures SortedBy([x] + s, key)
  {
    forall j | 0 <= j < |s|
      ensures key(x) <= key(s[j])
    {
      assert key(s[0]) <= key(s[j]);
    }
    ConsSorted(x, s, key);
  }

  /** The first element stays in front of the sorted rest with `x` placed into it. */
  lemma InsertBehind<T>(x: T, s: seq<T>, key: T -> int, tail: seq<T>)
    requires s != [] && SortedBy(s, key) && key(s[0]) < key(x)
    requires SortedBy(tail, key) && multiset(tail) == multiset(s[1..]) + multiset{x}
    ensures SortedBy([s[0]] + tail, key)
  {
    forall j | 0 <= j < |tail|
      ensures key(s[0]) <= key(tail[j])
    {
      assert tail[j] in multiset(s[1..]) + multiset{x};
      if tail[j] != x {
        assert tail[j] in s[1..];
      }
    }
    ConsSorted(s[0], tail, key);
  }

  /** An element no larger than every element of a sorted list can go in front of it. */
  lemma ConsSorted<T>(y: T, t: seq<T>, key: T -> int)
    requires SortedBy(t, key)
    requires forall j :: 0 <= j < |t| ==> key(y) <= key(t[j])
    ensures SortedBy([y] + t, key)
  {
    var r := [y] + t;
    forall i, j | 0 <= i < j < |r|
      ensures key(r[i]) <= key(r[j])
    {
      assert r[j] == t[j - 1];
      if i > 0 {
        assert r[i] == t[i - 1];
      }
    }
  }

  /**
   * `sortedBy(key)`: the elements of `s` in ascending `key` order; a stable
   * insertion sort, like the merge sort `sortedBy` uses.
   */
  function SortBy<T>(s: seq<T>, key: T -> int): (r: seq<T>)
    ensures |r| == |s|
    ensures multiset(r) == multiset(s)
    ensures SortedBy(r, key)
  {
    if s == [] then []
    else
      assert s == [s[0]] + s[1..];
      Insert(s[0], SortBy(s[1..], key), key)
  }

  /** `WithKey` on a list with a known first element. */
  lemma WithKeyCons<T>(y: T, t: seq<T>, key: T -> int, k: int)
    ensures WithKey([y] + t, key, k) == (if key(y) == k then [y] else []) + WithKey(t, key, k)
  {
    assert ([y] + t)[1..] == t;
  }

  lemma {:induction false} InsertWithKey<T>(x: T, s: seq<T>, key: T -> int, k: int)
    requires SortedBy(s, key)
    ensures WithKey(Insert(x, s, key), key, k) == (if key(x) == k then [x] else []) + WithKey(s, key, k)
  {
    if s == [] || key(x) <= key(s[0]) {
      WithKeyCons(x, s, key, k);
    } else {
      var tail := Insert(x, s[1..], key);
      var rest := WithKey(s[1..], key, k);
      assert Insert(x, s, key) == [s[0]] + tail;
      WithKeyCons(s[0], tail, key, k);
      InsertWithKey(x, s[1..], key, k);
      var xs := if key(x) == k then [x] else [];
      if key(s[0]) == k {
        assert xs == [];
        assert WithKey(s, key, k) == [s[0]] + rest;
        assert WithKey(Insert(x, s, key), key, k) == [s[0]] + ([] + rest);
        assert [] + rest == rest;
      } else {
        assert WithKey(s, key, k) == [] + rest;
        assert WithKey(Insert(x, s, key), key, k) == [] + (xs + rest);
        assert [] + rest == rest;
        assert [] + (xs + rest) == xs + rest;
      }
    }
  }

  /** Filtering a prefix by key gives a prefix of the filtered list. */
  lemma {:induction false} WithKeyPrefix<T>(s: seq<T>, p: seq<T>, key: T -> int, k: int)
    requires p <= s
    ensures WithKey(p, key, k) <= WithKey(s, key, k)
  {
    if p != [] {
      assert p[1..] <= s[1..];
      WithKeyPrefix(s[1..], p[1..], key, k);
    }
  }

  /** The first `n` of a sort are sorted and taken from the input. */
  lemma TakeSorted<T>(s: seq<T>, key: T -> int, n: nat)
    ensures SortedBy(Take(SortBy(s, key), n), key)
    ensures forall x :: x in Take(SortBy(s, key), n) ==> x in s
  {
    var sorted := SortBy(s, key);
    assert forall x :: x in Take(sorted, n) ==> x in multiset(sorted);
  }

  /** The first `n` of the sorted list keep each key's elements in their input order. */
  lemma TakeSortedKeepsTies<T>(s: seq<T>, key: T -> int, n: nat, k: int, kept: seq<T>)
    requires kept == Take(SortBy(s, key), n)
    ensures WithKey(kept, key, k) <= WithKey(s, key, k)
  {
    var sorted := SortBy(s, key);
    WithKeyPrefix(sorted, kept, key, k);
    SortByStable(s, key, k);
  }

  /**
   * The first `n` of the sorted list and the rest of it together hold exactly the
   * input, and nothing left out has a smaller key than anything kept.
   */
  lemma TakeSortedSplit<T>(s: seq<T>, key: T -> int, n: nat, kept: seq<T>, dropped: seq<T>)
    requires kept == Take(SortBy(s, key), n) && dropped == SortBy(s, key)[|kept|..]
    ensures multiset(kept) + multiset(dropped) == multiset(s)
    ensures forall x, y :: x in dropped && y in kept ==> key(y) <= key(x)
  {
    var sorted := SortBy(s, key);
    assert sorted == kept + dropped;
    forall x, y | x in dropped && y in kept ensures key(y) <= key(x) {
      var i :| 0 <= i < |dropped| && dropped[i] == x;
      var j :| 0 <= j < |kept| && kept[j] == y;
      assert sorted[j] == y && sorted[|kept| + i] == x;
    }
  }

  /** Filtering by the key every element carries keeps everything. */
  lemma {:induction false} WithKeyAll<T>(s: seq<T>, key: T -> int, k: int)
    requires forall i :: 0 <= i < |s| ==> key(s[i]) == k
    ensures WithKey(s, key, k) == s
  {
    if s != [] {
      WithKeyAll(s[1..], key, k);
      assert s == [s[0]] + s[1..];
    }
  }

  /** Sorting a list whose elements all carry the same key changes nothing. */
  lemma SortBySameKey<T>(s: seq<T>, key: T -> int, k: int)
    requires forall i :: 0 <= i < |s| ==> key(s[i]) == k
    ensures SortBy(s, key) == s
  {
    var sorted := SortBy(s, key);
    forall i | 0 <= i < |sorted| ensures key(sorted[i]) == k {
      assert sorted[i] in multiset(s);
    }
    SortByStable(s, key, k);
    WithKeyAll(s, key, k);
    WithKeyAll(sorted, key, k);
  }

  /**
   * Stability: for every key value, the elements carrying it keep their relative
   * order, so the sort only moves elements past elements with a different key.
   */
  lemma {:induction false} SortByStable<T>(s: seq<T>, key: T -> int, k: int)
    ensures WithKey(SortBy(s, key), key, k) == WithKey(s, key, k)
  {
    if s != [] {
      SortByStable(s[1..], key, k);
      InsertWithKey(s[0], SortBy(s[1..], key), key, k);
    }
  }

  /** An element is in the sorted list exactly when it is in the input. */
  lemma SortByMembers<T>(s: seq<T>, key: T -> int, x: T)
    ensures x in SortBy(s, key) <==> x in s
  {
    assert x in multiset(SortBy(s, key)) <==> x in multiset(s);
  }
}
