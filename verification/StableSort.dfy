/** `slice::sort_by_key`: a stable sort, and the two facts that pin its result
    down: it is sorted, and elements of equal key keep their order. */
module StableSort {

  ghost predicate TotalOrder<K(!new)>(le: (K, K) -> bool)
  {
    && (forall x, y :: le(x, y) || le(y, x))
    && (forall x, y :: le(x, y) && le(y, x) ==> x == y)
    && (forall x, y, z :: le(x, y) && le(y, z) ==> le(x, z))
  }

  function Sort<T, K>(xs: seq<T>, key: T -> K, le: (K, K) -> bool): seq<T>
  {
    if xs == [] then [] else Place(xs[0], Sort(xs[1..], key, le), key, le)
  }

  /** Puts an element that came first before the ones of equal key. */
  function Place<T, K>(x: T, s: seq<T>, key: T -> K, le: (K, K) -> bool): seq<T>
  {
    if s == [] || le(key(x), key(s[0])) then [x] + s
    else [s[0]] + Place(x, s[1..], key, le)
  }

  ghost predicate Sorted<T, K>(s: seq<T>, key: T -> K, le: (K, K) -> bool)
  {
    forall i, j :: 0 <= i < j < |s| ==> le(key(s[i]), key(s[j]))
  }

  /** The elements of key `k`, in order. */
  function WithKey<T, K(==)>(s: seq<T>, key: T -> K, k: K): seq<T>
  {
    if s == [] then []
    else (if key(s[0]) == k then [s[0]] else []) + WithKey(s[1..], key, k)
  }

  lemma {:induction false} PlaceKeeps<T, K>(x: T, s: seq<T>, key: T -> K, le: (K, K) -> bool)
    ensures multiset(Place(x, s, key, le)) == multiset([x] + s)
    ensures |Place(x, s, key, le)| == |s| + 1
  {
    if s == [] || le(key(x), key(s[0])) {
    } else {
      PlaceKeeps(x, s[1..], key, le);
      assert s == [s[0]] + s[1..];
    }
  }

  lemma {:induction false} SortPermutes<T, K>(xs: seq<T>, key: T -> K, le: (K, K) -> bool)
    ensures multiset(Sort(xs, key, le)) == multiset(xs)
    ensures |Sort(xs, key, le)| == |xs|
  {
    if xs != [] {
      SortPermutes(xs[1..], key, le);
      PlaceKeeps(xs[0], Sort(xs[1..], key, le), key, le);
      assert xs == [xs[0]] + xs[1..];
    }
  }

  lemma {:induction false} PlaceSorted<T, K(!new)>(x: T, s: seq<T>, key: T -> K, le: (K, K) -> bool)
    requires TotalOrder(le) && Sorted(s, key, le)
    ensures Sorted(Place(x, s, key, le), key, le)
  {
    if s == [] || le(key(x), key(s[0])) {
    } else {
      PlaceSorted(x, s[1..], key, le);
      var rest := Place(x, s[1..], key, le);
      PlaceKeeps(x, s[1..], key, le);
      forall j | 0 <= j < |rest|
        ensures le(key(s[0]), key(rest[j]))
      {
        assert rest[j] in multiset(rest);
        assert rest[j] in [x] + s[1..];
      }
    }
  }

  lemma {:induction false} SortSorts<T, K(!new)>(xs: seq<T>, key: T -> K, le: (K, K) -> bool)
    requires TotalOrder(le)
    ensures Sorted(Sort(xs, key, le), key, le)
  {
    if xs != [] {
      SortSorts(xs[1..], key, le);
      PlaceSorted(xs[0], Sort(xs[1..], key, le), key, le);
    }
  }

  lemma {:induction false} PlaceStable<T, K(!new)>(x: T, s: seq<T>, key: T -> K, le: (K, K) -> bool, k: K)
    requires TotalOrder(le)
    ensures WithKey(Place(x, s, key, le), key, k) == WithKey([x] + s, key, k)
  {
    assert ([x] + s)[1..] == s;
    if s == [] || le(key(x), key(s[0])) {
    } else {
      PlaceStable(x, s[1..], key, le, k);
      var rest := Place(x, s[1..], key, le);
      assert ([s[0]] + rest)[1..] == rest;
      assert ([x] + s[1..])[1..] == s[1..];
    }
  }

  /** Stability: the elements of one key come out in the order they went in. */
  lemma {:induction false} SortStable<T, K(!new)>(xs: seq<T>, key: T -> K, le: (K, K) -> bool, k: K)
    requires TotalOrder(le)
    ensures WithKey(Sort(xs, key, le), key, k) == WithKey(xs, key, k)
  {
    if xs != [] {
      SortStable(xs[1..], key, le, k);
      var tail := Sort(xs[1..], key, le);
      PlaceStable(xs[0], tail, key, le, k);
      assert ([xs[0]] + tail)[1..] == tail;
    }
  }

  lemma {:induction false} WithKeyOnlyKey<T, K>(s: seq<T>, key: T -> K, k: K)
    ensures forall x :: x in WithKey(s, key, k) <==> x in s && key(x) == k
  {
    if s != [] {
      WithKeyOnlyKey(s[1..], key, k);
      assert s == [s[0]] + s[1..];
    }
  }

  lemma {:induction false} EmptyIfNoKey<T, K(!new)>(s: seq<T>, key: T -> K)
    ensures (forall k :: WithKey(s, key, k) == []) ==> s == []
  {
    if s != [] { assert WithKey(s, key, key(s[0])) != []; }
  }

  /** A sorted sequence is determined by its elements of each key. */
  lemma {:induction false} SortedUnique<T, K(!new)>(a: seq<T>, b: seq<T>, key: T -> K, le: (K, K) -> bool)
    requires TotalOrder(le) && Sorted(a, key, le) && Sorted(b, key, le)
    requires forall k :: WithKey(a, key, k) == WithKey(b, key, k)
    ensures a == b
  {
    if a == [] {
      assert forall k :: WithKey(b, key, k) == WithKey(a, key, k) == [];
      EmptyIfNoKey(b, key);
    } else {
      var k := key(a[0]);
      WithKeyOnlyKey(a, key, k);
      WithKeyOnlyKey(b, key, k);
      assert a[0] in WithKey(b, key, k);
      var l := key(b[0]);
      WithKeyOnlyKey(a, key, l);
      WithKeyOnlyKey(b, key, l);
      assert b[0] in WithKey(a, key, l);
      assert le(k, l) && le(l, k);
      assert WithKey(a, key, k)[0] == a[0] && WithKey(b, key, k)[0] == b[0];
      forall m
        ensures WithKey(a[1..], key, m) == WithKey(b[1..], key, m)
      {
        assert WithKey(a, key, m) == WithKey(b, key, m);
        if m == k {
          assert WithKey(a, key, m)[1..] == WithKey(a[1..], key, m);
          assert WithKey(b, key, m)[1..] == WithKey(b[1..], key, m);
        } else {
          assert WithKey(a, key, m) == WithKey(a[1..], key, m);
          assert WithKey(b, key, m) == WithKey(b[1..], key, m);
        }
      }
      SortedUnique(a[1..], b[1..], key, le);
      assert a == [a[0]] + a[1..] && b == [b[0]] + b[1..];
    }
  }

  /** The characterisation used by the callers: anything sorted that keeps the
      order within each key is what the stable sort returns. */
  lemma {:induction false} SortIs<T, K(!new)>(xs: seq<T>, r: seq<T>, key: T -> K, le: (K, K) -> bool)
    requires TotalOrder(le) && Sorted(r, key, le)
    requires forall k :: WithKey(r, key, k) == WithKey(xs, key, k)
    ensures Sort(xs, key, le) == r
  {
    SortSorts(xs, key, le);
    forall k ensures WithKey(Sort(xs, key, le), key, k) == WithKey(r, key, k) {
      SortStable(xs, key, le, k);
    }
    SortedUnique(Sort(xs, key, le), r, key, le);
  }

  lemma {:induction false} WithKeyConcat<T, K>(a: seq<T>, b: seq<T>, key: T -> K, k: K)
    ensures WithKey(a + b, key, k) == WithKey(a, key, k) + WithKey(b, key, k)
  {
    if a == [] {
      assert a + b == b;
    } else {
      WithKeyConcat(a[1..], b, key, k);
      assert (a + b)[1..] == a[1..] + b;
    }
  }

  lemma {:induction false} WithKeyNone<T, K>(s: seq<T>, key: T -> K, k: K)
    requires forall y | y in s :: key(y) != k
    ensures WithKey(s, key, k) == []
  {
    if s != [] { WithKeyNone(s[1..], key, k); }
  }

  lemma {:induction false} WithKeySingle<T, K>(s: seq<T>, key: T -> K, k: K, x: T)
    requires x in s && NoDup(s)
    requires forall y | y in s :: key(y) == k <==> y == x
    ensures WithKey(s, key, k) == [x]
  {
    if s[0] == x {
      forall y | y in s[1..] ensures key(y) != k { assert y in s; }
      WithKeyNone(s[1..], key, k);
    } else {
      WithKeySingle(s[1..], key, k, x);
    }
  }

  // ------------------------------------------------------------ sorting twice

  /** Sorted by the second key, and by the first among elements of one second key. */
  ghost predicate SortedBoth<T, K, L>(s: seq<T>, first: T -> K, le: (K, K) -> bool, second: T -> L, le2: (L, L) -> bool)
  {
    forall i, j | 0 <= i < j < |s| ::
      le2(second(s[i]), second(s[j])) && (second(s[i]) == second(s[j]) ==> le(first(s[i]), first(s[j])))
  }

  lemma {:induction false} PlaceSortedBoth<T, K(!new), L(!new)>(
      x: T, s: seq<T>, first: T -> K, le: (K, K) -> bool, second: T -> L, le2: (L, L) -> bool)
    requires TotalOrder(le2) && SortedBoth(s, first, le, second, le2)
    requires forall y | y in s :: le(first(x), first(y))
    ensures SortedBoth(Place(x, s, second, le2), first, le, second, le2)
  {
    if s == [] {
    } else if le2(second(x), second(s[0])) {
      var r := [x] + s;
      forall i, j | 0 <= i < j < |r|
        ensures le2(second(r[i]), second(r[j])) && (second(r[i]) == second(r[j]) ==> le(first(r[i]), first(r[j])))
      {
        if i == 0 {
          assert r[j] in s;
          assert le2(second(s[0]), second(r[j]));
        } else {
          assert r[i] == s[i - 1] && r[j] == s[j - 1];
        }
      }
    } else {
      PlaceSortedBoth(x, s[1..], first, le, second, le2);
      PlaceKeeps(x, s[1..], second, le2);
      var rest := Place(x, s[1..], second, le2);
      var r := [s[0]] + rest;
      forall j | 0 <= j < |rest|
        ensures le2(second(s[0]), second(rest[j]))
        ensures second(s[0]) == second(rest[j]) ==> le(first(s[0]), first(rest[j]))
      {
        assert rest[j] in multiset(rest);
        assert rest[j] in [x] + s[1..];
      }
    }
  }

  /** Sorting what is sorted by one key by another keeps it sorted by the first
      wherever the other is equal. */
  lemma {:induction false} SortSortsBoth<T, K(!new), L(!new)>(
      xs: seq<T>, first: T -> K, le: (K, K) -> bool, second: T -> L, le2: (L, L) -> bool)
    requires TotalOrder(le2) && Sorted(xs, first, le)
    ensures SortedBoth(Sort(xs, second, le2), first, le, second, le2)
  {
    if xs != [] {
      SortSortsBoth(xs[1..], first, le, second, le2);
      SortPermutes(xs[1..], second, le2);
      var rest := Sort(xs[1..], second, le2);
      forall y | y in rest ensures le(first(xs[0]), first(y)) {
        assert y in multiset(rest);
        assert y in xs[1..];
      }
      PlaceSortedBoth(xs[0], rest, first, le, second, le2);
    }
  }

  lemma {:induction false} WithKeyTwice<T, K, L>(s: seq<T>, first: T -> K, second: T -> L, k: K, l: L)
    ensures WithKey(WithKey(s, first, k), second, l) == WithKey(WithKey(s, second, l), first, k)
  {
    if s != [] {
      WithKeyTwice(s[1..], first, second, k, l);
      WithKeyConcat(if first(s[0]) == k then [s[0]] else [], WithKey(s[1..], first, k), second, l);
      WithKeyConcat(if second(s[0]) == l then [s[0]] else [], WithKey(s[1..], second, l), first, k);
    }
  }

  /** Sorting by one key and then by another keeps the order of the elements that
      agree on both. */
  lemma {:induction false} SortStableBoth<T, K(!new), L(!new)>(
      xs: seq<T>, first: T -> K, le: (K, K) -> bool, second: T -> L, le2: (L, L) -> bool, k: K, l: L)
    requires TotalOrder(le) && TotalOrder(le2)
    ensures WithKey(WithKey(Sort(Sort(xs, first, le), second, le2), second, l), first, k)
            == WithKey(WithKey(xs, second, l), first, k)
  {
    var once := Sort(xs, first, le);
    SortStable(once, second, le2, l);
    WithKeyTwice(once, first, second, k, l);
    SortStable(xs, first, le, k);
    WithKeyTwice(xs, first, second, k, l);
  }

  // ------------------------------------------------------- sequences as sets

  predicate NoDup<T(==)>(s: seq<T>)
  {
    forall i, j | 0 <= i < j < |s| :: s[i] != s[j]
  }

  lemma {:induction false} NoDupCounts<T(!new)>(s: seq<T>)
    ensures NoDup(s) <==> forall x :: multiset(s)[x] <= 1
  {
    if s != [] {
      NoDupCounts(s[1..]);
      assert s == [s[0]] + s[1..];
      assert multiset(s) == multiset{s[0]} + multiset(s[1..]);
      if NoDup(s) {
        assert s[0] !in s[1..];
        assert NoDup(s[1..]) by { forall i, j | 0 <= i < j < |s[1..]| ensures s[1..][i] != s[1..][j] {} }
      } else {
        var i, j :| 0 <= i < j < |s| && s[i] == s[j];
        if i == 0 {
          assert s[j] == s[1..][j - 1];
          assert s[0] in multiset(s[1..]);
          assert multiset(s)[s[0]] >= 2;
        } else {
          assert s[1..][i - 1] == s[1..][j - 1];
          var x :| multiset(s[1..])[x] > 1;
          assert multiset(s)[x] > 1;
        }
      }
    }
  }

  lemma {:induction false} NoDupWithin<T(!new)>(a: seq<T>, b: seq<T>)
    requires NoDup(b) && multiset(a) <= multiset(b)
    ensures NoDup(a)
  {
    NoDupCounts(a);
    NoDupCounts(b);
  }

  function Without<T>(b: seq<T>, p: nat): seq<T>
    requires p < |b|
  {
    b[..p] + b[p + 1..]
  }

  lemma {:induction false} WithoutKeeps<T>(b: seq<T>, p: nat)
    requires p < |b| && NoDup(b)
    ensures NoDup(Without(b, p))
    ensures multiset(b) == multiset(Without(b, p)) + multiset{b[p]}
    ensures forall x | x in b && x != b[p] :: x in Without(b, p)
  {
    var rest := Without(b, p);
    assert forall i | 0 <= i < |rest| :: rest[i] == b[if i < p then i else i + 1];
    assert b == b[..p] + [b[p]] + b[p + 1..];
    forall x | x in b && x != b[p] ensures x in rest {
      var q :| 0 <= q < |b| && b[q] == x;
      assert rest[if q < p then q else q - 1] == x;
    }
  }

  /** As many distinct elements, all of them the other's: a permutation. */
  lemma {:induction false} SameElements<T>(a: seq<T>, b: seq<T>)
    requires NoDup(a) && NoDup(b) && |a| == |b|
    requires forall x | x in a :: x in b
    ensures multiset(a) == multiset(b)
  {
    if a != [] {
      assert a[0] in b;
      var p :| 0 <= p < |b| && b[p] == a[0];
      WithoutKeeps(b, p);
      assert a == [a[0]] + a[1..];
      assert forall x | x in a[1..] :: x in a && x != a[0];
      SameElements(a[1..], Without(b, p));
    }
  }
}
