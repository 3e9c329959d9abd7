/** Python's `sorted(xs, key=k)` on integer keys: a stable sort, modelled as
    insertion that places each element after every earlier element whose key
    is not larger. */
module PySorted {

  predicate Ordered<T>(s: seq<T>, key: T -> int) {
    forall i, j :: 0 <= i < j < |s| ==> key(s[i]) <= key(s[j])
  }

  /** `s` with `x` inserted after the last element whose key is at most
      `key(x)`. */
  function InsertBy<T>(s: seq<T>, x: T, key: T -> int): (r: seq<T>)
    ensures multiset(r) == multiset(s) + multiset{x}
  {
    if s == [] || key(s[|s| - 1]) <= key(x) then s + [x]
    else
      assert s == s[..|s| - 1] + [s[|s| - 1]];
      InsertBy(s[..|s| - 1], x, key) + [s[|s| - 1]]
  }

  /** Every element of `s` has a key of at most `k`. */
  predicate KeysAtMost<T>(s: seq<T>, key: T -> int, k: int) {
    forall i :: 0 <= i < |s| ==> key(s[i]) <= k
  }

  /** Inserting into key order keeps key order. */
  lemma {:induction false} InsertByOrdered<T>(s: seq<T>, x: T, key: T -> int)
    requires Ordered(s, key)
    ensures Ordered(InsertBy(s, x, key), key)
  {
    if s != [] && key(s[|s| - 1]) > key(x) {
      var init := s[..|s| - 1];
      var last := s[|s| - 1];
      assert Ordered(init, key);
      InsertByOrdered(init, x, key);
      var r := InsertBy(init, x, key);
      assert KeysAtMost(r, key, key(last)) by {
        forall i | 0 <= i < |r|
          ensures key(r[i]) <= key(last)
        {
          assert r[i] in multiset(init) + multiset{x};
          if r[i] != x {
            var j :| 0 <= j < |init| && init[j] == r[i];
            assert s[j] == init[j];
          }
        }
      }
      assert InsertBy(s, x, key) == r + [last];
    }
  }

  /** `sorted(s, key=key)`. */
  function SortBy<T>(s: seq<T>, key: T -> int): (r: seq<T>)
    ensures multiset(r) == multiset(s)
    ensures Ordered(r, key)
  {
    if s == [] then []
    else
      var init := s[..|s| - 1];
      assert s == init + [s[|s| - 1]];
      InsertByOrdered(SortBy(init, key), s[|s| - 1], key);
      InsertBy(SortBy(init, key), s[|s| - 1], key)
  }

  /** Sorting keeps the number of elements. */
  lemma SortByLength<T>(s: seq<T>, key: T -> int)
    ensures |SortBy(s, key)| == |s|
  {
    assert |multiset(SortBy(s, key))| == |multiset(s)|;
  }

  /** Stability on input already in key order: nothing moves. */
  lemma {:induction false} SortByOrdered<T>(s: seq<T>, key: T -> int)
    requires Ordered(s, key)
    ensures SortBy(s, key) == s
  {
    if s != [] {
      var init := s[..|s| - 1];
      var last := s[|s| - 1];
      assert Ordered(init, key) by {
        forall i, j | 0 <= i < j < |init|
          ensures key(init[i]) <= key(init[j])
        {
          assert init[i] == s[i] && init[j] == s[j];
        }
      }
      SortByOrdered(init, key);
      assert init == [] || key(init[|init| - 1]) <= key(last);
      assert InsertBy(init, last, key) == init + [last];
      assert s == init + [last];
    }
  }

  /** The elements of `s` whose key is `k`, in their order in `s`. */
  function WithKey<T>(s: seq<T>, key: T -> int, k: int): (r: seq<T>)
    ensures forall i :: 0 <= i < |r| ==> key(r[i]) == k
  {
    if s == [] then []
    else WithKey(s[..|s| - 1], key, k) + (if key(s[|s| - 1]) == k then [s[|s| - 1]] else [])
  }

  /** Appending `y` extends the elements of its key by `y`. */
  lemma WithKeySnoc<T>(s: seq<T>, y: T, key: T -> int, k: int)
    ensures WithKey(s + [y], key, k) == WithKey(s, key, k) + (if key(y) == k then [y] else [])
  {
    assert (s + [y])[..|s|] == s;
  }

  /** Inserting `x` puts it after every element of its own key. */
  lemma {:induction false} InsertByWithKey<T>(s: seq<T>, x: T, key: T -> int, k: int)
    ensures WithKey(InsertBy(s, x, key), key, k) == WithKey(s, key, k) + (if key(x) == k then [x] else [])
  {
    if s == [] || key(s[|s| - 1]) <= key(x) {
      WithKeySnoc(s, x, key, k);
    } else {
      var init := s[..|s| - 1];
      var last := s[|s| - 1];
      var r := InsertBy(init, x, key);
      assert InsertBy(s, x, key) == r + [last];
      InsertByWithKey(init, x, key, k);
      WithKeySnoc(r, last, key, k);
      WithKeySnoc(init, last, key, k);
      assert init + [last] == s;
      assert key(last) != k || key(x) != k;
    }
  }

  /** Stability: sorting keeps the relative order of the elements of every
      key. */
  lemma {:induction false} SortByStable<T>(s: seq<T>, key: T -> int, k: int)
    ensures WithKey(SortBy(s, key), key, k) == WithKey(s, key, k)
  {
    if s != [] {
      var init := s[..|s| - 1];
      SortByStable(init, key, k);
      InsertByWithKey(SortBy(init, key), s[|s| - 1], key, k);
    }
  }

  /** `sorted(xs)` for integers. */
  function Sorted(xs: seq<int>): (r: seq<int>)
    ensures multiset(r) == multiset(xs)
    ensures forall i, j :: 0 <= i < j < |r| ==> r[i] <= r[j]
  {
    var r := SortBy(xs, x => x);
    assert Ordered(r, x => x);
    r
  }
}
