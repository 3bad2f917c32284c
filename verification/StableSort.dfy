/** Stable sorting by an integer key, as the library's stable sort promises it: sorted, and elements
    with equal keys keep their order. The two together determine the result. */
module StableSort {

  ghost predicate Sorted<T>(s: seq<T>, key: T -> int) {
    forall i, j :: 0 <= i < j < |s| ==> key(s[i]) <= key(s[j])
  }

  /** The elements of `s` whose key is `k`, in order. */
  function WithKey<T>(s: seq<T>, key: T -> int, k: int): seq<T> {
    if s == [] then []
    else WithKey(s[..|s| - 1], key, k) + if key(s[|s| - 1]) == k then [s[|s| - 1]] else []
  }

  /** `t` is a stable sort of `s`. */
  ghost predicate StablySorts<T>(s: seq<T>, t: seq<T>, key: T -> int) {
    Sorted(t, key) && SameByKey(t, s, key)
  }

  /** Inserts `x` behind the last element whose key is not larger. */
  function Insert<T>(s: seq<T>, key: T -> int, x: T): seq<T> {
    if s == [] || key(s[|s| - 1]) <= key(x) then s + [x]
    else Insert(s[..|s| - 1], key, x) + [s[|s| - 1]]
  }

  function SortBy<T>(s: seq<T>, key: T -> int): seq<T> {
    if s == [] then [] else Insert(SortBy(s[..|s| - 1], key), key, s[|s| - 1])
  }

  lemma {:induction false} InsertSorted<T>(s: seq<T>, key: T -> int, x: T)
    requires Sorted(s, key)
    ensures Sorted(Insert(s, key, x), key)
    ensures forall i :: 0 <= i < |Insert(s, key, x)| ==> Insert(s, key, x)[i] in s || Insert(s, key, x)[i] == x
  {
    if s != [] && key(s[|s| - 1]) > key(x) {
      InsertSorted(s[..|s| - 1], key, x);
    }
  }

  lemma {:induction false} NoneWithKey<T>(s: seq<T>, key: T -> int, k: int)
    requires forall i :: 0 <= i < |s| ==> key(s[i]) != k
    ensures WithKey(s, key, k) == []
  {
    if s != [] {
      NoneWithKey(s[..|s| - 1], key, k);
    }
  }

  lemma {:induction false} InsertStable<T>(s: seq<T>, key: T -> int, x: T, k: int)
    ensures WithKey(Insert(s, key, x), key, k) == WithKey(s + [x], key, k)
  {
    assert (s + [x])[..|s|] == s;
    if s != [] && key(s[|s| - 1]) > key(x) {
      var rest, last := s[..|s| - 1], s[|s| - 1];
      InsertStable(rest, key, x, k);
      assert (rest + [x])[..|rest|] == rest;
      assert (Insert(rest, key, x) + [last])[..|Insert(rest, key, x)|] == Insert(rest, key, x);
    }
  }

  lemma {:induction false} SortBySorted<T>(s: seq<T>, key: T -> int)
    ensures Sorted(SortBy(s, key), key)
  {
    if s != [] {
      SortBySorted(s[..|s| - 1], key);
      InsertSorted(SortBy(s[..|s| - 1], key), key, s[|s| - 1]);
    }
  }

  lemma WithKeySnoc<T>(s: seq<T>, key: T -> int, x: T, k: int)
    ensures WithKey(s + [x], key, k) == WithKey(s, key, k) + if key(x) == k then [x] else []
  {
    assert (s + [x])[..|s|] == s;
  }

  lemma {:induction false} SortByStable<T>(s: seq<T>, key: T -> int, k: int)
    ensures WithKey(SortBy(s, key), key, k) == WithKey(s, key, k)
  {
    if s != [] {
      var rest, last := s[..|s| - 1], s[|s| - 1];
      SortByStable(rest, key, k);
      InsertStable(SortBy(rest, key), key, last, k);
      WithKeySnoc(SortBy(rest, key), key, last, k);
    }
  }

  lemma SortByIsStable<T>(s: seq<T>, key: T -> int)
    ensures StablySorts(s, SortBy(s, key), key)
  {
    SortBySorted(s, key);
    forall k ensures WithKey(SortBy(s, key), key, k) == WithKey(s, key, k) {
      SortByStable(s, key, k);
    }
  }

  lemma {:induction false} WithKeyOrigin<T>(s: seq<T>, key: T -> int, k: int)
    requires WithKey(s, key, k) != []
    ensures exists i :: 0 <= i < |s| && key(s[i]) == k
  {
    if key(s[|s| - 1]) != k {
      WithKeyOrigin(s[..|s| - 1], key, k);
      var i :| 0 <= i < |s| - 1 && key(s[..|s| - 1][i]) == k;
      assert key(s[i]) == k;
    }
  }

  lemma SnocInjective<T>(a: seq<T>, b: seq<T>, x: T, y: T)
    ensures a + [x] == b + [y] ==> a == b && x == y
  {
    if a + [x] == b + [y] {
      assert (a + [x])[|a|] == (b + [y])[|b|];
      assert (a + [x])[..|a|] == (b + [y])[..|b|];
    }
  }

  ghost predicate SameByKey<T>(s: seq<T>, t: seq<T>, key: T -> int) {
    forall k :: WithKey(s, key, k) == WithKey(t, key, k)
  }

  /** The last elements of two sorted sequences with the same elements by key are equal. */
  lemma SameLast<T>(s: seq<T>, t: seq<T>, key: T -> int)
    requires Sorted(s, key) && Sorted(t, key) && SameByKey(s, t, key) && s != []
    ensures t != [] && s[|s| - 1] == t[|t| - 1]
  {
    var k := key(s[|s| - 1]);
    assert WithKey(s, key, k) == WithKey(t, key, k);
    WithKeyOrigin(t, key, k);
    var l := key(t[|t| - 1]);
    assert WithKey(s, key, l) == WithKey(t, key, l);
    WithKeyOrigin(s, key, l);
    SnocInjective(WithKey(s[..|s| - 1], key, k), WithKey(t[..|t| - 1], key, k), s[|s| - 1], t[|t| - 1]);
  }

  lemma DropSameLast<T>(s: seq<T>, t: seq<T>, key: T -> int, x: T)
    requires SameByKey(s + [x], t + [x], key)
    ensures SameByKey(s, t, key)
  {
    forall k ensures WithKey(s, key, k) == WithKey(t, key, k) {
      WithKeySnoc(s, key, x, k);
      WithKeySnoc(t, key, x, k);
      assert WithKey(s + [x], key, k) == WithKey(t + [x], key, k);
      if key(x) == k {
        SnocInjective(WithKey(s, key, k), WithKey(t, key, k), x, x);
      } else {
        assert WithKey(s + [x], key, k) == WithKey(s, key, k);
        assert WithKey(t + [x], key, k) == WithKey(t, key, k);
      }
    }
  }

  /** A stable sort has one result. */
  lemma {:induction false} StableSortIsUnique<T>(s: seq<T>, t: seq<T>, key: T -> int)
    requires Sorted(s, key) && Sorted(t, key) && SameByKey(s, t, key)
    ensures s == t
    decreases |s|
  {
    if s == [] {
      assert t != [] ==> WithKey(t, key, key(t[|t| - 1])) != WithKey(s, key, key(t[|t| - 1]));
    } else {
      SameLast(s, t, key);
      var s', t', x := s[..|s| - 1], t[..|t| - 1], s[|s| - 1];
      assert s == s' + [x] && t == t' + [x];
      DropSameLast(s', t', key, x);
      StableSortIsUnique(s', t', key);
    }
  }

  /** Sorting a sorted sequence changes nothing. */
  lemma SortedIsFixed<T>(s: seq<T>, key: T -> int)
    requires Sorted(s, key)
    ensures SortBy(s, key) == s
  {
    SortByIsStable(s, key);
    StableSortIsUnique(SortBy(s, key), s, key);
  }
}
