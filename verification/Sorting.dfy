/** A stable sort by an integer-pair key, as `list.sort(key=...)` and `ORDER BY` promise it. */
module Sorting {
  import opened Common

  type Key = (int, int)

  predicate KeyLe(a: Key, b: Key) {
    a.0 < b.0 || (a.0 == b.0 && a.1 <= b.1)
  }

  predicate SortedBy<T>(s: seq<T>, key: T -> Key) {
    forall i, j :: 0 <= i < j < |s| ==> KeyLe(key(s[i]), key(s[j]))
  }

  function HasKey<T>(key: T -> Key, k: Key): T -> bool {
    x => key(x) == k
  }

  /** The elements carrying one key, in their order of appearance. */
  function WithKey<T>(s: seq<T>, key: T -> Key, k: Key): seq<T> {
    Filter(s, HasKey(key, k))
  }

  /** `x` goes behind every element whose key is not larger than its own. */
  function Insert<T>(s: seq<T>, x: T, key: T -> Key): seq<T> {
    if s == [] || KeyLe(key(s[|s| - 1]), key(x)) then s + [x]
    else Insert(s[..|s| - 1], x, key) + [s[|s| - 1]]
  }

  function StableSort<T>(s: seq<T>, key: T -> Key): seq<T> {
    if s == [] then [] else Insert(StableSort(s[..|s| - 1], key), s[|s| - 1], key)
  }

  lemma {:induction false} InsertSorted<T>(s: seq<T>, x: T, key: T -> Key)
    requires SortedBy(s, key)
    ensures SortedBy(Insert(s, x, key), key)
    ensures forall i :: 0 <= i < |Insert(s, x, key)| ==> Insert(s, x, key)[i] == x || Insert(s, x, key)[i] in s
  {
    if s != [] && !KeyLe(key(s[|s| - 1]), key(x)) {
      var front, last := s[..|s| - 1], s[|s| - 1];
      assert s == front + [last];
      InsertSorted(front, x, key);
      var r := Insert(front, x, key);
      forall i | 0 <= i < |r| ensures KeyLe(key(r[i]), key(last)) {
        if r[i] != x {
          var j :| 0 <= j < |front| && front[j] == r[i];
          assert KeyLe(key(s[j]), key(s[|s| - 1]));
        }
      }
    } else {
      var r := Insert(s, x, key);
      assert r == s + [x];
      forall i | 0 <= i < |s| ensures KeyLe(key(s[i]), key(x)) {
        assert KeyLe(key(s[i]), key(s[|s| - 1]));
      }
    }
  }

  lemma {:induction false} InsertWithKey<T>(s: seq<T>, x: T, key: T -> Key, k: Key)
    requires SortedBy(s, key)
    ensures WithKey(Insert(s, x, key), key, k) == WithKey(s + [x], key, k)
  {
    if s != [] && !KeyLe(key(s[|s| - 1]), key(x)) {
      var front, last := s[..|s| - 1], s[|s| - 1];
      assert s == front + [last];
      InsertWithKey(front, x, key, k);
      var p := HasKey(key, k);
      FilterSingle(Insert(front, x, key), last, p);
      FilterSingle(front, x, p);
      FilterSingle(front, last, p);
      FilterSingle(s, x, p);
    }
  }

  /** Sorted, and every key class keeps its original order (hence a permutation). */
  lemma {:induction false} StableSortCorrect<T>(s: seq<T>, key: T -> Key)
    ensures SortedBy(StableSort(s, key), key)
    ensures forall k :: WithKey(StableSort(s, key), key, k) == WithKey(s, key, k)
    ensures |StableSort(s, key)| == |s|
  {
    if s != [] {
      var front, last := s[..|s| - 1], s[|s| - 1];
      assert s == front + [last];
      StableSortCorrect(front, key);
      var sorted := StableSort(front, key);
      InsertSorted(sorted, last, key);
      InsertLength(sorted, last, key);
      forall k ensures WithKey(StableSort(s, key), key, k) == WithKey(s, key, k) {
        InsertWithKey(sorted, last, key, k);
        FilterSingle(sorted, last, HasKey(key, k));
        FilterSingle(front, last, HasKey(key, k));
        assert WithKey(sorted, key, k) == WithKey(front, key, k);
      }
    }
  }

  lemma {:induction false} InsertLength<T>(s: seq<T>, x: T, key: T -> Key)
    ensures |Insert(s, x, key)| == |s| + 1
  {
    if s != [] && !KeyLe(key(s[|s| - 1]), key(x)) {
      InsertLength(s[..|s| - 1], x, key);
    }
  }

  lemma WithKeyMembers<T>(s: seq<T>, key: T -> Key, k: Key)
    ensures forall x :: x in WithKey(s, key, k) <==> x in s && key(x) == k
  {
    FilterMembers(s, HasKey(key, k));
  }

  /** The last element of a sorted list is the last one of the largest key class. */
  lemma LastKeyLe<T>(a: seq<T>, b: seq<T>, key: T -> Key)
    requires SortedBy(b, key)
    requires forall k :: WithKey(a, key, k) == WithKey(b, key, k)
    requires a != []
    ensures b != [] && KeyLe(key(a[|a| - 1]), key(b[|b| - 1]))
  {
    var x := a[|a| - 1];
    WithKeyMembers(a, key, key(x));
    WithKeyMembers(b, key, key(x));
    assert x in WithKey(a, key, key(x));
    assert WithKey(a, key, key(x)) == WithKey(b, key, key(x));
    var i :| 0 <= i < |b| && b[i] == x;
    assert i < |b| - 1 ==> KeyLe(key(b[i]), key(b[|b| - 1]));
  }

  /** Those two properties leave exactly one list, so any stable sort is this one. */
  lemma {:induction false} StableSortUnique<T>(a: seq<T>, b: seq<T>, key: T -> Key)
    requires SortedBy(a, key) && SortedBy(b, key)
    requires forall k :: WithKey(a, key, k) == WithKey(b, key, k)
    ensures a == b
    decreases |a|
  {
    if a == [] {
      if b != [] {
        LastKeyLe(b, a, key);
      }
    } else {
      LastKeyLe(a, b, key);
      LastKeyLe(b, a, key);
      var m, n := |a| - 1, |b| - 1;
      var k0 := key(a[m]);
      assert key(b[n]) == k0;
      assert WithKey(a, key, k0) == WithKey(a[..m], key, k0) + [a[m]];
      assert WithKey(b, key, k0) == WithKey(b[..n], key, k0) + [b[n]];
      assert WithKey(a, key, k0) == WithKey(b, key, k0);
      SameLast(WithKey(a[..m], key, k0), a[m], WithKey(b[..n], key, k0), b[n]);
      forall k ensures WithKey(a[..m], key, k) == WithKey(b[..n], key, k) {
        assert WithKey(a, key, k) == WithKey(b, key, k);
        if k != k0 {
          DropLast(a, key, k);
          DropLast(b, key, k);
        }
      }
      StableSortUnique(a[..m], b[..n], key);
      assert a == a[..m] + [a[m]] && b == b[..n] + [b[n]];
    }
  }

  lemma DropLast<T>(a: seq<T>, key: T -> Key, k: Key)
    requires a != [] && key(a[|a| - 1]) != k
    ensures WithKey(a, key, k) == WithKey(a[..|a| - 1], key, k)
  {
    assert WithKey(a, key, k) == WithKey(a[..|a| - 1], key, k) + [];
  }

  lemma SameLast<T>(s: seq<T>, x: T, t: seq<T>, y: T)
    requires s + [x] == t + [y]
    ensures s == t && x == y
  {
    assert |s + [x]| == |t + [y]|;
    assert (s + [x])[|s|] == (t + [y])[|t|];
    assert (s + [x])[..|s|] == s && (t + [y])[..|t|] == t;
  }

  /** Sorting what is already in order changes nothing. */
  lemma StableSortIdentity<T>(s: seq<T>, key: T -> Key)
    requires SortedBy(s, key)
    ensures StableSort(s, key) == s
  {
    StableSortCorrect(s, key);
    StableSortUnique(StableSort(s, key), s, key);
  }
}
