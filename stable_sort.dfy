/** The stable ascending sort `std::list::sort` performs with a `<`
    comparator on an integer key; `key` gives each item's key. */
module StableSort {

  function KeyOf<T(==)>(key: map<T, int>, x: T): int
  {
    if x in key then key[x] else 0
  }

  predicate SortedBy<T(==)>(s: seq<T>, key: map<T, int>)
  {
    forall i, j :: 0 <= i < j < |s| ==> KeyOf(key, s[i]) <= KeyOf(key, s[j])
  }

  /** The items with key `k`, in list order. */
  function WithKey<T(==)>(s: seq<T>, key: map<T, int>, k: int): (r: seq<T>)
    ensures |r| <= |s|
  {
    if s == [] then []
    else WithKey(s[..|s| - 1], key, k) + (if KeyOf(key, s[|s| - 1]) == k then [s[|s| - 1]] else [])
  }

  lemma {:induction false} WithKeyAppend<T>(a: seq<T>, b: seq<T>, key: map<T, int>, k: int)
    ensures WithKey(a + b, key, k) == WithKey(a, key, k) + WithKey(b, key, k)
    decreases |b|
  {
    if b == [] {
      assert a + b == a;
    } else {
      var n := |b| - 1;
      assert (a + b)[..|a + b| - 1] == a + b[..n];
      WithKeyAppend(a, b[..n], key, k);
    }
  }

  /** Places `x` after every item whose key is not greater than its own. */
  function Insert<T(==)>(s: seq<T>, key: map<T, int>, x: T): (r: seq<T>)
    ensures |r| == |s| + 1
  {
    if s == [] || KeyOf(key, s[|s| - 1]) <= KeyOf(key, x) then s + [x]
    else Insert(s[..|s| - 1], key, x) + [s[|s| - 1]]
  }

  /** Insertion sort, front to back. */
  function Sort<T(==)>(s: seq<T>, key: map<T, int>): (r: seq<T>)
    ensures |r| == |s|
  {
    if s == [] then [] else Insert(Sort(s[..|s| - 1], key), key, s[|s| - 1])
  }

  lemma {:induction false} InsertPermutes<T>(s: seq<T>, key: map<T, int>, x: T)
    ensures multiset(Insert(s, key, x)) == multiset(s) + multiset{x}
  {
    if !(s == [] || KeyOf(key, s[|s| - 1]) <= KeyOf(key, x)) {
      var n := |s| - 1;
      InsertPermutes(s[..n], key, x);
      assert s == s[..n] + [s[n]];
    }
  }

  lemma {:induction false} InsertKeepsOrder<T>(s: seq<T>, key: map<T, int>, x: T)
    requires SortedBy(s, key)
    ensures SortedBy(Insert(s, key, x), key)
  {
    if !(s == [] || KeyOf(key, s[|s| - 1]) <= KeyOf(key, x)) {
      var n := |s| - 1;
      var front, last := s[..n], s[n];
      InsertKeepsOrder(front, key, x);
      InsertPermutes(front, key, x);
      var ins := Insert(front, key, x);
      var r := ins + [last];
      forall i, j | 0 <= i < j < |r| ensures KeyOf(key, r[i]) <= KeyOf(key, r[j]) {
        if j == |ins| {
          assert r[i] in multiset(ins);
          assert r[i] == x || r[i] in front;
        }
      }
    }
  }

  lemma {:induction false} InsertStable<T>(s: seq<T>, key: map<T, int>, x: T, k: int)
    requires SortedBy(s, key)
    ensures WithKey(Insert(s, key, x), key, k) == WithKey(s, key, k) + (if KeyOf(key, x) == k then [x] else [])
  {
    assert [x][..0] == [];
    if s == [] || KeyOf(key, s[|s| - 1]) <= KeyOf(key, x) {
      WithKeyAppend(s, [x], key, k);
    } else {
      var n := |s| - 1;
      var front, last := s[..n], s[n];
      InsertStable(front, key, x, k);
      assert s == front + [last];
      assert [last][..0] == [];
      WithKeyAppend(Insert(front, key, x), [last], key, k);
      WithKeyAppend(front, [last], key, k);
    }
  }

  /** The sort orders by key, keeps every item, and keeps items with equal
      keys in their original relative order. */
  lemma {:induction false} SortCorrect<T>(s: seq<T>, key: map<T, int>)
    ensures SortedBy(Sort(s, key), key)
    ensures multiset(Sort(s, key)) == multiset(s)
    ensures forall k :: WithKey(Sort(s, key), key, k) == WithKey(s, key, k)
  {
    if s != [] {
      var n := |s| - 1;
      SortCorrect(s[..n], key);
      InsertKeepsOrder(Sort(s[..n], key), key, s[n]);
      InsertPermutes(Sort(s[..n], key), key, s[n]);
      assert s == s[..n] + [s[n]];
      forall k ensures WithKey(Sort(s, key), key, k) == WithKey(s, key, k) {
        InsertStable(Sort(s[..n], key), key, s[n], k);
        WithKeyAppend(s[..n], [s[n]], key, k);
        assert [s[n]][..0] == [];
      }
    }
  }

  /** Sorting a list that is already in order leaves it as it is. */
  lemma {:induction false} SortOfSortedIsIdentity<T>(s: seq<T>, key: map<T, int>)
    requires SortedBy(s, key)
    ensures Sort(s, key) == s
  {
    if s != [] {
      var n := |s| - 1;
      var front := s[..n];
      SortedPrefix(s, key, n);
      SortOfSortedIsIdentity(front, key);
      assert n > 0 ==> KeyOf(key, front[n - 1]) <= KeyOf(key, s[n]);
      assert s == front + [s[n]];
    }
  }

  lemma SortedPrefix<T>(s: seq<T>, key: map<T, int>, n: nat)
    requires SortedBy(s, key) && n <= |s|
    ensures SortedBy(s[..n], key)
  {
  }

  /** Only the keys of the listed items matter to the sort. */
  lemma {:induction false} SortDependsOnListedKeys<T>(s: seq<T>, key1: map<T, int>, key2: map<T, int>)
    requires forall x :: x in s ==> KeyOf(key1, x) == KeyOf(key2, x)
    ensures Sort(s, key1) == Sort(s, key2)
  {
    if s != [] {
      var n := |s| - 1;
      SortDependsOnListedKeys(s[..n], key1, key2);
      SortCorrect(s[..n], key1);
      forall y | y in Sort(s[..n], key1) ensures KeyOf(key1, y) == KeyOf(key2, y) {
        assert y in multiset(Sort(s[..n], key1));
        assert y in s[..n];
      }
      InsertDependsOnListedKeys(Sort(s[..n], key1), key1, key2, s[n]);
    }
  }

  lemma {:induction false} InsertDependsOnListedKeys<T>(s: seq<T>, key1: map<T, int>, key2: map<T, int>, x: T)
    requires forall y :: y in s ==> KeyOf(key1, y) == KeyOf(key2, y)
    requires KeyOf(key1, x) == KeyOf(key2, x)
    ensures Insert(s, key1, x) == Insert(s, key2, x)
  {
    if s != [] && KeyOf(key1, s[|s| - 1]) > KeyOf(key1, x) {
      InsertDependsOnListedKeys(s[..|s| - 1], key1, key2, x);
    }
  }
}
