/** Python's stable sort by an integer key (`list.sort(key=...)`, `sorted(..., key=...)`),
    written as an insertion sort on sequences. */
module Sorting {

  ghost predicate SortedBy<T>(s: seq<T>, key: T -> int)
  {
    forall i, j :: 0 <= i < j < |s| ==> key(s[i]) <= key(s[j])
  }

  /** Every suffix of a sorted sequence is sorted. */
  lemma SortedSuffix<T>(s: seq<T>, m: nat, key: T -> int)
    requires SortedBy(s, key) && m <= |s|
    ensures SortedBy(s[m..], key)
  {
    forall i, j | 0 <= i < j < |s| - m ensures key(s[m..][i]) <= key(s[m..][j]) {
      assert s[m..][i] == s[m + i] && s[m..][j] == s[m + j];
    }
  }

  /** In a sorted sequence, an element with a larger key than position `m` lies in the suffix from `m`. */
  lemma SortedSuffixKeepsLarger<T>(s: seq<T>, m: nat, key: T -> int, x: T)
    requires SortedBy(s, key) && m < |s|
    requires x in s && key(x) > key(s[m])
    ensures x in s[m..]
  {
    var j :| 0 <= j < |s| && s[j] == x;
    assert j >= m;
    assert s[m..][j - m] == x;
  }

  /** The elements of `s` whose key is `k`, in their order in `s`. */
  function KeyClass<T>(s: seq<T>, key: T -> int, k: int): (r: seq<T>)
  {
    if s == [] then []
    else KeyClass(s[..|s| - 1], key, k) + (if key(s[|s| - 1]) == k then [s[|s| - 1]] else [])
  }

  /** Places `x` after every element of `s` whose key is at most its own. */
  function Insert<T>(s: seq<T>, x: T, key: T -> int): (r: seq<T>)
    ensures multiset(r) == multiset(s) + multiset{x}
    ensures |r| == |s| + 1
  {
    if s == [] || key(s[|s| - 1]) <= key(x) then s + [x]
    else
      assert s == s[..|s| - 1] + [s[|s| - 1]];
      Insert(s[..|s| - 1], x, key) + [s[|s| - 1]]
  }

  lemma SortedSnoc<T>(a: seq<T>, y: T, key: T -> int)
    requires SortedBy(a, key)
    requires forall i :: 0 <= i < |a| ==> key(a[i]) <= key(y)
    ensures SortedBy(a + [y], key)
  {
  }

  lemma {:induction false} InsertSorted<T>(s: seq<T>, x: T, key: T -> int)
    requires SortedBy(s, key)
    ensures SortedBy(Insert(s, x, key), key)
    decreases |s|
  {
    if s == [] || key(s[|s| - 1]) <= key(x) {
      SortedSnoc(s, x, key);
    } else {
      var init, last := s[..|s| - 1], s[|s| - 1];
      assert SortedBy(init, key);
      InsertSorted(init, x, key);
      var a := Insert(init, x, key);
      forall i | 0 <= i < |a| ensures key(a[i]) <= key(last) {
        assert a[i] in multiset(a);
        assert a[i] in multiset(init) || a[i] == x;
        if a[i] != x {
          var j :| 0 <= j < |init| && init[j] == a[i];
          assert s[j] == init[j];
        }
      }
      SortedSnoc(a, last, key);
    }
  }

  /** The stable sort: repeated insertion of each element in list order. */
  function SortBy<T>(s: seq<T>, key: T -> int): (r: seq<T>)
    ensures multiset(r) == multiset(s)
    ensures |r| == |s|
  {
    if s == [] then []
    else
      assert s == s[..|s| - 1] + [s[|s| - 1]];
      Insert(SortBy(s[..|s| - 1], key), s[|s| - 1], key)
  }

  /** `SortBy` orders its result by key. */
  lemma {:induction false} SortByIsSorted<T>(s: seq<T>, key: T -> int)
    ensures SortedBy(SortBy(s, key), key)
  {
    if s != [] {
      SortByIsSorted(s[..|s| - 1], key);
      InsertSorted(SortBy(s[..|s| - 1], key), s[|s| - 1], key);
    }
  }

  lemma {:induction false} KeyClassAppend<T>(a: seq<T>, b: seq<T>, key: T -> int, k: int)
    ensures KeyClass(a + b, key, k) == KeyClass(a, key, k) + KeyClass(b, key, k)
    decreases |b|
  {
    if b == [] {
      assert a + b == a;
    } else {
      var b' := b[..|b| - 1];
      assert (a + b)[..|a + b| - 1] == a + b';
      KeyClassAppend(a, b', key, k);
    }
  }

  lemma {:induction false} KeyClassNone<T>(s: seq<T>, key: T -> int, k: int)
    requires forall i :: 0 <= i < |s| ==> key(s[i]) != k
    ensures KeyClass(s, key, k) == []
  {
    if s != [] {
      KeyClassNone(s[..|s| - 1], key, k);
    }
  }

  /** The key class of a one-element sequence. */
  lemma KeyClassSingleton<T>(x: T, key: T -> int, k: int)
    ensures KeyClass([x], key, k) == if key(x) == k then [x] else []
  {
    assert [x][..0] == [];
  }

  /** Inserting `x` in front of a larger-keyed `last` adds `x` to its key class
      exactly where appending it would. */
  lemma InsertBeforeLast<T>(a: seq<T>, init: seq<T>, x: T, last: T, key: T -> int, k: int)
    requires key(x) < key(last)
    requires KeyClass(a, key, k) == KeyClass(init, key, k) + (if key(x) == k then [x] else [])
    ensures KeyClass(a + [last], key, k)
         == KeyClass(init + [last], key, k) + (if key(x) == k then [x] else [])
  {
    KeyClassAppend(a, [last], key, k);
    KeyClassAppend(init, [last], key, k);
    KeyClassSingleton(last, key, k);
    if key(x) == k {
      assert KeyClass(init + [last], key, k) == KeyClass(init, key, k) + [];
    } else {
      assert KeyClass(init, key, k) + [] + KeyClass([last], key, k)
          == KeyClass(init, key, k) + KeyClass([last], key, k);
    }
  }

  lemma {:induction false} InsertKeyClass<T>(s: seq<T>, x: T, key: T -> int, k: int)
    requires SortedBy(s, key)
    ensures KeyClass(Insert(s, x, key), key, k)
         == KeyClass(s, key, k) + (if key(x) == k then [x] else [])
    decreases |s|
  {
    if s == [] || key(s[|s| - 1]) <= key(x) {
      KeyClassAppend(s, [x], key, k);
      KeyClassSingleton(x, key, k);
    } else {
      var init, last := s[..|s| - 1], s[|s| - 1];
      assert s == init + [last];
      assert SortedBy(init, key);
      InsertKeyClass(init, x, key, k);
      InsertBeforeLast(Insert(init, x, key), init, x, last, key, k);
    }
  }

  /** When no later element shares the key of `s[i]`, `s[i]` is the last of its key class. */
  lemma {:induction false} KeyClassLastAt<T>(s: seq<T>, key: T -> int, i: nat)
    requires i < |s|
    requires forall j :: i < j < |s| ==> key(s[j]) != key(s[i])
    ensures var c := KeyClass(s, key, key(s[i])); |c| > 0 && c[|c| - 1] == s[i]
    decreases |s|
  {
    if i < |s| - 1 {
      var init := s[..|s| - 1];
      assert init[i] == s[i];
      KeyClassLastAt(init, key, i);
    }
  }

  /** Stability: within each key, `SortBy` keeps the input order. */
  lemma {:induction false} SortByIsStable<T>(s: seq<T>, key: T -> int, k: int)
    ensures KeyClass(SortBy(s, key), key, k) == KeyClass(s, key, k)
  {
    if s != [] {
      var init := s[..|s| - 1];
      SortByIsStable(init, key, k);
      SortByIsSorted(init, key);
      InsertKeyClass(SortBy(init, key), s[|s| - 1], key, k);
    }
  }
}
