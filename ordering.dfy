/**
 * Python's ordering of `str` values and the stable sort behind `sorted(...)`
 * and `list.sort(key=...)`, as used by both scripts.
 *
 * The sort is specified by a stable insertion sort over a key into strings:
 * its result is a permutation of the input, ordered by key, and the elements
 * that share a key keep their original relative order.
 */
module Ordering {

  /** `a <= b` for Python strings: code point by code point, a proper prefix first. */
  predicate StrLe(a: string, b: string)
  {
    |a| == 0 || (|b| > 0 && (a[0] < b[0] || (a[0] == b[0] && StrLe(a[1..], b[1..]))))
  }

  lemma {:induction false} StrLeTotal(a: string, b: string)
    ensures StrLe(a, b) || StrLe(b, a)
  {
    if |a| > 0 && |b| > 0 && a[0] == b[0] {
      StrLeTotal(a[1..], b[1..]);
    }
  }

  lemma {:induction false} StrLeTransitive(a: string, b: string, c: string)
    requires StrLe(a, b) && StrLe(b, c)
    ensures StrLe(a, c)
  {
    if |a| > 0 && a[0] == b[0] && b[0] == c[0] {
      StrLeTransitive(a[1..], b[1..], c[1..]);
    }
  }

  lemma {:induction false} StrLeAntisymmetric(a: string, b: string)
    requires StrLe(a, b) && StrLe(b, a)
    ensures a == b
  {
    if |a| > 0 {
      StrLeAntisymmetric(a[1..], b[1..]);
      assert a == [a[0]] + a[1..] && b == [b[0]] + b[1..];
    }
  }

  /** Every pair of elements is in key order. */
  ghost predicate SortedBy<T>(s: seq<T>, key: T -> string)
  {
    forall i, j :: 0 <= i < j < |s| ==> StrLe(key(s[i]), key(s[j]))
  }

  /** The elements of `s` whose key is `k`, in their order in `s`. */
  function KeyFilter<T>(s: seq<T>, key: T -> string, k: string): (r: seq<T>)
    ensures forall x :: x in r ==> x in s && key(x) == k
  {
    if s == [] then []
    else (if key(s[0]) == k then [s[0]] else []) + KeyFilter(s[1..], key, k)
  }

  lemma {:induction false} KeyFilterAppend<T>(a: seq<T>, b: seq<T>, key: T -> string, k: string)
    ensures KeyFilter(a + b, key, k) == KeyFilter(a, key, k) + KeyFilter(b, key, k)
  {
    if a == [] {
      assert a + b == b;
    } else {
      assert (a + b)[0] == a[0] && (a + b)[1..] == a[1..] + b;
      KeyFilterAppend(a[1..], b, key, k);
    }
  }

  lemma {:induction false} KeyFilterNone<T>(s: seq<T>, key: T -> string, k: string)
    requires forall x :: x in s ==> key(x) != k
    ensures KeyFilter(s, key, k) == []
  {
    if s != [] {
      KeyFilterNone(s[1..], key, k);
    }
  }

  /** Places `x` after every element whose key is at most its own. */
  function Insert<T>(x: T, s: seq<T>, key: T -> string): (r: seq<T>)
    ensures multiset(r) == multiset(s) + multiset{x}
    ensures |r| == |s| + 1
  {
    if s == [] || !StrLe(key(s[0]), key(x)) then [x] + s
    else
      assert s == [s[0]] + s[1..];
      [s[0]] + Insert(x, s[1..], key)
  }

  /** A sorted sequence stays sorted under a new first element that is at most all of it. */
  lemma SortedCons<T>(y: T, t: seq<T>, key: T -> string)
    requires SortedBy(t, key)
    requires forall z :: z in t ==> StrLe(key(y), key(z))
    ensures SortedBy([y] + t, key)
  {
    var r := [y] + t;
    forall i, j | 0 <= i < j < |r| ensures StrLe(key(r[i]), key(r[j])) {
      assert r[j] == t[j - 1];
      if i > 0 {
        assert r[i] == t[i - 1];
      }
    }
  }

  /** A key below the first of a sorted sequence is below all of it. */
  lemma BelowFirst<T>(x: T, s: seq<T>, key: T -> string)
    requires SortedBy(s, key) && s != []
    requires !StrLe(key(s[0]), key(x))
    ensures forall z :: z in s ==> StrLe(key(x), key(z)) && key(z) != key(x)
  {
    StrLeTotal(key(s[0]), key(x));
    forall z | z in s ensures StrLe(key(x), key(z)) && key(z) != key(x) {
      var j :| 0 <= j < |s| && s[j] == z;
      if j > 0 {
        assert StrLe(key(s[0]), key(s[j]));
        StrLeTransitive(key(x), key(s[0]), key(z));
      }
    }
  }

  /** The first of a sorted sequence is at most everything `x` is inserted among. */
  lemma FirstBelowInserted<T>(x: T, s: seq<T>, key: T -> string)
    requires SortedBy(s, key) && s != []
    requires StrLe(key(s[0]), key(x))
    ensures forall y :: y in Insert(x, s[1..], key) ==> StrLe(key(s[0]), key(y))
  {
    var tail := Insert(x, s[1..], key);
    forall y | y in tail ensures StrLe(key(s[0]), key(y)) {
      assert y in multiset(tail);
      if y != x {
        assert y in multiset(s[1..]);
        var j :| 0 <= j < |s[1..]| && s[1..][j] == y;
        assert s[j + 1] == y;
      }
    }
  }

  lemma {:induction false} InsertSorted<T>(x: T, s: seq<T>, key: T -> string)
    requires SortedBy(s, key)
    ensures SortedBy(Insert(x, s, key), key)
  {
    if s == [] {
    } else if !StrLe(key(s[0]), key(x)) {
      BelowFirst(x, s, key);
      SortedCons(x, s, key);
    } else {
      assert SortedBy(s[1..], key);
      InsertSorted(x, s[1..], key);
      FirstBelowInserted(x, s, key);
      SortedCons(s[0], Insert(x, s[1..], key), key);
    }
  }

  lemma ConcatAssociative<T>(a: seq<T>, b: seq<T>, c: seq<T>)
    ensures a + (b + c) == (a + b) + c
  {
  }

  lemma KeyFilterCons<T>(y: T, t: seq<T>, key: T -> string, k: string)
    ensures KeyFilter([y] + t, key, k) == (if key(y) == k then [y] else []) + KeyFilter(t, key, k)
  {
    assert ([y] + t)[0] == y && ([y] + t)[1..] == t;
  }

  /** When `x` goes in front, it is the first with its key. */
  lemma InsertStableFront<T>(x: T, s: seq<T>, key: T -> string, k: string)
    requires SortedBy(s, key) && s != []
    requires !StrLe(key(s[0]), key(x))
    ensures KeyFilter([x] + s, key, k) == KeyFilter(s, key, k) + (if key(x) == k then [x] else [])
  {
    KeyFilterCons(x, s, key, k);
    if key(x) == k {
      BelowFirst(x, s, key);
      KeyFilterNone(s, key, k);
      assert [x] + [] == [] + [x];
    } else {
      assert [] + KeyFilter(s, key, k) == KeyFilter(s, key, k) + [];
    }
  }

  /** When `x` goes behind the first element, stability follows from the rest. */
  lemma InsertStableBehind<T>(s: seq<T>, tail: seq<T>, added: seq<T>, key: T -> string, k: string)
    requires s != []
    requires KeyFilter(tail, key, k) == KeyFilter(s[1..], key, k) + added
    ensures KeyFilter([s[0]] + tail, key, k) == KeyFilter(s, key, k) + added
  {
    var first := if key(s[0]) == k then [s[0]] else [];
    KeyFilterCons(s[0], tail, key, k);
    assert KeyFilter(s, key, k) == first + KeyFilter(s[1..], key, k);
    ConcatAssociative(first, KeyFilter(s[1..], key, k), added);
  }

  lemma {:induction false} InsertStable<T>(x: T, s: seq<T>, key: T -> string, k: string)
    requires SortedBy(s, key)
    ensures KeyFilter(Insert(x, s, key), key, k)
            == KeyFilter(s, key, k) + (if key(x) == k then [x] else [])
  {
    if s == [] {
    } else if !StrLe(key(s[0]), key(x)) {
      assert Insert(x, s, key) == [x] + s;
      InsertStableFront(x, s, key, k);
    } else {
      assert Insert(x, s, key) == [s[0]] + Insert(x, s[1..], key);
      assert SortedBy(s[1..], key);
      InsertStable(x, s[1..], key, k);
      InsertStableBehind(s, Insert(x, s[1..], key), if key(x) == k then [x] else [], key, k);
    }
  }

  /** Stable sort by key: the last element is inserted into the sorted prefix. */
  function SortBy<T>(s: seq<T>, key: T -> string): (r: seq<T>)
    ensures multiset(r) == multiset(s)
    ensures |r| == |s|
  {
    if s == [] then []
    else
      assert s == s[..|s| - 1] + [s[|s| - 1]];
      Insert(s[|s| - 1], SortBy(s[..|s| - 1], key), key)
  }

  lemma {:induction false} SortBySorted<T>(s: seq<T>, key: T -> string)
    ensures SortedBy(SortBy(s, key), key)
  {
    if s != [] {
      SortBySorted(s[..|s| - 1], key);
      InsertSorted(s[|s| - 1], SortBy(s[..|s| - 1], key), key);
    }
  }

  lemma {:induction false} SortByStable<T>(s: seq<T>, key: T -> string, k: string)
    ensures KeyFilter(SortBy(s, key), key, k) == KeyFilter(s, key, k)
  {
    if s != [] {
      var init, last := s[..|s| - 1], s[|s| - 1];
      SortByStable(init, key, k);
      SortBySorted(init, key);
      InsertStable(last, SortBy(init, key), key, k);
      assert s == init + [last];
      KeyFilterAppend(init, [last], key, k);
      assert KeyFilter([last], key, k) == if key(last) == k then [last] else [];
    }
  }

  /**
   * The sort's result is a permutation of its input, ordered by key, and
   * stable: the elements with any one key appear in their original order.
   */
  lemma SortByCorrect<T>(s: seq<T>, key: T -> string)
    ensures multiset(SortBy(s, key)) == multiset(s)
    ensures SortedBy(SortBy(s, key), key)
    ensures forall k :: KeyFilter(SortBy(s, key), key, k) == KeyFilter(s, key, k)
  {
    SortBySorted(s, key);
    forall k ensures KeyFilter(SortBy(s, key), key, k) == KeyFilter(s, key, k) {
      SortByStable(s, key, k);
    }
  }

  /** The key under which `sorted(names)` orders plain strings. */
  function Identity(s: string): string { s }

  /** `sorted(names)`: the same names in ascending string order. */
  function SortStrings(names: seq<string>): (r: seq<string>)
    ensures multiset(r) == multiset(names)
    ensures forall i, j :: 0 <= i < j < |r| ==> StrLe(r[i], r[j])
  {
    SortByCorrect(names, Identity);
    SortBy(names, Identity)
  }
}
