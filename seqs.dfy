/** The array built-ins the stores and handlers call: `filter`, `findIndex`
    and a stable `sort` by a comparator of the form `key(a) - key(b)`. */
module Seqs {
  import opened Js

  /** `s.filter(p)` */
  function Filter<T>(s: seq<T>, p: T -> bool): (r: seq<T>)
    ensures |r| <= |s|
    ensures forall i :: 0 <= i < |r| ==> r[i] in s && p(r[i])
    ensures forall i :: 0 <= i < |s| && p(s[i]) ==> s[i] in r
  {
    if s == [] then []
    else if p(s[0]) then [s[0]] + Filter(s[1..], p)
    else Filter(s[1..], p)
  }

  /** Filtering distributes over concatenation: kept elements stay in their order. */
  lemma {:induction false} FilterAppend<T>(a: seq<T>, b: seq<T>, p: T -> bool)
    ensures Filter(a + b, p) == Filter(a, p) + Filter(b, p)
  {
    if a == [] {
      assert a + b == b;
    } else {
      assert (a + b)[0] == a[0];
      assert (a + b)[1..] == a[1..] + b;
      FilterAppend(a[1..], b, p);
    }
  }

  /** A filter that keeps everything is the identity. */
  lemma {:induction false} FilterKeepsAll<T>(s: seq<T>, p: T -> bool)
    requires forall i :: 0 <= i < |s| ==> p(s[i])
    ensures Filter(s, p) == s
  {
    if s != [] {
      FilterKeepsAll(s[1..], p);
    }
  }

  /** Filtering by a stronger predicate keeps a sub-multiset. */
  lemma {:induction false} FilterMonotone<T>(s: seq<T>, p: T -> bool, q: T -> bool)
    requires forall x :: p(x) ==> q(x)
    ensures multiset(Filter(s, p)) <= multiset(Filter(s, q))
  {
    if s != [] {
      FilterMonotone(s[1..], p, q);
    }
  }

  /** `s.findIndex(p)`: the first index satisfying `p`, or -1. */
  function FindIndex<T>(s: seq<T>, p: T -> bool): (i: int)
    ensures -1 <= i < |s|
    ensures 0 <= i ==> p(s[i]) && forall j :: 0 <= j < i ==> !p(s[j])
    ensures i == -1 ==> forall j :: 0 <= j < |s| ==> !p(s[j])
  {
    if s == [] then -1
    else if p(s[0]) then 0
    else
      var k := FindIndex(s[1..], p);
      if k == -1 then -1 else k + 1
  }

  /** `a` sorts strictly before `b` under the comparator `key(a) - key(b)`
      (`key(b) - key(a)` when descending): the comparator is negative. A
      missing key is NaN, which `Array.prototype.sort` reads as "equal". */
  predicate Precedes<T>(key: T -> Option<int>, descending: bool, a: T, b: T) {
    key(a).Some? && key(b).Some? &&
    (if descending then key(b).value < key(a).value else key(a).value < key(b).value)
  }

  /** Every element has a key. */
  predicate Keyed<T>(s: seq<T>, key: T -> Option<int>) {
    forall i :: 0 <= i < |s| ==> key(s[i]).Some?
  }

  /** No later element sorts strictly before an earlier one. */
  predicate Sorted<T>(s: seq<T>, key: T -> Option<int>, descending: bool) {
    forall i, j :: 0 <= i < j < |s| ==> !Precedes(key, descending, s[j], s[i])
  }

  /** Inserts `x` before the first element that does not sort strictly before it. */
  function Insert<T>(x: T, s: seq<T>, key: T -> Option<int>, descending: bool): (r: seq<T>)
    ensures multiset(r) == multiset(s) + multiset{x}
  {
    if s == [] || !Precedes(key, descending, s[0], x) then [x] + s
    else
      assert s == [s[0]] + s[1..];
      [s[0]] + Insert(x, s[1..], key, descending)
  }

  /** `s.slice().sort(cmp)` for a comparator `key(a) - key(b)` (or its negation),
      as a stable insertion sort. */
  function SortBy<T>(s: seq<T>, key: T -> Option<int>, descending: bool): (r: seq<T>)
    ensures multiset(r) == multiset(s)
  {
    if s == [] then []
    else
      assert s == [s[0]] + s[1..];
      Insert(s[0], SortBy(s[1..], key, descending), key, descending)
  }

  lemma {:induction false} InsertSorted<T>(x: T, s: seq<T>, key: T -> Option<int>, descending: bool)
    requires key(x).Some? && Keyed(s, key) && Sorted(s, key, descending)
    ensures Keyed(Insert(x, s, key, descending), key)
    ensures Sorted(Insert(x, s, key, descending), key, descending)
  {
    var r := Insert(x, s, key, descending);
    if s == [] || !Precedes(key, descending, s[0], x) {
      assert r == [x] + s;
    } else {
      var t := Insert(x, s[1..], key, descending);
      InsertSorted(x, s[1..], key, descending);
      assert r == [s[0]] + t;
      forall j | 0 <= j < |t|
        ensures !Precedes(key, descending, t[j], s[0])
      {
        assert t[j] in multiset(t);
        if t[j] != x {
          assert t[j] in multiset(s[1..]);
          var k :| 0 <= k < |s[1..]| && s[1..][k] == t[j];
          assert s[k + 1] == t[j];
        }
      }
    }
  }

  /** Sorting makes the sequence sorted when every element has a key. */
  lemma {:induction false} SortBySorted<T>(s: seq<T>, key: T -> Option<int>, descending: bool)
    requires Keyed(s, key)
    ensures Sorted(SortBy(s, key, descending), key, descending)
  {
    if s != [] {
      SortBySorted(s[1..], key, descending);
      assert Keyed(SortBy(s[1..], key, descending), key) by {
        var t := SortBy(s[1..], key, descending);
        forall i | 0 <= i < |t| ensures key(t[i]).Some? {
          assert t[i] in multiset(s[1..]);
          var k :| 0 <= k < |s[1..]| && s[1..][k] == t[i];
          assert s[k + 1] == t[i];
        }
      }
      InsertSorted(s[0], SortBy(s[1..], key, descending), key, descending);
    }
  }

  /** The elements whose key is `v`. */
  function KeyIs<T>(key: T -> Option<int>, v: int): T -> bool {
    t => key(t) == Some(v)
  }

  /** Inserting `x` puts no element with `x`'s key ahead of it: among the
      elements with key `v`, `x` comes first if it has that key. */
  lemma {:induction false} InsertStable<T>(x: T, s: seq<T>, key: T -> Option<int>, descending: bool, v: int)
    ensures Filter(Insert(x, s, key, descending), KeyIs(key, v)) ==
      (if key(x) == Some(v) then [x] else []) + Filter(s, KeyIs(key, v))
  {
    var r := Insert(x, s, key, descending);
    if s == [] || !Precedes(key, descending, s[0], x) {
      assert r == [x] + s;
      assert r[0] == x && r[1..] == s;
    } else {
      var t := Insert(x, s[1..], key, descending);
      assert r == [s[0]] + t;
      assert r[0] == s[0] && r[1..] == t;
      InsertStable(x, s[1..], key, descending, v);
    }
  }

  /** The sort is stable: the elements sharing any one key keep their input
      order. */
  lemma {:induction false} SortByStable<T>(s: seq<T>, key: T -> Option<int>, descending: bool, v: int)
    ensures Filter(SortBy(s, key, descending), KeyIs(key, v)) == Filter(s, KeyIs(key, v))
  {
    if s != [] {
      SortByStable(s[1..], key, descending, v);
      InsertStable(s[0], SortBy(s[1..], key, descending), key, descending, v);
    }
  }
}
