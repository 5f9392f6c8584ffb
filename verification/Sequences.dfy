/** Counting and sorting lists, as `set` and `sorted` do. */
module Sequences {
  import opened Wrappers

  ghost predicate Distinct<T>(s: seq<T>) {
    forall i, j :: 0 <= i < j < |s| ==> s[i] != s[j]
  }

  function Elements<T(==)>(s: seq<T>): set<T> {
    set x | x in s
  }

  lemma DistinctCons<T>(s: seq<T>)
    requires s != []
    ensures Distinct(s) <==> s[0] !in s[1..] && Distinct(s[1..])
  {
    assert forall i :: 1 <= i < |s| ==> s[i] == s[1..][i - 1];
    if s[0] in s[1..] {
      var i :| 0 <= i < |s[1..]| && s[1..][i] == s[0];
      assert s[i + 1] == s[0];
    }
  }

  /** The pigeonhole principle: as many different elements as positions means none repeats. */
  lemma {:induction false} DistinctIsCount<T>(s: seq<T>)
    ensures |Elements(s)| <= |s|
    ensures |Elements(s)| == |s| <==> Distinct(s)
  {
    if s == [] {
      assert Elements(s) == {};
    } else {
      DistinctIsCount(s[1..]);
      DistinctCons(s);
      assert Elements(s) == {s[0]} + Elements(s[1..]);
      if s[0] in s[1..] {
        assert Elements(s) == Elements(s[1..]);
      }
    }
  }

  /** At most the first `count` elements. */
  function Take<T>(s: seq<T>, count: nat): seq<T> {
    if count < |s| then s[..count] else s
  }

  lemma Associate<T>(a: seq<T>, b: seq<T>, c: seq<T>)
    ensures a + (b + c) == a + b + c
  {
  }

  lemma TakeNext<T>(s: seq<T>, i: nat)
    requires i < |s|
    ensures s[..i + 1] == s[..i] + [s[i]]
    ensures Distinct(s) ==> s[i] !in s[..i]
  {
  }

  // ----- Inserting by a strict order -----

  ghost predicate Transitive<T(!new)>(before: (T, T) -> bool) {
    forall a, b, c :: before(a, b) && before(b, c) ==> before(a, c)
  }

  ghost predicate Ascends<T>(s: seq<T>, before: (T, T) -> bool) {
    forall i, j :: 0 <= i < j < |s| ==> before(s[i], s[j])
  }

  function Insert<T(!new)>(s: seq<T>, x: T, before: (T, T) -> bool): (longer: seq<T>)
    requires Transitive(before) && Ascends(s, before) && forall y :: y in s ==> before(x, y) || before(y, x)
    ensures Ascends(longer, before) && |longer| == |s| + 1
    ensures forall y :: y in longer <==> y in s || y == x
  {
    if s == [] || before(x, s[0]) then [x] + s
    else
      var rest := Insert(s[1..], x, before);
      assert forall y :: y in s <==> y == s[0] || y in s[1..];
      assert forall y :: y in rest ==> before(s[0], y) by {
        forall y | y in rest && y != x
          ensures before(s[0], y)
        {
          var i :| 0 <= i < |s| - 1 && s[1..][i] == y;
          assert s[i + 1] == y;
        }
      }
      assert forall i :: 0 <= i < |rest| ==> rest[i] in rest;
      [s[0]] + rest
  }

  // ----- Stable sorting by a key -----

  function InsertBy<T>(sorted: seq<T>, x: T, key: T -> real): seq<T> {
    var n := |sorted|;
    if n == 0 || key(sorted[n - 1]) <= key(x) then sorted + [x]
    else InsertBy(sorted[..n - 1], x, key) + [sorted[n - 1]]
  }

  function SortBy<T>(s: seq<T>, key: T -> real): seq<T> {
    if s == [] then [] else InsertBy(SortBy(s[..|s| - 1], key), s[|s| - 1], key)
  }

  ghost predicate OrderedBy<T>(s: seq<T>, key: T -> real) {
    forall i, j :: 0 <= i < j < |s| ==> key(s[i]) <= key(s[j])
  }

  lemma {:induction false} InsertByMeaning<T>(sorted: seq<T>, x: T, key: T -> real)
    requires OrderedBy(sorted, key)
    ensures OrderedBy(InsertBy(sorted, x, key), key)
    ensures multiset(InsertBy(sorted, x, key)) == multiset(sorted) + multiset{x}
  {
    var n := |sorted|;
    if n > 0 && key(sorted[n - 1]) > key(x) {
      var shorter := sorted[..n - 1];
      InsertByMeaning(shorter, x, key);
      assert sorted == shorter + [sorted[n - 1]];
      var before := InsertBy(shorter, x, key);
      forall i | 0 <= i < |before|
        ensures key(before[i]) <= key(sorted[n - 1])
      {
        assert before[i] in multiset(before);
        assert before[i] in shorter || before[i] == x;
      }
    }
  }

  /** Sorting orders the list and loses nothing. */
  lemma {:induction false} SortByMeaning<T>(s: seq<T>, key: T -> real)
    ensures OrderedBy(SortBy(s, key), key) && multiset(SortBy(s, key)) == multiset(s)
    ensures |SortBy(s, key)| == |s|
  {
    if s != [] {
      var before := s[..|s| - 1];
      SortByMeaning(before, key);
      InsertByMeaning(SortBy(before, key), s[|s| - 1], key);
      assert s == before + [s[|s| - 1]];
    }
    assert |multiset(SortBy(s, key))| == |multiset(s)|;
  }

  /** The elements with one key, in order. */
  function WithKey<T>(s: seq<T>, key: T -> real, k: real): seq<T> {
    if s == [] then []
    else WithKey(s[..|s| - 1], key, k) + if key(s[|s| - 1]) == k then [s[|s| - 1]] else []
  }

  lemma {:induction false} InsertByIsStable<T>(sorted: seq<T>, x: T, key: T -> real, k: real)
    requires OrderedBy(sorted, key)
    ensures WithKey(InsertBy(sorted, x, key), key, k) == WithKey(sorted, key, k) + if key(x) == k then [x] else []
  {
    var n := |sorted|;
    if n == 0 || key(sorted[n - 1]) <= key(x) {
      assert (sorted + [x])[..n] == sorted;
    } else {
      var shorter, last := sorted[..n - 1], sorted[n - 1];
      InsertByIsStable(shorter, x, key, k);
      var longer := InsertBy(shorter, x, key) + [last];
      assert longer[..|longer| - 1] == InsertBy(shorter, x, key);
      if key(last) == k {
        assert key(x) != k;
      }
    }
  }

  /** Sorting keeps the order of elements with the same key. */
  lemma {:induction false} SortByIsStable<T>(s: seq<T>, key: T -> real, k: real)
    ensures WithKey(SortBy(s, key), key, k) == WithKey(s, key, k)
  {
    if s != [] {
      SortByIsStable(s[..|s| - 1], key, k);
      SortByMeaning(s[..|s| - 1], key);
      InsertByIsStable(SortBy(s[..|s| - 1], key), s[|s| - 1], key, k);
    }
  }

  /** Sorted distinct numbers below `n`, `n` of them, are just `0..n-1`. */
  lemma {:induction false} SortedRange(s: seq<int>, n: nat, k: nat)
    requires |s| == n && k < n && Distinct(s)
    requires forall i :: 0 <= i < n ==> 0 <= s[i] < n
    requires forall i, j :: 0 <= i < j < n ==> s[i] <= s[j]
    ensures s[k] == k
  {
    AtLeast(s, k);
    AtMost(s, n, k);
  }

  lemma {:induction false} AtLeast(s: seq<int>, k: nat)
    requires k < |s| && Distinct(s) && forall i :: 0 <= i < |s| ==> 0 <= s[i]
    requires forall i, j :: 0 <= i < j < |s| ==> s[i] <= s[j]
    ensures s[k] >= k
  {
    if k > 0 {
      AtLeast(s, k - 1);
      assert s[k - 1] != s[k];
    }
  }

  lemma {:induction false} AtMost(s: seq<int>, n: nat, k: nat)
    requires |s| == n && k < n && Distinct(s) && forall i :: 0 <= i < n ==> s[i] < n
    requires forall i, j :: 0 <= i < j < n ==> s[i] <= s[j]
    ensures s[k] <= k
    decreases n - k
  {
    if k < n - 1 {
      AtMost(s, n, k + 1);
      assert s[k] != s[k + 1];
    }
  }

  // ----- Mapping with gaps -----

  /** What `f` makes of the elements, in order, where it makes something. */
  function Collect<T, U>(s: seq<T>, f: T -> Option<U>): seq<U> {
    if s == [] then [] else (if f(s[0]).Some? then [f(s[0]).value] else []) + Collect(s[1..], f)
  }

  lemma CollectCons<T, U>(x: T, s: seq<T>, f: T -> Option<U>)
    ensures Collect([x] + s, f) == (if f(x).Some? then [f(x).value] else []) + Collect(s, f)
  {
    assert ([x] + s)[1..] == s;
  }

  lemma {:induction false} CollectAppend<T, U>(s: seq<T>, more: seq<T>, f: T -> Option<U>)
    ensures Collect(s + more, f) == Collect(s, f) + Collect(more, f)
  {
    if s == [] {
      assert s + more == more;
    } else {
      CollectCons(s[0], s[1..], f);
      CollectCons(s[0], s[1..] + more, f);
      CollectAppend(s[1..], more, f);
      assert [s[0]] + s[1..] == s && [s[0]] + (s[1..] + more) == s + more;
      Associate(if f(s[0]).Some? then [f(s[0]).value] else [], Collect(s[1..], f), Collect(more, f));
    }
  }

  lemma CollectOne<T, U>(x: T, f: T -> Option<U>)
    ensures Collect([x], f) == if f(x).Some? then [f(x).value] else []
  {
    assert [x][1..] == [];
  }
}
