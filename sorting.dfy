/** `Array.prototype.sort`, which the ECMAScript standard requires to be
    stable, on values: a comparator `le(x, y)` says that `x` may come before
    `y` (the JavaScript comparator returned a number <= 0), and the result is
    ordered, a permutation of the input, and keeps the input order of
    elements that compare equal. */
module Sorting {
  import opened Common

  ghost predicate Total<T(!new)>(le: (T, T) -> bool) {
    forall x, y :: le(x, y) || le(y, x)
  }

  ghost predicate Transitive<T(!new)>(le: (T, T) -> bool) {
    forall x, y, z :: le(x, y) && le(y, z) ==> le(x, z)
  }

  /** Each element may come before its successor. */
  predicate SortedBy<T>(s: seq<T>, le: (T, T) -> bool) {
    forall i :: 0 <= i < |s| - 1 ==> le(s[i], s[i + 1])
  }

  /** `x` placed before the first element it may precede. */
  function Insert<T>(x: T, s: seq<T>, le: (T, T) -> bool): (r: seq<T>)
    ensures |r| == |s| + 1
    ensures multiset(r) == multiset(s) + multiset{x}
    ensures r[0] == x || (s != [] && r[0] == s[0])
  {
    if s == [] then [x]
    else if le(x, s[0]) then [x] + s
    else
      assert s == [s[0]] + s[1..];
      [s[0]] + Insert(x, s[1..], le)
  }

  /** The stable sort of `s` by `le`. */
  function SortBy<T>(s: seq<T>, le: (T, T) -> bool): (r: seq<T>)
    ensures |r| == |s|
    ensures multiset(r) == multiset(s)
  {
    if s == [] then []
    else
      assert s == [s[0]] + s[1..];
      Insert(s[0], SortBy(s[1..], le), le)
  }

  lemma {:induction false} InsertSorted<T(!new)>(x: T, s: seq<T>, le: (T, T) -> bool)
    requires Total(le) && SortedBy(s, le)
    ensures SortedBy(Insert(x, s, le), le)
  {
    if s != [] && !le(x, s[0]) {
      assert le(s[0], x);
      InsertSorted(x, s[1..], le);
      var t := Insert(x, s[1..], le);
      assert Insert(x, s, le) == [s[0]] + t;
      assert le(s[0], t[0]);
    }
  }

  /** The result is ordered, whenever any two elements can be compared. */
  lemma {:induction false} SortBySorted<T(!new)>(s: seq<T>, le: (T, T) -> bool)
    requires Total(le)
    ensures SortedBy(SortBy(s, le), le)
  {
    if s != [] {
      SortBySorted(s[1..], le);
      InsertSorted(s[0], SortBy(s[1..], le), le);
    }
  }

  /** With a transitive comparator, every earlier element may precede every later one. */
  lemma {:induction false} SortedAllPairs<T(!new)>(s: seq<T>, le: (T, T) -> bool, i: nat, j: nat)
    requires Transitive(le) && SortedBy(s, le)
    requires i < j < |s|
    ensures le(s[i], s[j])
    decreases j - i
  {
    if i + 1 < j {
      SortedAllPairs(s, le, i + 1, j);
    }
  }

  lemma {:induction false} InsertFilter<T>(x: T, t: seq<T>, le: (T, T) -> bool, p: T -> bool)
    requires p(x) ==> forall k :: 0 <= k < |t| && p(t[k]) ==> le(x, t[k])
    ensures Filter(Insert(x, t, le), p) == (if p(x) then [x] else []) + Filter(t, p)
  {
    if t == [] {
      FilterCons(x, t, p);
    } else if le(x, t[0]) {
      FilterCons(x, t, p);
    } else {
      var tail := t[1..];
      var rest := Insert(x, tail, le);
      assert Insert(x, t, le) == [t[0]] + rest;
      BoundTail(x, t, le, p);
      InsertFilter(x, tail, le, p);
      FilterPast(t[0], x, tail, rest, p);
      assert [t[0]] + tail == t;
    }
  }

  /** The bound on the elements satisfying `p` holds for the tail too. */
  lemma BoundTail<T>(x: T, t: seq<T>, le: (T, T) -> bool, p: T -> bool)
    requires t != [] && (p(x) ==> forall k :: 0 <= k < |t| && p(t[k]) ==> le(x, t[k]))
    ensures p(x) ==> forall k :: 0 <= k < |t| - 1 && p(t[1..][k]) ==> le(x, t[1..][k])
  {
    if p(x) {
      forall k | 0 <= k < |t| - 1 && p(t[1..][k]) ensures le(x, t[1..][k]) {
        assert t[1..][k] == t[k + 1];
      }
    }
  }

  /** An element that `p` rejects whenever it keeps `x` can be put in front of `x`
      without changing the kept elements' order. */
  lemma FilterPast<T>(y: T, x: T, tail: seq<T>, rest: seq<T>, p: T -> bool)
    requires p(x) ==> !p(y)
    requires Filter(rest, p) == (if p(x) then [x] else []) + Filter(tail, p)
    ensures Filter([y] + rest, p) == (if p(x) then [x] else []) + Filter([y] + tail, p)
  {
    FilterCons(y, rest, p);
    FilterCons(y, tail, p);
    var kept := Filter(tail, p);
    if p(x) {
      assert Filter(rest, p) == [x] + kept;
      assert Filter([y] + rest, p) == [] + ([x] + kept) == [x] + kept;
      assert Filter([y] + tail, p) == [] + kept == kept;
    } else {
      var head := if p(y) then [y] else [];
      assert Filter(rest, p) == [] + kept == kept;
      assert Filter([y] + rest, p) == head + kept;
      assert Filter([y] + tail, p) == head + kept;
      assert [] + (head + kept) == head + kept;
    }
  }

  /** Among the elements satisfying `p`, each may precede every later one. */
  predicate ClassOrdered<T>(s: seq<T>, le: (T, T) -> bool, p: T -> bool) {
    forall i, j :: 0 <= i < j < |s| && p(s[i]) && p(s[j]) ==> le(s[i], s[j])
  }

  lemma ClassOrderedTail<T>(s: seq<T>, le: (T, T) -> bool, p: T -> bool)
    requires s != [] && ClassOrdered(s, le, p)
    ensures ClassOrdered(s[1..], le, p)
  {
    var tail := s[1..];
    forall i, j | 0 <= i < j < |tail| && p(tail[i]) && p(tail[j]) ensures le(tail[i], tail[j]) {
      assert tail[i] == s[i + 1] && tail[j] == s[j + 1];
    }
  }

  lemma HeadPrecedesClass<T>(s: seq<T>, t: seq<T>, le: (T, T) -> bool, p: T -> bool)
    requires s != [] && ClassOrdered(s, le, p) && p(s[0])
    requires multiset(t) == multiset(s[1..])
    ensures forall k :: 0 <= k < |t| && p(t[k]) ==> le(s[0], t[k])
  {
    var tail := s[1..];
    forall k | 0 <= k < |t| && p(t[k]) ensures le(s[0], t[k]) {
      assert t[k] in multiset(tail);
      var j :| 0 <= j < |tail| && tail[j] == t[k];
      assert s[j + 1] == t[k];
    }
  }

  /** Stability: restricted to any class of elements that compare equal
      (any class on which `le` holds in the input order), the sort keeps the
      input order. */
  lemma {:induction false} SortByStable<T>(s: seq<T>, le: (T, T) -> bool, p: T -> bool)
    requires ClassOrdered(s, le, p)
    ensures Filter(SortBy(s, le), p) == Filter(s, p)
  {
    if s != [] {
      var tail := s[1..];
      ClassOrderedTail(s, le, p);
      SortByStable(tail, le, p);
      var t := SortBy(tail, le);
      if p(s[0]) {
        HeadPrecedesClass(s, t, le, p);
      }
      InsertKeepsFilter(s[0], tail, t, le, p);
      assert SortBy(s, le) == Insert(s[0], t, le);
      assert [s[0]] + tail == s;
    }
  }

  /** Inserting `x` into a list that filters like `tail` gives a list that
      filters like `[x] + tail`. */
  lemma InsertKeepsFilter<T>(x: T, tail: seq<T>, t: seq<T>, le: (T, T) -> bool, p: T -> bool)
    requires Filter(t, p) == Filter(tail, p)
    requires p(x) ==> forall k :: 0 <= k < |t| && p(t[k]) ==> le(x, t[k])
    ensures Filter(Insert(x, t, le), p) == Filter([x] + tail, p)
  {
    InsertFilter(x, t, le, p);
    FilterCons(x, tail, p);
  }

  // ---------------------------------------------------------------------------
  // Lexicographic order on strings (`localeCompare`, modelled as code-point order)

  predicate LexLe(a: string, b: string)
    decreases |a|
  {
    a == [] || (b != [] && (a[0] < b[0] || (a[0] == b[0] && LexLe(a[1..], b[1..]))))
  }

  lemma {:induction false} LexLeTotal(a: string, b: string)
    ensures LexLe(a, b) || LexLe(b, a)
    decreases |a|
  {
    if a != [] && b != [] && a[0] == b[0] {
      LexLeTotal(a[1..], b[1..]);
    }
  }

  lemma {:induction false} LexLeReflexive(a: string)
    ensures LexLe(a, a)
    decreases |a|
  {
    if a != [] {
      LexLeReflexive(a[1..]);
    }
  }

  lemma {:induction false} LexLeTransitive(a: string, b: string, c: string)
    requires LexLe(a, b) && LexLe(b, c)
    ensures LexLe(a, c)
    decreases |a|
  {
    if a != [] && a[0] == b[0] && b[0] == c[0] {
      LexLeTransitive(a[1..], b[1..], c[1..]);
    }
  }

  /** Two strings each at most the other are equal. */
  lemma {:induction false} LexLeAntisymmetric(a: string, b: string)
    requires LexLe(a, b) && LexLe(b, a)
    ensures a == b
    decreases |a|
  {
    if a != [] {
      LexLeAntisymmetric(a[1..], b[1..]);
      assert a == [a[0]] + a[1..] && b == [b[0]] + b[1..];
    }
  }

  /** A comparator on records through a string key, ascending or descending
      (`a.k.localeCompare(b.k)` or `b.k.localeCompare(a.k)`). */
  function ByKey<T>(key: T -> string, descending: bool): (T, T) -> bool {
    (x: T, y: T) => if descending then LexLe(key(y), key(x)) else LexLe(key(x), key(y))
  }

  /** The class of elements whose key is `k`. */
  function HasKey<T>(key: T -> string, k: string): T -> bool {
    (x: T) => key(x) == k
  }

  lemma ByKeyTotal<T(!new)>(key: T -> string, descending: bool)
    ensures Total(ByKey(key, descending))
  {
    forall x: T, y: T ensures ByKey(key, descending)(x, y) || ByKey(key, descending)(y, x) {
      LexLeTotal(key(x), key(y));
    }
  }

  lemma ByKeyTransitive<T(!new)>(key: T -> string, descending: bool)
    ensures Transitive(ByKey(key, descending))
  {
    var le := ByKey(key, descending);
    forall x: T, y: T, z: T | le(x, y) && le(y, z) ensures le(x, z) {
      if descending {
        LexLeTransitive(key(z), key(y), key(x));
      } else {
        LexLeTransitive(key(x), key(y), key(z));
      }
    }
  }

  /** Sorting by a key: the result is a permutation of the input, ordered by the key
      (every earlier element's key is at most every later one's, or at least
      when descending), and elements with the same key keep their input order. */
  lemma SortByKeyProperties<T(!new)>(s: seq<T>, key: T -> string, descending: bool, k: string)
    ensures multiset(SortBy(s, ByKey(key, descending))) == multiset(s)
    ensures forall i, j :: 0 <= i < j < |s| ==>
      var r := SortBy(s, ByKey(key, descending));
      if descending then LexLe(key(r[j]), key(r[i])) else LexLe(key(r[i]), key(r[j]))
    ensures Filter(SortBy(s, ByKey(key, descending)), HasKey(key, k)) == Filter(s, HasKey(key, k))
  {
    var le := ByKey(key, descending);
    var r := SortBy(s, le);
    ByKeyTotal(key, descending);
    ByKeyTransitive(key, descending);
    SortBySorted(s, le);
    forall i, j | 0 <= i < j < |s|
      ensures if descending then LexLe(key(r[j]), key(r[i])) else LexLe(key(r[i]), key(r[j]))
    {
      SortedAllPairs(r, le, i, j);
    }
    var p := HasKey(key, k);
    forall i, j | 0 <= i < j < |s| && p(s[i]) && p(s[j]) ensures le(s[i], s[j]) {
      LexLeReflexive(k);
    }
    SortByStable(s, le, p);
  }
}
