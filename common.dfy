/** Values and string operations shared by every component model.

    JavaScript strings are modelled as `seq<char>`; "truthy" for a string means
    non-empty, for a number non-zero, for an optional value present. */
module Common {

  /** An optional value: `undefined`/`null` is `None`. */
  datatype Option<T> = None | Some(value: T) {
    function GetOr(default: T): T {
      if Some? then value else default
    }
  }

  /** The outcome of an operation that may fail with a message (a thrown `Error`). */
  datatype Result<T> = Ok(value: T) | Err(message: string)

  /** JavaScript `a || b` on strings: the first operand when it is non-empty. */
  function OrElse(a: string, b: string): string {
    if a != "" then a else b
  }

  /** A number that is present and non-zero is truthy. */
  predicate TruthyInt(x: Option<int>) {
    x.Some? && x.value != 0
  }

  /** JavaScript `x || 0` on an optional number. */
  function IntOrZero(x: Option<int>): int {
    if x.Some? then x.value else 0
  }

  /** JavaScript `x || 0` on an optional real-valued number. */
  function RealOrZero(x: Option<real>): real {
    if x.Some? then x.value else 0.0
  }

  // ---------------------------------------------------------------------------
  // Generic sequence operations (Array.prototype.filter / map)

  /** `s.filter(p)`: the elements of `s` satisfying `p`, in their order. */
  function Filter<T>(s: seq<T>, p: T -> bool): (r: seq<T>)
    ensures |r| <= |s|
  {
    if s == [] then [] else (if p(s[0]) then [s[0]] else []) + Filter(s[1..], p)
  }

  lemma FilterCons<T>(x: T, s: seq<T>, p: T -> bool)
    ensures Filter([x] + s, p) == (if p(x) then [x] else []) + Filter(s, p)
  {
    assert ([x] + s)[1..] == s;
  }

  /** The filtered sequence holds exactly the elements of `s` that satisfy `p`. */
  lemma {:induction false} FilterMembers<T>(s: seq<T>, p: T -> bool)
    ensures forall i :: 0 <= i < |Filter(s, p)| ==> Filter(s, p)[i] in s && p(Filter(s, p)[i])
    ensures forall i :: 0 <= i < |s| && p(s[i]) ==> s[i] in Filter(s, p)
  {
    if s != [] {
      FilterMembers(s[1..], p);
      var h := if p(s[0]) then [s[0]] else [];
      var t := Filter(s[1..], p);
      assert Filter(s, p) == h + t;
      forall i | 0 <= i < |s| && p(s[i]) ensures s[i] in Filter(s, p) {
        if i > 0 {
          assert s[i] == s[1..][i - 1];
        }
      }
    }
  }

  /** Filtering a concatenation filters each part and keeps them in order. */
  lemma {:induction false} FilterAppend<T>(a: seq<T>, b: seq<T>, p: T -> bool)
    ensures Filter(a + b, p) == Filter(a, p) + Filter(b, p)
    decreases |a|
  {
    if a == [] {
      assert a + b == b;
    } else {
      assert a + b == [a[0]] + (a[1..] + b);
      assert a == [a[0]] + a[1..];
      FilterCons(a[0], a[1..] + b, p);
      FilterCons(a[0], a[1..], p);
      FilterAppend(a[1..], b, p);
    }
  }

  /** Filtering with a predicate every element satisfies changes nothing. */
  lemma {:induction false} FilterAll<T>(s: seq<T>, p: T -> bool)
    requires forall i :: 0 <= i < |s| ==> p(s[i])
    ensures Filter(s, p) == s
  {
    if s != [] {
      FilterAll(s[1..], p);
    }
  }

  /** `s.findIndex(p)`: the first index whose element satisfies `p`, or -1.
      `s.find(p)` is the element there. */
  function FirstIndex<T>(s: seq<T>, p: T -> bool): (k: int)
    ensures -1 <= k < |s|
    ensures k == -1 <==> forall j :: 0 <= j < |s| ==> !p(s[j])
    ensures k >= 0 ==> p(s[k]) && forall j :: 0 <= j < k ==> !p(s[j])
    decreases |s|
  {
    if s == [] then -1
    else if p(s[0]) then 0
    else
      var k := FirstIndex(s[1..], p);
      if k == -1 then -1 else k + 1
  }

  // ---------------------------------------------------------------------------
  // Characters and strings

  /** ASCII lower-casing of one character (String.prototype.toLowerCase). */
  function LowerChar(c: char): char {
    if 'A' <= c <= 'Z' then (c as int + 32) as char else c
  }

  function Lower(s: string): (r: string)
    ensures |r| == |s|
    ensures forall i :: 0 <= i < |s| ==> r[i] == LowerChar(s[i])
  {
    seq(|s|, i requires 0 <= i < |s| => LowerChar(s[i]))
  }

  predicate StartsWith(s: string, q: string) {
    |q| <= |s| && s[..|q|] == q
  }

  /** String.prototype.includes: `q` occurs in `s` at some position. */
  predicate Contains(s: string, q: string)
    decreases |s|
  {
    StartsWith(s, q) || (s != [] && Contains(s[1..], q))
  }

  /** The white-space and line-terminator characters that JavaScript's `trim`
      and the regular-expression class `\s` both use. */
  predicate IsJsSpace(c: char) {
    c == ' ' || c == '\t' || c == '\n' || c == '\r' || c == '\U{000B}' || c == '\U{000C}'
    || c == '\U{00A0}' || c == '\U{1680}' || ('\U{2000}' <= c <= '\U{200A}')
    || c == '\U{2028}' || c == '\U{2029}' || c == '\U{202F}' || c == '\U{205F}'
    || c == '\U{3000}' || c == '\U{FEFF}'
  }

  predicate AllSpace(s: string) {
    forall i :: 0 <= i < |s| ==> IsJsSpace(s[i])
  }

  function TrimStart(s: string): (r: string)
    ensures |r| <= |s| && r == s[|s| - |r|..]
    ensures forall i :: 0 <= i < |s| - |r| ==> IsJsSpace(s[i])
    ensures r == [] || !IsJsSpace(r[0])
  {
    if s != [] && IsJsSpace(s[0]) then TrimStart(s[1..]) else s
  }

  function TrimEnd(s: string): (r: string)
    ensures |r| <= |s| && r == s[..|r|]
    ensures AllSpace(s[|r|..])
    ensures r == [] || !IsJsSpace(r[|r| - 1])
  {
    if s != [] && IsJsSpace(s[|s| - 1]) then TrimEnd(s[..|s| - 1]) else s
  }

  /** String.prototype.trim: `s` with its leading and trailing white space removed. */
  function Trim(s: string): (r: string)
    ensures |r| <= |s|
    ensures r == [] || (!IsJsSpace(r[0]) && !IsJsSpace(r[|r| - 1]))
    ensures r == [] <==> AllSpace(s)
  {
    var t := TrimStart(s);
    var r := TrimEnd(t);
    assert r == [] ==> AllSpace(s) by {
      if r == [] {
        assert s == s[..|s| - |t|] + t;
        assert t[|r|..] == t;
      }
    }
    assert AllSpace(s) ==> t == [] by {
      if t != [] {
        assert t[0] == s[|s| - |t|];
      }
    }
    r
  }

  /** `s.split(c)[0]`: the text before the first `c`, or all of `s`. */
  function BeforeFirst(s: string, c: char): (r: string)
    ensures |r| <= |s| && r == s[..|r|]
    ensures c !in r
    ensures |r| < |s| ==> s[|r|] == c
  {
    if s == [] || s[0] == c then [] else [s[0]] + BeforeFirst(s[1..], c)
  }

  /** String.prototype.split with a one-character separator. */
  function Split(s: string, c: char): (r: seq<string>)
    ensures |r| >= 1 && r[0] == BeforeFirst(s, c)
    ensures forall i :: 0 <= i < |r| ==> c !in r[i]
    decreases |s|
  {
    var p := BeforeFirst(s, c);
    if |p| == |s| then [s] else [p] + Split(s[|p| + 1..], c)
  }

  /** Array.prototype.join with a one-character separator. */
  function Join(parts: seq<string>, c: char): string {
    if |parts| <= 1 then (if parts == [] then "" else parts[0])
    else parts[0] + [c] + Join(parts[1..], c)
  }

  /** Joining the pieces of a split gives back the original string. */
  lemma {:induction false} JoinSplit(s: string, c: char)
    ensures Join(Split(s, c), c) == s
    decreases |s|
  {
    var p := BeforeFirst(s, c);
    if |p| < |s| {
      JoinSplit(s[|p| + 1..], c);
      assert s == p + [c] + s[|p| + 1..];
    }
  }

  /** Splitting a join of separator-free pieces gives back the pieces. */
  lemma {:induction false} SplitJoin(parts: seq<string>, c: char)
    requires |parts| >= 1 && forall i :: 0 <= i < |parts| ==> c !in parts[i]
    ensures Split(Join(parts, c), c) == parts
  {
    if |parts| == 1 {
      SplitNoSep(parts[0], c);
    } else {
      SplitJoin(parts[1..], c);
      SplitConcatBase(parts[0], Join(parts[1..], c), c);
      assert parts == [parts[0]] + parts[1..];
    }
  }

  lemma BeforeFirstNoSep(s: string, c: char)
    requires c !in s
    ensures BeforeFirst(s, c) == s
  {
  }

  lemma {:induction false} BeforeFirstAppend(a: string, b: string, c: char)
    requires c in a
    ensures BeforeFirst(a + b, c) == BeforeFirst(a, c)
  {
    if a[0] != c {
      assert (a + b)[1..] == a[1..] + b;
      BeforeFirstAppend(a[1..], b, c);
    }
  }

  /** One step of `Split` on a string that holds the separator. */
  lemma SplitStep(s: string, c: char)
    requires c in s
    ensures |BeforeFirst(s, c)| < |s|
    ensures Split(s, c) == [BeforeFirst(s, c)] + Split(s[|BeforeFirst(s, c)| + 1..], c)
  {
  }

  lemma SplitConcatBase(a: string, b: string, c: char)
    requires c !in a
    ensures Split(a + [c] + b, c) == [a] + Split(b, c)
  {
    var s := a + [c] + b;
    assert s[|a|] == c;
    BeforeFirstTail(a, c);
    BeforeFirstAppend(a + [c], b, c);
    assert s == (a + [c]) + b;
    SplitStep(s, c);
    assert s[|a| + 1..] == b;
  }

  lemma {:induction false} BeforeFirstTail(a: string, c: char)
    requires c !in a
    ensures BeforeFirst(a + [c], c) == a
  {
    if a != [] {
      assert (a + [c])[1..] == a[1..] + [c];
      BeforeFirstTail(a[1..], c);
    }
  }

  /** The text before the first separator, when the first one is at position `i`. */
  lemma BeforeFirstAt(s: string, c: char, i: nat)
    requires i < |s| && s[i] == c && c !in s[..i]
    ensures BeforeFirst(s, c) == s[..i]
  {
    assert s == s[..i] + [c] + s[i + 1..];
    BeforeFirstTail(s[..i], c);
    BeforeFirstAppend(s[..i] + [c], s[i + 1..], c);
  }

  lemma SplitNoSep(s: string, c: char)
    requires c !in s
    ensures Split(s, c) == [s]
  {
    BeforeFirstNoSep(s, c);
  }

  /** JavaScript's global `s.replace(/pat/g, '')`: every occurrence of `pat`,
      found left to right without overlap, is removed. */
  function RemoveAll(s: string, pat: string): (r: string)
    requires pat != ""
    ensures |r| <= |s|
    decreases |s|
  {
    if s == [] then []
    else if StartsWith(s, pat) then RemoveAll(s[|pat|..], pat)
    else [s[0]] + RemoveAll(s[1..], pat)
  }

  /** A string with no occurrence of the pattern is returned unchanged. */
  lemma {:induction false} RemoveAllAbsent(s: string, pat: string)
    requires pat != "" && !Contains(s, pat)
    ensures RemoveAll(s, pat) == s
    decreases |s|
  {
    if s != [] {
      RemoveAllAbsent(s[1..], pat);
    }
  }
}
