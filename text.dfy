/**
 * JavaScript string operations the application relies on, with their
 * ECMAScript semantics: `trim`, `startsWith`, `indexOf`, `substring`,
 * `split` and `join`. Strings are sequences of characters.
 */
module Text {

  /** The characters `String.prototype.trim` removes: WhiteSpace and LineTerminator. */
  predicate IsWhitespace(c: char) {
    c == ' ' || c == '\t' || c == '\n' || c == '\r' || c == '\U{0B}' || c == '\U{0C}'
    || c == '\U{A0}' || c == '\U{1680}' || ('\U{2000}' <= c <= '\U{200A}')
    || c == '\U{2028}' || c == '\U{2029}' || c == '\U{202F}' || c == '\U{205F}'
    || c == '\U{3000}' || c == '\U{FEFF}'
  }

  /** A string made only of whitespace: `!s.trim()` is true exactly for these. */
  predicate IsBlank(s: string) {
    forall i :: 0 <= i < |s| ==> IsWhitespace(s[i])
  }

  /** The leading-whitespace removal half of `trim`. */
  function TrimStart(s: string): (r: string)
    ensures |r| <= |s| && r == s[|s| - |r|..]
    ensures r == [] || !IsWhitespace(r[0])
    ensures IsBlank(s[..|s| - |r|])
  {
    if s != [] && IsWhitespace(s[0]) then
      var r := TrimStart(s[1..]);
      assert s[1..][..|s| - 1 - |r|] == s[1..|s| - |r|];
      r
    else s
  }

  /** The trailing-whitespace removal half of `trim`. */
  function TrimEnd(s: string): (r: string)
    ensures |r| <= |s| && r == s[..|r|]
    ensures r == [] || !IsWhitespace(r[|r| - 1])
    ensures IsBlank(s[|r|..])
  {
    if s != [] && IsWhitespace(s[|s| - 1]) then
      var r := TrimEnd(s[..|s| - 1]);
      assert s[..|s| - 1][|r|..] == s[|r|..|s| - 1];
      assert s[|r|..] == s[|r|..|s| - 1] + [s[|s| - 1]];
      r
    else s
  }

  /** `s.trim()`. */
  function Trim(s: string): string {
    TrimEnd(TrimStart(s))
  }

  /** `trim` keeps a contiguous block of the input and drops only whitespace around it. */
  lemma TrimIsSlice(s: string) returns (i: nat, j: nat)
    ensures i <= j <= |s| && Trim(s) == s[i..j]
    ensures IsBlank(s[..i]) && IsBlank(s[j..])
    ensures Trim(s) == [] || (!IsWhitespace(Trim(s)[0]) && !IsWhitespace(Trim(s)[|Trim(s)| - 1]))
  {
    var t := TrimStart(s);
    var r := TrimEnd(t);
    i := |s| - |t|;
    j := i + |r|;
    assert t[|r|..] == s[j..];
    if r != [] {
      assert r[0] == t[0];
    }
  }

  /** `!s.trim()` holds exactly when every character of `s` is whitespace. */
  lemma TrimEmptyIffBlank(s: string)
    ensures Trim(s) == [] <==> IsBlank(s)
  {
    var i, j := TrimIsSlice(s);
    if Trim(s) == [] {
      assert i == j;
      forall k | 0 <= k < |s| ensures IsWhitespace(s[k]) {
        if k < i { assert s[..i][k] == s[k]; } else { assert s[j..][k - j] == s[k]; }
      }
    } else {
      assert Trim(s)[0] == s[i] && !IsWhitespace(s[i]);
    }
  }

  /** A string with no whitespace at either end is its own trim. */
  lemma TrimOfTrimmed(s: string)
    requires s == [] || (!IsWhitespace(s[0]) && !IsWhitespace(s[|s| - 1]))
    ensures Trim(s) == s
  {
  }

  /** `s.startsWith(p)`. */
  predicate StartsWith(s: string, p: string) {
    |p| <= |s| && s[..|p|] == p
  }

  /** `s.endsWith(p)`. */
  predicate EndsWith(s: string, p: string) {
    |p| <= |s| && s[|s| - |p|..] == p
  }

  /** `s.indexOf(c)` for a one-character needle: the first position of `c`, or -1. */
  function IndexOf(s: string, c: char): (r: int)
    ensures -1 <= r < |s|
    ensures r == -1 <==> c !in s
    ensures 0 <= r ==> s[r] == c && c !in s[..r]
  {
    if s == [] then -1
    else if s[0] == c then 0
    else
      var k := IndexOf(s[1..], c);
      assert s == [s[0]] + s[1..];
      if k == -1 then -1
      else
        assert s[..k + 1] == [s[0]] + s[1..][..k];
        k + 1
  }

  /** Where a character is first found in a concatenation. */
  lemma {:induction false} IndexOfAppend(a: string, b: string, c: char)
    requires c !in a
    ensures IndexOf(a + b, c) == if c in b then |a| + IndexOf(b, c) else -1
  {
    if a != [] {
      assert a == [a[0]] + a[1..];
      assert a[0] != c && c !in a[1..];
      IndexOfAppend(a[1..], b, c);
      assert (a + b)[0] == a[0];
      assert (a + b)[1..] == a[1..] + b;
    } else {
      assert a + b == b;
    }
  }

  /** A character found in a prefix is found there first. */
  lemma {:induction false} IndexOfPrefix(a: string, b: string, c: char)
    requires c in a
    ensures IndexOf(a + b, c) == IndexOf(a, c)
  {
    var s := a + b;
    assert s[0] == a[0];
    if a[0] != c {
      var t := a[1..];
      assert c in t by { assert a == [a[0]] + t; }
      IndexOfPrefix(t, b, c);
      assert s[1..] == t + b;
    }
  }

  /** The first `c` after a stretch free of `c`. */
  lemma IndexOfAt(a: string, c: char, b: string)
    requires c !in a
    ensures IndexOf(a + ([c] + b), c) == |a|
  {
    IndexOfAppend(a, [c] + b, c);
  }

  function Clamp(x: int, lo: int, hi: int): int
    requires lo <= hi
  {
    if x < lo then lo else if hi < x then hi else x
  }

  /**
   * `s.substring(start, end)`: both ends are clamped into the string and
   * swapped when the start lies after the end. Within the string it is the
   * slice between the two positions, in whichever order they are given.
   */
  function Substring(s: string, start: int, end: int): (r: string)
    ensures |r| <= |s|
    ensures 0 <= start <= end <= |s| ==> r == s[start..end]
    ensures 0 <= end <= start <= |s| ==> r == s[end..start]
  {
    var a, b := Clamp(start, 0, |s|), Clamp(end, 0, |s|);
    if a <= b then s[a..b] else s[b..a]
  }

  /**
   * The rest of `substring`'s meaning: the order of the two positions does
   * not matter, a position outside the string acts as the nearer end, and
   * the result is as long as the distance between the clamped positions.
   */
  lemma SubstringLaws(s: string, start: int, end: int)
    ensures Substring(s, start, end) == Substring(s, end, start)
    ensures Substring(s, start, end) == Substring(s, Clamp(start, 0, |s|), Clamp(end, 0, |s|))
    ensures var a, b := Clamp(start, 0, |s|), Clamp(end, 0, |s|);
            |Substring(s, start, end)| == if a <= b then b - a else a - b
  {
  }

  /** `s.split(sep)` for a one-character separator: the fields between separators, in order. */
  function Split(s: string, sep: char): (parts: seq<string>)
    ensures |parts| >= 1
    decreases |s|
  {
    var i := IndexOf(s, sep);
    if i < 0 then [s] else [s[..i]] + Split(s[i + 1..], sep)
  }

  /** `parts.join(sep)`. */
  function Join(parts: seq<string>, sep: string): string
  {
    if |parts| == 0 then ""
    else if |parts| == 1 then parts[0]
    else parts[0] + sep + Join(parts[1..], sep)
  }

  /** Joining a non-empty tail after a first part. */
  lemma JoinCons(p: string, q: seq<string>, sep: string)
    requires |q| >= 1
    ensures Join([p] + q, sep) == p + sep + Join(q, sep)
  {
    assert ([p] + q)[1..] == q;
  }

  /** Joining the fields of `split` with the separator gives the string back. */
  lemma {:induction false} JoinSplit(s: string, sep: char)
    ensures Join(Split(s, sep), [sep]) == s
    decreases |s|
  {
    var i := IndexOf(s, sep);
    if i >= 0 {
      var rest := s[i + 1..];
      var a := s[..i];
      assert s == a + [sep] + rest;
      var p := Split(s, sep);
      assert p == [a] + Split(rest, sep);
      JoinSplit(rest, sep);
      JoinCons(a, Split(rest, sep), [sep]);
    } else {
      assert Split(s, sep) == [s];
    }
  }

  /** No field of `split` contains the separator. */
  lemma {:induction false} SplitFieldsLackSeparator(s: string, sep: char, k: nat)
    requires k < |Split(s, sep)|
    ensures sep !in Split(s, sep)[k]
    decreases |s|
  {
    var i := IndexOf(s, sep);
    if i >= 0 && k > 0 {
      assert Split(s, sep)[k] == Split(s[i + 1..], sep)[k - 1];
      SplitFieldsLackSeparator(s[i + 1..], sep, k - 1);
    }
  }

  /** A string with no separator splits into itself alone. */
  lemma SplitWithout(s: string, sep: char)
    requires sep !in s
    ensures Split(s, sep) == [s]
  {
  }

  /** `split` of a string cut at its first separator. */
  lemma SplitAt(a: string, sep: char, b: string)
    requires sep !in a
    ensures Split(a + [sep] + b, sep) == [a] + Split(b, sep)
  {
    var s := a + [sep] + b;
    IndexOfAppend(a, [sep] + b, sep);
    assert a + ([sep] + b) == s;
    assert IndexOf([sep] + b, sep) == 0;
    assert s[..|a|] == a && s[|a| + 1..] == b;
  }

  /** `parts[k]`, or nothing (JavaScript's `undefined`) past the end. */
  function Field(parts: seq<string>, k: nat): Option<string> {
    if k < |parts| then Some(parts[k]) else None
  }

  /** Position of `parts[i]` inside `Join(parts, sep)`. */
  function JoinOffset(parts: seq<string>, sep: string, i: nat): nat
    requires i <= |parts|
  {
    if i == 0 then 0 else |parts[0]| + |sep| + JoinOffset(parts[1..], sep, i - 1)
  }

  /**
   * Every part appears in the joined string at its offset, followed by the
   * separator unless it is the last one: no part is dropped or reordered.
   */
  lemma {:induction false} JoinAt(parts: seq<string>, sep: string, i: nat)
    requires i < |parts|
    ensures JoinOffset(parts, sep, i) + |parts[i]| <= |Join(parts, sep)|
    ensures Join(parts, sep)[JoinOffset(parts, sep, i)..JoinOffset(parts, sep, i) + |parts[i]|] == parts[i]
    ensures i + 1 < |parts| ==>
      JoinOffset(parts, sep, i) + |parts[i]| + |sep| <= |Join(parts, sep)| &&
      Join(parts, sep)[JoinOffset(parts, sep, i) + |parts[i]|..JoinOffset(parts, sep, i) + |parts[i]| + |sep|] == sep
    decreases |parts|, 1
  {
    if |parts| == 1 {
      assert Join(parts, sep) == parts[0];
    } else if i == 0 {
      JoinAtHead(parts, sep);
    } else {
      JoinAtTail(parts, sep, i);
    }
  }

  /** The first part and the separator after it open the joined string. */
  lemma JoinAtHead(parts: seq<string>, sep: string)
    requires |parts| >= 2
    ensures |parts[0]| + |sep| <= |Join(parts, sep)|
    ensures Join(parts, sep)[..|parts[0]|] == parts[0]
    ensures Join(parts, sep)[|parts[0]|..|parts[0]| + |sep|] == sep
  {
    var head, tail := parts[0], parts[1..];
    assert parts == [head] + tail;
    JoinCons(head, tail, sep);
    var front, rest := head + sep, Join(tail, sep);
    SliceOfPrefix(front, rest, 0, |head|);
    SliceOfPrefix(front, rest, |head|, |front|);
    assert front[..|head|] == head && front[|head|..] == sep;
  }

  /** A later part sits in the joined tail, shifted by the first part and a separator. */
  lemma {:induction false} JoinAtTail(parts: seq<string>, sep: string, i: nat)
    requires |parts| >= 2 && 0 < i < |parts|
    ensures JoinOffset(parts, sep, i) + |parts[i]| <= |Join(parts, sep)|
    ensures Join(parts, sep)[JoinOffset(parts, sep, i)..JoinOffset(parts, sep, i) + |parts[i]|] == parts[i]
    ensures i + 1 < |parts| ==>
      JoinOffset(parts, sep, i) + |parts[i]| + |sep| <= |Join(parts, sep)| &&
      Join(parts, sep)[JoinOffset(parts, sep, i) + |parts[i]|..JoinOffset(parts, sep, i) + |parts[i]| + |sep|] == sep
    decreases |parts|, 0
  {
    var head, tail := parts[0], parts[1..];
    assert parts == [head] + tail;
    JoinCons(head, tail, sep);
    var front, rest := head + sep, Join(tail, sep);
    var d := |front|;
    JoinAt(tail, sep, i - 1);
    var o := JoinOffset(tail, sep, i - 1);
    var n := |parts[i]|;
    assert parts[i] == tail[i - 1];
    assert JoinOffset(parts, sep, i) == d + o;
    SliceOfSuffix(front, rest, d + o, d + o + n);
    if i + 1 < |parts| {
      SliceOfSuffix(front, rest, d + o + n, d + o + n + |sep|);
    }
  }

  /** A slice that lies in the first part of a concatenation. */
  lemma SliceOfPrefix(x: string, y: string, i: nat, j: nat)
    requires i <= j <= |x|
    ensures (x + y)[i..j] == x[i..j]
  {
  }

  /** A slice that lies in the second part of a concatenation. */
  lemma SliceOfSuffix(x: string, y: string, i: nat, j: nat)
    requires |x| <= i <= j <= |x| + |y|
    ensures (x + y)[i..j] == y[i - |x|..j - |x|]
  {
  }

  datatype Option<+T> = None | Some(value: T) {
    function GetOr(default: T): T {
      match this
      case Some(v) => v
      case None => default
    }
  }

  /** JavaScript truthiness of a possibly absent string: present and non-empty. */
  predicate Truthy(o: Option<string>) {
    o.Some? && o.value != ""
  }
}
