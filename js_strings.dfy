/** The JavaScript string built-ins that the application's rules rely on:
    toLowerCase, startsWith, endsWith, includes, trim and split. */
module JsStrings {

  /** toLowerCase on one character; only the ASCII letters are mapped. */
  function LowerChar(c: char): char {
    if 'A' <= c <= 'Z' then (c as int - 'A' as int + 'a' as int) as char else c
  }

  /** String.prototype.toLowerCase, character by character. */
  function Lower(s: string): (r: string)
    ensures |r| == |s|
    ensures forall i :: 0 <= i < |s| ==> r[i] == LowerChar(s[i])
  {
    seq(|s|, i requires 0 <= i < |s| => LowerChar(s[i]))
  }

  /** Lower-casing twice is lower-casing once. */
  lemma LowerIdempotent(s: string)
    ensures Lower(Lower(s)) == Lower(s)
  {
    assert forall i :: 0 <= i < |s| ==> LowerChar(LowerChar(s[i])) == LowerChar(s[i]);
  }

  /** Lower-casing distributes over concatenation. */
  lemma LowerAppend(a: string, b: string)
    ensures Lower(a + b) == Lower(a) + Lower(b)
  {
  }

  /** String.prototype.startsWith. */
  predicate StartsWith(s: string, prefix: string) {
    |prefix| <= |s| && s[..|prefix|] == prefix
  }

  /** String.prototype.endsWith. */
  predicate EndsWith(s: string, suffix: string) {
    |suffix| <= |s| && s[|s| - |suffix|..] == suffix
  }

  /** `t` occurs in `s` starting at index `i`. */
  predicate OccursAt(s: string, t: string, i: int) {
    0 <= i && i + |t| <= |s| && s[i..i + |t|] == t
  }

  /** String.prototype.includes: scans the start positions from left to right. */
  function Includes(s: string, t: string): (r: bool)
    ensures r <==> exists i :: OccursAt(s, t, i)
    decreases |s|
  {
    if StartsWith(s, t) then
      assert OccursAt(s, t, 0);
      true
    else if s == [] then
      assert forall i :: !OccursAt(s, t, i);
      false
    else
      var r := Includes(s[1..], t);
      assert forall i :: OccursAt(s[1..], t, i) ==> OccursAt(s, t, i + 1);
      assert forall i :: 1 <= i && OccursAt(s, t, i) ==> OccursAt(s[1..], t, i - 1);
      r
  }

  /** The characters trim removes: WhiteSpace and LineTerminator of ECMA-262. */
  predicate IsJsSpace(c: char) {
    c == '\t' || c == '\n' || c == '\U{000B}' || c == '\U{000C}' || c == '\r' || c == ' '
    || c == '\U{00A0}' || c == '\U{1680}' || ('\U{2000}' <= c <= '\U{200A}')
    || c == '\U{2028}' || c == '\U{2029}' || c == '\U{202F}' || c == '\U{205F}'
    || c == '\U{3000}' || c == '\U{FEFF}'
  }

  function TrimStart(s: string): (r: string)
    ensures r == [] || !IsJsSpace(r[0])
    ensures |r| <= |s| && r == s[|s| - |r|..]
    ensures forall k :: 0 <= k < |s| - |r| ==> IsJsSpace(s[k])
    decreases |s|
  {
    if s != [] && IsJsSpace(s[0]) then TrimStart(s[1..]) else s
  }

  function TrimEnd(s: string): (r: string)
    ensures r == [] || !IsJsSpace(r[|r| - 1])
    ensures |r| <= |s| && r == s[..|r|]
    ensures forall k :: |r| <= k < |s| ==> IsJsSpace(s[k])
    decreases |s|
  {
    if s != [] && IsJsSpace(s[|s| - 1]) then TrimEnd(s[..|s| - 1]) else s
  }

  /** `t` occurs in `s` at `i` with nothing but spaces before and after it. */
  predicate SpacesAround(s: string, t: string, i: int) {
    OccursAt(s, t, i)
    && (forall k :: 0 <= k < i ==> IsJsSpace(s[k]))
    && (forall k :: i + |t| <= k < |s| ==> IsJsSpace(s[k]))
  }

  /** String.prototype.trim: the longest infix of `s` that neither starts nor
      ends with a space, obtained by dropping only spaces. */
  function Trim(s: string): (r: string)
    ensures r == [] || (!IsJsSpace(r[0]) && !IsJsSpace(r[|r| - 1]))
    ensures exists i :: SpacesAround(s, r, i)
    ensures exists i :: OccursAt(s, r, i)
  {
    var a := TrimStart(s);
    var r := TrimEnd(a);
    var i := |s| - |a|;
    assert OccursAt(s, r, i);
    forall k | i + |r| <= k < |s|
      ensures IsJsSpace(s[k])
    {
      assert s[k] == a[k - i];
    }
    assert SpacesAround(s, r, i);
    r
  }

  /** Joins the pieces with the separator between them (Array.prototype.join). */
  function Join(parts: seq<string>, sep: char): string
    requires |parts| >= 1
    decreases |parts|
  {
    if |parts| == 1 then parts[0] else parts[0] + [sep] + Join(parts[1..], sep)
  }

  /** String.prototype.split with a one-character separator: the maximal
      separator-free pieces, in order, of which there is always at least one. */
  function Split(s: string, sep: char): (r: seq<string>)
    ensures |r| >= 1
    ensures forall k :: 0 <= k < |r| ==> sep !in r[k]
    ensures Join(r, sep) == s
    decreases |s|
  {
    if s == [] then [""]
    else if s[0] == sep then
      var t := Split(s[1..], sep);
      assert Join([""] + t, sep) == [sep] + Join(t, sep) by {
        assert ([""] + t)[1..] == t;
      }
      [""] + t
    else
      var t := Split(s[1..], sep);
      var r := [[s[0]] + t[0]] + t[1..];
      assert Join(r, sep) == [s[0]] + Join(t, sep) by {
        if |t| > 1 { assert r[1..] == t[1..]; }
      }
      r
  }

  /** The last piece of a split (what `.pop()` takes) is the part of `s`
      after its last separator, or all of `s` when there is none. */
  lemma {:induction false} SplitLast(s: string, sep: char)
    ensures var parts := Split(s, sep);
            var r := parts[|parts| - 1];
            |r| <= |s| && s[|s| - |r|..] == r && (|r| == |s| || s[|s| - |r| - 1] == sep)
    decreases |s|
  {
    if s != [] {
      var s1 := s[1..];
      var t := Split(s1, sep);
      SplitLast(s1, sep);
      var last := t[|t| - 1];
      if |t| > 1 {
        assert Join(t, sep) == t[0] + [sep] + Join(t[1..], sep);
        assert s1[|t[0]|] == sep;
        assert |last| < |s1|;
      }
      if s[0] != sep && |t| == 1 {
        assert Join(t, sep) == t[0];
      }
    }
  }

  /** A suffix of `b` is a suffix of `a + b`. */
  lemma EndsWithAppend(a: string, b: string, suffix: string)
    requires EndsWith(b, suffix)
    ensures EndsWith(a + b, suffix)
  {
    assert (a + b)[|a + b| - |suffix|..] == b[|b| - |suffix|..];
  }

  /** A suffix without upper-case letters survives lower-casing. */
  lemma LowerEndsWith(s: string, suffix: string)
    requires EndsWith(s, suffix)
    requires forall i :: 0 <= i < |suffix| ==> !('A' <= suffix[i] <= 'Z')
    ensures EndsWith(Lower(s), suffix)
  {
    var l := Lower(s);
    var k := |s| - |suffix|;
    forall i | 0 <= i < |suffix|
      ensures l[k..][i] == suffix[i]
    {
      assert s[k..][i] == suffix[i];
    }
  }
}
