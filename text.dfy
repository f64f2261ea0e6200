/**
 * The .NET string operations the calendar parser and its filter rely on:
 * `Split(char)`, `Trim()`, `IsNullOrWhiteSpace`, and ASCII case folding in
 * place of `ToUpperInvariant` / `ToLowerInvariant`.
 */
module Text {

  /** `char.IsWhiteSpace`: U+0009..U+000D, the space separators, U+0085, U+2028 and U+2029. */
  predicate IsWhite(c: char) {
    c == ' ' || ('\t' <= c <= '\r') || c == '\U{85}' || c == '\U{A0}' || c == '\U{1680}'
    || ('\U{2000}' <= c <= '\U{200A}') || c == '\U{2028}' || c == '\U{2029}'
    || c == '\U{202F}' || c == '\U{205F}' || c == '\U{3000}'
  }

  predicate AllWhite(s: string) {
    forall i :: 0 <= i < |s| ==> IsWhite(s[i])
  }

  /** `string.IsNullOrWhiteSpace` (the strings here are never null). */
  predicate IsBlank(s: string) {
    AllWhite(s)
  }

  // ---------------------------------------------------------------------
  // Split and its inverse

  /** `s.Split(c)`: the pieces between occurrences of `c`, empty ones included. */
  function Split(s: string, c: char): (parts: seq<string>)
    ensures |parts| >= 1
    decreases |s|
  {
    if s == [] then [[]]
    else
      var rest := Split(s[1..], c);
      if s[0] == c then [[]] + rest else [[s[0]] + rest[0]] + rest[1..]
  }

  /** `string.Join(c, parts)`. */
  function Join(parts: seq<string>, c: char): string
    requires |parts| >= 1
  {
    if |parts| == 1 then parts[0] else parts[0] + [c] + Join(parts[1..], c)
  }

  predicate NoSeparator(parts: seq<string>, c: char) {
    forall i :: 0 <= i < |parts| ==> c !in parts[i]
  }

  /** No piece contains the separator, and there is one more piece than separators. */
  lemma {:induction false} SplitPieces(s: string, c: char)
    ensures NoSeparator(Split(s, c), c)
    ensures Join(Split(s, c), c) == s
    decreases |s|
  {
    if s != [] {
      var rest := Split(s[1..], c);
      SplitPieces(s[1..], c);
      if s[0] == c {
        assert Split(s, c) == [[]] + rest;
        assert Join([[]] + rest, c) == [] + [c] + Join(rest, c);
        assert [c] + s[1..] == s;
      } else {
        var parts := [[s[0]] + rest[0]] + rest[1..];
        assert Split(s, c) == parts;
        if |rest| == 1 {
          assert Join(parts, c) == [s[0]] + rest[0];
          assert Join(rest, c) == rest[0];
        } else {
          assert parts[1..] == rest[1..];
          assert Join(parts, c) == ([s[0]] + rest[0]) + [c] + Join(rest[1..], c);
          assert Join(rest, c) == rest[0] + [c] + Join(rest[1..], c);
        }
        assert [s[0]] + s[1..] == s;
      }
    }
  }

  lemma {:induction false} SplitWithoutSeparator(a: string, c: char)
    requires c !in a
    ensures Split(a, c) == [a]
    decreases |a|
  {
    if a != [] {
      SplitWithoutSeparator(a[1..], c);
      assert [a[0]] + a[1..] == a;
    }
  }

  /** The text before the first separator is the first piece. */
  lemma {:induction false} SplitAtFirst(a: string, b: string, c: char)
    requires c !in a
    ensures Split(a + [c] + b, c) == [a] + Split(b, c)
    decreases |a|
  {
    if a == [] {
      assert a + [c] + b == [c] + b;
      assert ([c] + b)[1..] == b;
    } else {
      var s := a + [c] + b;
      assert s[0] == a[0] && s[1..] == a[1..] + [c] + b;
      SplitAtFirst(a[1..], b, c);
      assert [a[0]] + a[1..] == a;
    }
  }

  /** Splitting undoes joining when no piece holds the separator. */
  lemma {:induction false} SplitJoin(parts: seq<string>, c: char)
    requires |parts| >= 1 && NoSeparator(parts, c)
    ensures Split(Join(parts, c), c) == parts
  {
    if |parts| == 1 {
      SplitWithoutSeparator(parts[0], c);
    } else {
      SplitJoin(parts[1..], c);
      SplitAtFirst(parts[0], Join(parts[1..], c), c);
      assert [parts[0]] + parts[1..] == parts;
    }
  }

  // ---------------------------------------------------------------------
  // Trim

  function TrimStart(s: string): (r: string)
    ensures |r| <= |s| && r == s[|s| - |r|..]
    ensures AllWhite(s[..|s| - |r|])
    ensures r == [] || !IsWhite(r[0])
    decreases |s|
  {
    if s != [] && IsWhite(s[0]) then
      var r := TrimStart(s[1..]);
      assert s[..|s| - |r|] == [s[0]] + s[1..][..|s| - 1 - |r|];
      r
    else s
  }

  function TrimEnd(s: string): (r: string)
    ensures |r| <= |s| && r == s[..|r|]
    ensures AllWhite(s[|r|..])
    ensures r == [] || !IsWhite(r[|r| - 1])
    decreases |s|
  {
    if s != [] && IsWhite(s[|s| - 1]) then
      var r := TrimEnd(s[..|s| - 1]);
      assert s[|r|..] == s[..|s| - 1][|r|..] + [s[|s| - 1]];
      r
    else s
  }

  /** Neither starts nor ends with white space. */
  predicate Trimmed(s: string) {
    s == [] || (!IsWhite(s[0]) && !IsWhite(s[|s| - 1]))
  }

  /**
   * `s.Trim()`: the infix of `s` left after removing white space at both
   * ends; what is left neither starts nor ends with white space.
   */
  function Trim(s: string): (r: string)
    ensures |r| <= |s|
    ensures Trimmed(r)
    ensures exists i, j :: 0 <= i <= j <= |s| && r == s[i..j] && AllWhite(s[..i]) && AllWhite(s[j..])
  {
    var a := TrimStart(s);
    var r := TrimEnd(a);
    assert r != [] ==> r[0] == a[0];
    var i := |s| - |a|;
    assert r == s[i..i + |r|] && s[i + |r|..] == a[|r|..];
    r
  }

  lemma TrimOfTrimmed(s: string)
    requires Trimmed(s)
    ensures Trim(s) == s
  {
  }

  lemma TrimIdempotent(s: string)
    ensures Trim(Trim(s)) == Trim(s)
  {
    TrimOfTrimmed(Trim(s));
  }

  /** A string is blank exactly when trimming leaves nothing. */
  lemma BlankIffTrimEmpty(s: string)
    ensures IsBlank(s) <==> Trim(s) == []
  {
    var a := TrimStart(s);
    if Trim(s) == [] {
      assert AllWhite(a[0..]);
      assert a == [];
      assert s[..|s| - |a|] == s;
    }
  }

  // ---------------------------------------------------------------------
  // ASCII case folding

  function UpperChar(c: char): char {
    if 'a' <= c <= 'z' then (c as int - 32) as char else c
  }

  function LowerChar(c: char): char {
    if 'A' <= c <= 'Z' then (c as int + 32) as char else c
  }

  function Upper(s: string): string {
    seq(|s|, i requires 0 <= i < |s| => UpperChar(s[i]))
  }

  function Lower(s: string): string {
    seq(|s|, i requires 0 <= i < |s| => LowerChar(s[i]))
  }

  /** Equal up to ASCII letter case, character by character. */
  predicate EqualsIgnoreCase(a: string, b: string) {
    |a| == |b| && forall i :: 0 <= i < |a| ==> LowerChar(a[i]) == LowerChar(b[i])
  }

  lemma CharFoldsAgree(x: char, y: char)
    ensures UpperChar(x) == UpperChar(y) <==> LowerChar(x) == LowerChar(y)
  {
  }

  /** Lower-casing identifies exactly the strings that differ only in case. */
  lemma LowerEqualIffIgnoreCase(a: string, b: string)
    ensures Lower(a) == Lower(b) <==> EqualsIgnoreCase(a, b)
  {
    if EqualsIgnoreCase(a, b) {
      assert forall i :: 0 <= i < |a| ==> Lower(a)[i] == Lower(b)[i];
    }
    if Lower(a) == Lower(b) {
      assert forall i :: 0 <= i < |a| ==> LowerChar(a[i]) == Lower(a)[i] == Lower(b)[i] == LowerChar(b[i]);
    }
  }

  /** Upper-casing identifies the same strings. */
  lemma UpperEqualIffIgnoreCase(a: string, b: string)
    ensures Upper(a) == Upper(b) <==> EqualsIgnoreCase(a, b)
  {
    forall i | 0 <= i < |a| && i < |b| {
      CharFoldsAgree(a[i], b[i]);
    }
    if EqualsIgnoreCase(a, b) {
      assert forall i :: 0 <= i < |a| ==> Upper(a)[i] == Upper(b)[i];
    }
    if Upper(a) == Upper(b) {
      assert forall i :: 0 <= i < |a| ==> UpperChar(a[i]) == Upper(a)[i] == Upper(b)[i] == UpperChar(b[i]);
    }
  }

  /** A lower-case word is matched by `Lower(s) == w` exactly when `s` spells it in any case. */
  lemma LowerMatchesWord(s: string, w: string)
    requires Lower(w) == w
    ensures Lower(s) == w <==> EqualsIgnoreCase(s, w)
  {
    LowerEqualIffIgnoreCase(s, w);
  }
}
