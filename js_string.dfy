/** The two JavaScript string built-ins the core depends on:
    String.prototype.trim (applied to generated text) and
    String.prototype.toLowerCase (applied to the AI_PROVIDER setting). */
module JsString {

  /** The characters ECMAScript's trim strips: the WhiteSpace and
      LineTerminator code points. */
  predicate IsWhitespace(c: char) {
    || c == '\t' || c == '\n' || c == '\U{000B}' || c == '\U{000C}' || c == '\r'
    || c == ' ' || c == '\U{00A0}' || c == '\U{1680}'
    || ('\U{2000}' <= c <= '\U{200A}')
    || c == '\U{2028}' || c == '\U{2029}' || c == '\U{202F}' || c == '\U{205F}'
    || c == '\U{3000}' || c == '\U{FEFF}'
  }

  /** A string that trims to nothing. */
  predicate Blank(s: string) {
    forall i :: 0 <= i < |s| ==> IsWhitespace(s[i])
  }

  /** The number of whitespace characters `s` starts with: they are all
      blank, and the character after them, if any, is not. */
  function LeadingBlanks(s: string): (n: nat)
    ensures n <= |s| && Blank(s[..n])
    ensures n < |s| ==> !IsWhitespace(s[n])
  {
    if s != [] && IsWhitespace(s[0]) then
      var t := s[1..];
      var m := LeadingBlanks(t);
      assert s[..m + 1] == [s[0]] + t[..m];
      BlankConcat([s[0]], t[..m]);
      assert m + 1 < |s| ==> s[m + 1] == t[m];
      m + 1
    else 0
  }

  /** The number of whitespace characters `s` ends with: they are all blank,
      and the character before them, if any, is not. */
  function TrailingBlanks(s: string): (n: nat)
    ensures n <= |s| && Blank(s[|s| - n..])
    ensures n < |s| ==> !IsWhitespace(s[|s| - n - 1])
  {
    if s != [] && IsWhitespace(s[|s| - 1]) then
      var t := s[..|s| - 1];
      var m := TrailingBlanks(t);
      assert s[|s| - (m + 1)..] == t[|t| - m..] + [s[|s| - 1]];
      BlankConcat(t[|t| - m..], [s[|s| - 1]]);
      assert m + 1 < |s| ==> s[|s| - (m + 1) - 1] == t[|t| - m - 1];
      m + 1
    else 0
  }

  /** Two blank strings joined are blank. */
  lemma BlankConcat(u: string, v: string)
    requires Blank(u) && Blank(v)
    ensures Blank(u + v)
  {
    forall i | 0 <= i < |u + v|
      ensures IsWhitespace((u + v)[i])
    {
      if i < |u| {
        assert (u + v)[i] == u[i];
      } else {
        assert (u + v)[i] == v[i - |u|];
      }
    }
  }

  /** String.prototype.trim: the input's own characters between a blank
      prefix and a blank suffix; empty exactly when the input is blank, and
      otherwise bounded by non-whitespace characters on both sides. */
  function Trim(s: string): (r: string)
    ensures |r| <= |s|
    ensures exists a :: 0 <= a <= |s| - |r| && r == s[a..a + |r|] && Blank(s[..a]) && Blank(s[a + |r|..])
    ensures r == [] <==> Blank(s)
    ensures r != [] ==> !IsWhitespace(r[0]) && !IsWhitespace(r[|r| - 1])
  {
    var a := LeadingBlanks(s);
    var k := TrailingBlanks(s[a..]);
    SliceBetweenBlanks(s, a, |s| - k);
    s[a..|s| - k]
  }

  /** The slice of `s` from `a` to `b`, where `a` ends a blank prefix and `b`
      starts a blank suffix of what follows `a`, and the characters at both
      borders are not whitespace, is what trim keeps. */
  lemma SliceBetweenBlanks(s: string, a: nat, b: nat)
    requires a <= b <= |s| && Blank(s[..a]) && Blank(s[a..][b - a..])
    requires a < |s| ==> !IsWhitespace(s[a])
    requires a < b ==> !IsWhitespace(s[a..][b - a - 1])
    ensures var r := s[a..b];
      && (exists a' :: 0 <= a' <= |s| - |r| && r == s[a'..a' + |r|] && Blank(s[..a']) && Blank(s[a' + |r|..]))
      && (r == [] <==> Blank(s))
      && (r != [] ==> !IsWhitespace(r[0]) && !IsWhitespace(r[|r| - 1]))
  {
    var r := s[a..b];
    assert s[a..][b - a..] == s[b..];
    assert r == s[a..a + |r|];
    assert r != [] ==> r[0] == s[a] && r[|r| - 1] == s[a..][b - a - 1];
    BlankBetween(s, a, b);
  }

  /** A string whose two blank ends meet is blank. */
  lemma BlankBetween(s: string, a: nat, b: nat)
    requires a <= b <= |s| && Blank(s[..a]) && Blank(s[b..])
    ensures a == b ==> Blank(s)
  {
    if a == b {
      forall i | 0 <= i < |s|
        ensures IsWhitespace(s[i])
      {
        if i < a {
          assert s[..a][i] == s[i];
        } else {
          assert s[b..][i - b] == s[i];
        }
      }
    }
  }

  /** Trimming twice gives the same string as trimming once. */
  lemma {:induction false} TrimIdempotent(s: string)
    ensures Trim(Trim(s)) == Trim(s)
  {
    var t := Trim(s);
    if t != [] {
      assert LeadingBlanks(t) == 0;
      assert TrailingBlanks(t) == 0;
      assert t[0..|t|] == t;
    }
  }

  predicate IsAsciiUpper(c: char) {
    'A' <= c <= 'Z'
  }

  predicate IsAsciiLower(c: char) {
    'a' <= c <= 'z'
  }

  function LowerChar(c: char): char {
    if 'A' <= c <= 'Z' then (c as int + 32) as char else c
  }

  /** String.prototype.toLowerCase restricted to the ASCII letters: no capital
      is left, each capital becomes the small letter at the same place in the
      alphabet, and every other character is kept as it is. */
  function ToLowerCase(s: string): (r: string)
    ensures |r| == |s|
    ensures forall i :: 0 <= i < |r| ==> !IsAsciiUpper(r[i])
    ensures forall i :: 0 <= i < |s| && !IsAsciiUpper(s[i]) ==> r[i] == s[i]
    ensures forall i :: 0 <= i < |s| && IsAsciiUpper(s[i]) ==>
      IsAsciiLower(r[i]) && r[i] as int - 'a' as int == s[i] as int - 'A' as int
  {
    seq(|s|, i requires 0 <= i < |s| => LowerChar(s[i]))
  }

  /** Two characters that are the same letter whatever their case: equal, or
      a capital and a small letter at the same place in the alphabet. */
  predicate SameIgnoringAsciiCase(c: char, d: char) {
    || c == d
    || (IsAsciiUpper(c) && IsAsciiLower(d) && c as int - 'A' as int == d as int - 'a' as int)
    || (IsAsciiLower(c) && IsAsciiUpper(d) && c as int - 'a' as int == d as int - 'A' as int)
  }

  /** Two strings that differ at most in the case of their ASCII letters. */
  predicate EqualUpToAsciiCase(p: string, q: string) {
    |p| == |q| && forall i :: 0 <= i < |p| ==> SameIgnoringAsciiCase(p[i], q[i])
  }

  /** toLowerCase identifies exactly the strings that differ only in the case
      of their ASCII letters. */
  lemma ToLowerCaseEqualIff(p: string, q: string)
    ensures ToLowerCase(p) == ToLowerCase(q) <==> EqualUpToAsciiCase(p, q)
  {
    var lp, lq := ToLowerCase(p), ToLowerCase(q);
    if lp == lq {
      forall i | 0 <= i < |p|
        ensures SameIgnoringAsciiCase(p[i], q[i])
      {
        assert lp[i] == lq[i];
      }
    }
    if EqualUpToAsciiCase(p, q) {
      forall i | 0 <= i < |p|
        ensures lp[i] == lq[i]
      {
        assert SameIgnoringAsciiCase(p[i], q[i]);
      }
    }
  }
}
