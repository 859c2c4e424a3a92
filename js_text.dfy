/** The part of JavaScript's `String.prototype.trim` that the chat inputs rely on. */
module JsText {

  /** The WhiteSpace and LineTerminator code points of ECMAScript, which `trim` strips. */
  predicate IsWhitespace(c: char) {
    || c == ' ' || c == '\t' || c == '\n' || c == '\r' || c == '\U{000B}' || c == '\U{000C}'
    || c == '\U{00A0}' || c == '\U{FEFF}' || c == '\U{1680}' || ('\U{2000}' <= c <= '\U{200A}')
    || c == '\U{2028}' || c == '\U{2029}' || c == '\U{202F}' || c == '\U{205F}' || c == '\U{3000}'
  }

  /** Every character is whitespace (the empty string included). */
  predicate IsBlank(s: string) {
    forall i :: 0 <= i < |s| ==> IsWhitespace(s[i])
  }

  /** Strips leading whitespace. */
  function TrimStart(s: string): (r: string)
    ensures |r| <= |s| && r == s[|s| - |r|..]
    ensures r == [] || !IsWhitespace(r[0])
    ensures r == [] <==> IsBlank(s)
    ensures IsBlank(s[..|s| - |r|])
  {
    if |s| > 0 && IsWhitespace(s[0]) then
      var r := TrimStart(s[1..]);
      DropFirst(s, |r|);
      r
    else s
  }

  /** Strips trailing whitespace. */
  function TrimEnd(s: string): (r: string)
    ensures |r| <= |s| && r == s[..|r|]
    ensures r == [] || !IsWhitespace(r[|r| - 1])
    ensures r == [] <==> IsBlank(s)
    ensures IsBlank(s[|r|..])
  {
    if |s| > 0 && IsWhitespace(s[|s| - 1]) then
      var r := TrimEnd(s[..|s| - 1]);
      DropLast(s, |r|);
      r
    else s
  }

  /** Removing a leading whitespace character keeps the blankness of the string and of its prefixes. */
  lemma DropFirst(s: string, n: nat)
    requires 0 < |s| && IsWhitespace(s[0]) && n <= |s| - 1
    ensures s[|s| - n..] == s[1..][|s| - 1 - n..]
    ensures IsBlank(s[..|s| - n]) <==> IsBlank(s[1..][..|s| - 1 - n])
    ensures IsBlank(s) <==> IsBlank(s[1..])
  {
    assert s[..|s| - n] == [s[0]] + s[1..][..|s| - 1 - n];
    assert s == [s[0]] + s[1..];
  }

  /** Removing a trailing whitespace character keeps the blankness of the string and of its suffixes. */
  lemma DropLast(s: string, n: nat)
    requires 0 < |s| && IsWhitespace(s[|s| - 1]) && n <= |s| - 1
    ensures s[..n] == s[..|s| - 1][..n]
    ensures IsBlank(s[n..]) <==> IsBlank(s[..|s| - 1][n..])
    ensures IsBlank(s) <==> IsBlank(s[..|s| - 1])
  {
    assert s[n..] == s[..|s| - 1][n..] + [s[|s| - 1]];
    assert s == s[..|s| - 1] + [s[|s| - 1]];
  }

  /** `s.trim()`. */
  function Trim(s: string): string {
    TrimEnd(TrimStart(s))
  }

  /** `s.trim()` is the empty string, hence falsy, exactly when `s` is blank. */
  lemma TrimEmptyIffBlank(s: string)
    ensures Trim(s) == [] <==> IsBlank(s)
  {
    var t := TrimStart(s);
    if t != [] {
      assert !IsBlank(t) by { assert !IsWhitespace(t[0]); }
    }
  }
}
