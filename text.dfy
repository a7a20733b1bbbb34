/** `String.prototype.trim`, which the add-app form applies to the name and
    url fields before it checks them. */
module Text {

  /** The characters that `trim` strips: the ECMAScript WhiteSpace set (TAB,
      VT, FF, SPACE, NO-BREAK SPACE, ZERO WIDTH NO-BREAK SPACE and the other
      Unicode "Zs" space separators) and the LineTerminator set (LF, CR, LINE
      SEPARATOR, PARAGRAPH SEPARATOR). */
  predicate IsWhitespace(c: char) {
    || c == '\t' || c == '\n' || c == '\U{000B}' || c == '\U{000C}' || c == '\r'
    || c == ' ' || c == '\U{00A0}' || c == '\U{1680}'
    || ('\U{2000}' <= c <= '\U{200A}')
    || c == '\U{2028}' || c == '\U{2029}' || c == '\U{202F}' || c == '\U{205F}'
    || c == '\U{3000}' || c == '\U{FEFF}'
  }

  predicate AllWhitespace(s: string) {
    forall k :: 0 <= k < |s| ==> IsWhitespace(s[k])
  }

  /** `s` without its leading whitespace. */
  function TrimStart(s: string): (r: string)
    ensures |r| <= |s| && r == s[|s| - |r|..]
    ensures AllWhitespace(s[..|s| - |r|])
    ensures r != [] ==> !IsWhitespace(r[0])
  {
    if s != [] && IsWhitespace(s[0]) then TrimStart(s[1..]) else s
  }

  /** `s` without its trailing whitespace. */
  function TrimEnd(s: string): (r: string)
    ensures |r| <= |s| && r == s[..|r|]
    ensures AllWhitespace(s[|r|..])
    ensures r != [] ==> !IsWhitespace(r[|r| - 1])
  {
    if s != [] && IsWhitespace(s[|s| - 1]) then TrimEnd(s[..|s| - 1]) else s
  }

  /** `s.trim()`: a contiguous piece of `s` with whitespace only around it,
      empty exactly when `s` is nothing but whitespace. */
  function Trim(s: string): (r: string)
    ensures r == [] <==> AllWhitespace(s)
    ensures r != [] ==> !IsWhitespace(r[0]) && !IsWhitespace(r[|r| - 1])
    ensures exists i ::
      (0 <= i <= |s| - |r| && s[i..i + |r|] == r &&
       AllWhitespace(s[..i]) && AllWhitespace(s[i + |r|..]))
  {
    var t := TrimStart(s);
    TrimPieces(s, t, TrimEnd(t));
    TrimEmpty(s, t, TrimEnd(t));
    TrimEnd(t)
  }

  /** Where the piece `Trim` keeps sits in `s`, and what surrounds it. */
  lemma TrimPieces(s: string, t: string, r: string)
    requires |r| <= |t| <= |s| && t == s[|s| - |t|..] && r == t[..|r|]
    requires AllWhitespace(s[..|s| - |t|]) && AllWhitespace(t[|r|..])
    ensures var i := |s| - |t|;
      s[i..i + |r|] == r && AllWhitespace(s[..i]) && AllWhitespace(s[i + |r|..])
  {
    var i := |s| - |t|;
    assert s[i + |r|..] == t[|r|..];
  }

  /** `Trim` keeps nothing exactly when `s` is all whitespace. */
  lemma TrimEmpty(s: string, t: string, r: string)
    requires t == TrimStart(s) && r == TrimEnd(t)
    ensures r == [] <==> AllWhitespace(s)
  {
    var i := |s| - |t|;
    assert s[i..] == t;
    AllWhitespaceSplit(s, i);
    assert t != [] ==> t[0] == s[i];
    assert r == [] ==> t[|r|..] == t;
  }

  /** A string is all whitespace exactly when both pieces of a split are. */
  lemma AllWhitespaceSplit(s: string, n: nat)
    requires n <= |s|
    ensures AllWhitespace(s) <==> AllWhitespace(s[..n]) && AllWhitespace(s[n..])
  {
    assert forall k :: 0 <= k < n ==> s[..n][k] == s[k];
    assert forall k :: n <= k < |s| ==> s[n..][k - n] == s[k];
  }
}
