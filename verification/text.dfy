/**
 * The two string operations the chat sidebar relies on: JavaScript's
 * `String.prototype.trim` (used by the blank-input guard) and
 * `String.prototype.startsWith("image/")` (used to decide whether an
 * attachment gets a preview handle).
 */
module Text {

  /** The characters ECMAScript's `trim` removes: WhiteSpace (including every
      Unicode space separator) and LineTerminator. */
  predicate IsJsWhitespace(c: char) {
    c == '\t' || c == '\n' || c == '\U{000B}' || c == '\U{000C}' || c == '\r' ||
    c == ' ' || c == '\U{00A0}' || c == '\U{1680}' ||
    ('\U{2000}' <= c <= '\U{200A}') ||
    c == '\U{2028}' || c == '\U{2029}' || c == '\U{202F}' || c == '\U{205F}' ||
    c == '\U{3000}' || c == '\U{FEFF}'
  }

  /** Every character of `s` is whitespace (vacuously true of ""). */
  predicate IsBlank(s: string) {
    forall i :: 0 <= i < |s| ==> IsJsWhitespace(s[i])
  }

  /** Drops leading whitespace: the result is the suffix of `s` that starts
      at its first non-whitespace character. */
  function TrimStart(s: string): (r: string)
    ensures |r| <= |s| && r == s[|s| - |r|..]
    ensures IsBlank(s[..|s| - |r|])
    ensures r != [] ==> !IsJsWhitespace(r[0])
  {
    if s != [] && IsJsWhitespace(s[0]) then TrimStart(s[1..]) else s
  }

  /** Drops trailing whitespace: the result is the prefix of `s` that ends
      at its last non-whitespace character. */
  function TrimEnd(s: string): (r: string)
    ensures |r| <= |s| && r == s[..|r|]
    ensures IsBlank(s[|r|..])
    ensures r != [] ==> !IsJsWhitespace(r[|r| - 1])
  {
    if s != [] && IsJsWhitespace(s[|s| - 1]) then TrimEnd(s[..|s| - 1]) else s
  }

  /** The length of the whitespace run `s` starts with. */
  function LeadingBlanks(s: string): (k: nat)
    ensures k <= |s| && IsBlank(s[..k])
    ensures k < |s| ==> !IsJsWhitespace(s[k])
  {
    if s != [] && IsJsWhitespace(s[0]) then 1 + LeadingBlanks(s[1..]) else 0
  }

  /** `s.trim()`: neither starts nor ends with whitespace, and is empty for
      an all-whitespace input; `TrimIsSlice` locates it inside `s`. */
  function Trim(s: string): (r: string)
    ensures |r| <= |s|
    ensures r != "" ==> !IsJsWhitespace(r[0]) && !IsJsWhitespace(r[|r| - 1])
    ensures IsBlank(s) ==> r == ""
  {
    TrimEnd(TrimStart(s))
  }

  /** `TrimStart` drops exactly the leading whitespace run. */
  lemma {:induction false} TrimStartDropsLeading(s: string)
    ensures TrimStart(s) == s[LeadingBlanks(s)..]
  {
    if s != [] && IsJsWhitespace(s[0]) {
      TrimStartDropsLeading(s[1..]);
      assert s[1..][LeadingBlanks(s[1..])..] == s[LeadingBlanks(s)..];
    }
  }

  /** `s.trim()` (trimming the start, then the end) is the slice of `s`
      that starts after its leading whitespace run and is followed only by
      whitespace. */
  lemma TrimIsSlice(s: string)
    ensures LeadingBlanks(s) + |TrimEnd(TrimStart(s))| <= |s|
    ensures TrimEnd(TrimStart(s)) == s[LeadingBlanks(s)..LeadingBlanks(s) + |TrimEnd(TrimStart(s))|]
    ensures IsBlank(s[LeadingBlanks(s) + |TrimEnd(TrimStart(s))|..])
  {
    var t, r, k := TrimStart(s), TrimEnd(TrimStart(s)), LeadingBlanks(s);
    TrimStartDropsLeading(s);
    BlankSlice(s, k, t, r);
  }

  /** The prefix `r` of the suffix `t` of `s` starting at `k` lies between
      `k` and the blank run after `r`. */
  lemma BlankSlice(s: string, k: nat, t: string, r: string)
    requires k <= |s| && t == s[k..]
    requires |r| <= |t| && r == t[..|r|] && IsBlank(t[|r|..])
    ensures k + |r| <= |s| && r == s[k..k + |r|]
    ensures IsBlank(s[k + |r|..])
  {
    assert s[k + |r|..] == t[|r|..];
  }

  /** `!s.trim()` holds exactly when `s` consists of whitespace only. */
  lemma TrimEmptyIffBlank(s: string)
    ensures Trim(s) == "" <==> IsBlank(s)
  {
    var t := TrimStart(s);
    var k := |s| - |t|;
    if t != [] {
      // the first kept character is not whitespace, so neither side holds
      assert s[k] == t[0];
      assert |TrimEnd(t)| > 0 by { assert t[|t| - 1..] == [t[|t| - 1]]; }
    } else {
      assert s[..k] == s;
    }
  }

  /** `s.startsWith(prefix)`. */
  predicate StartsWith(s: string, prefix: string) {
    |prefix| <= |s| && s[..|prefix|] == prefix
  }

  const ImagePrefix: string := "image/"

  /** The MIME-type test both attachment paths use. */
  predicate IsImageType(mimeType: string)
    ensures IsImageType(mimeType) <==>
      |mimeType| >= 6 && forall i :: 0 <= i < 6 ==> mimeType[i] == "image/"[i]
  {
    StartsWith(mimeType, ImagePrefix)
  }
}
