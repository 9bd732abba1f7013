/**
 * Identifier normalisation: JavaScript's `String.prototype.trim` and
 * `toUpperCase`, as the server applies them to item ids and bin ids.
 */
module Text {

  /**
   * The code points `trim` removes: ECMAScript WhiteSpace and LineTerminator.
   * All of them are single UTF-16 code units.
   */
  predicate IsWhitespace(c: char): (w: bool)
    ensures w ==> c as int < 0x1_0000
  {
    c == '\t' || c == '\n' || c == '\U{000B}' || c == '\U{000C}' || c == '\r' || c == ' '
    || c == '\U{00A0}' || c == '\U{1680}' || ('\U{2000}' <= c <= '\U{200A}')
    || c == '\U{2028}' || c == '\U{2029}' || c == '\U{202F}' || c == '\U{205F}'
    || c == '\U{3000}' || c == '\U{FEFF}'
  }

  predicate IsLowerAscii(c: char) {
    'a' <= c <= 'z'
  }

  /**
   * No whitespace character is an ASCII letter.  At the edges of the set it
   * follows ECMAScript: no-break space and the byte order mark are in it, the
   * zero-width space (U+200B) is not.
   */
  lemma WhitespaceIsNotALetter(c: char)
    ensures IsWhitespace(c) ==> !IsLowerAscii(c) && !('A' <= c <= 'Z')
    ensures IsWhitespace('\U{00A0}') && IsWhitespace('\U{FEFF}') && !IsWhitespace('\U{200B}')
  {
  }

  /** Neither the first nor the last character is whitespace. */
  predicate IsTrimmed(s: string) {
    s == [] || (!IsWhitespace(s[0]) && !IsWhitespace(s[|s| - 1]))
  }

  /** What ids look like after normalisation: trimmed and with no lower-case ASCII letter. */
  predicate IsNormalId(s: string) {
    IsTrimmed(s) && forall i :: 0 <= i < |s| ==> !IsLowerAscii(s[i])
  }

  /** The index of the first non-whitespace character at or after `from` (or `|s|`). */
  function SkipLeading(s: string, from: nat): (k: nat)
    requires from <= |s|
    ensures from <= k <= |s|
    ensures forall i :: from <= i < k ==> IsWhitespace(s[i])
    ensures k == |s| || !IsWhitespace(s[k])
    decreases |s| - from
  {
    if from < |s| && IsWhitespace(s[from]) then SkipLeading(s, from + 1) else from
  }

  /** The end of `s[lo..hi]` once its trailing whitespace is dropped. */
  function SkipTrailing(s: string, lo: nat, hi: nat): (k: nat)
    requires lo <= hi <= |s|
    ensures lo <= k <= hi
    ensures forall i :: k <= i < hi ==> IsWhitespace(s[i])
    ensures k == lo || !IsWhitespace(s[k - 1])
    decreases hi
  {
    if lo < hi && IsWhitespace(s[hi - 1]) then SkipTrailing(s, lo, hi - 1) else hi
  }

  /** `s.trim()`: no whitespace is left at either edge. */
  function Trim(s: string): (r: string)
    ensures IsTrimmed(r)
  {
    var a := SkipLeading(s, 0);
    var b := SkipTrailing(s, a, |s|);
    assert a < b ==> s[a..b][0] == s[a] && s[a..b][b - a - 1] == s[b - 1];
    s[a..b]
  }

  /** ASCII upper-casing of one character. */
  function UpperChar(c: char): (u: char)
    ensures !IsLowerAscii(u)
    ensures !IsLowerAscii(c) ==> u == c
    ensures IsLowerAscii(c) ==> 'A' <= u <= 'Z' && u as int == c as int - 32
  {
    if IsLowerAscii(c) then (c as int - 32) as char else c
  }

  /** `s.toUpperCase()` restricted to ASCII letters, character by character. */
  function UpperAscii(s: string): (r: string)
    ensures |r| == |s|
  {
    seq(|s|, i requires 0 <= i < |s| => UpperChar(s[i]))
  }

  /**
   * What `trim` keeps is one block of `s`, starting after its leading
   * whitespace, and everything it cuts off on either side is whitespace.
   */
  lemma TrimSpec(s: string)
    ensures var r, k := Trim(s), SkipLeading(s, 0);
            && k + |r| <= |s| && r == s[k..k + |r|]
            && (forall i :: 0 <= i < k ==> IsWhitespace(s[i]))
            && (forall i :: k + |r| <= i < |s| ==> IsWhitespace(s[i]))
  {
  }

  /**
   * `toUpperCase` on ASCII keeps the length, leaves no lower-case letter,
   * replaces each lower-case letter by its capital and keeps every other
   * character.
   */
  lemma UpperAsciiChars(s: string)
    ensures var r := UpperAscii(s);
            && |r| == |s|
            && (forall i :: 0 <= i < |s| ==> !IsLowerAscii(r[i]))
            && (forall i :: 0 <= i < |s| && !IsLowerAscii(s[i]) ==> r[i] == s[i])
            && (forall i :: 0 <= i < |s| && IsLowerAscii(s[i]) ==> r[i] as int == s[i] as int - 32)
  {
  }

  /** `s.trim().toUpperCase()`, the normalisation of item ids and bin ids. */
  function NormalizeId(s: string): (r: string)
    ensures |r| <= |s|
  {
    UpperAscii(Trim(s))
  }

  /** Every normalised id is normal. */
  lemma NormalizeIdIsNormal(s: string)
    ensures IsNormalId(NormalizeId(s))
  {
    UpperOfTrimmed(Trim(s));
  }

  /** Upper-casing a trimmed string gives a normal id. */
  lemma UpperOfTrimmed(t: string)
    requires IsTrimmed(t)
    ensures IsNormalId(UpperAscii(t))
  {
    var u := UpperAscii(t);
    if t != [] {
      assert u[0] == UpperChar(t[0]) && u[|u| - 1] == UpperChar(t[|t| - 1]);
      UpperKeepsWhitespace(t[0]);
      UpperKeepsWhitespace(t[|t| - 1]);
    }
  }

  /** Trimming a string with no whitespace at its edges changes nothing. */
  lemma TrimmedIsFixed(s: string)
    requires IsTrimmed(s)
    ensures Trim(s) == s
  {
    assert SkipLeading(s, 0) == 0;
    assert SkipTrailing(s, 0, |s|) == |s|;
  }

  /** Upper-casing never turns a character into whitespace or whitespace into something else. */
  lemma UpperKeepsWhitespace(c: char)
    ensures IsWhitespace(UpperChar(c)) <==> IsWhitespace(c)
  {
    if IsLowerAscii(c) {
      assert 'A' <= UpperChar(c) <= 'Z';
    }
  }

  /** Normal ids are exactly the fixed points of normalisation, so normalising twice changes nothing more. */
  lemma NormalizeFixedPoints(s: string)
    ensures IsNormalId(s) <==> NormalizeId(s) == s
    ensures NormalizeId(NormalizeId(s)) == NormalizeId(s)
  {
    if IsNormalId(s) {
      assert SkipLeading(s, 0) == 0;
      assert SkipTrailing(s, 0, |s|) == |s|;
      assert Trim(s) == s;
      assert UpperAscii(s) == s;
    }
    var n := NormalizeId(s);
    NormalizeIdIsNormal(s);
    assert SkipLeading(n, 0) == 0;
    assert SkipTrailing(n, 0, |n|) == |n|;
    assert Trim(n) == n;
    assert UpperAscii(n) == n;
  }
}
