/**
 * String operations the two core files rely on: trimming (JavaScript's
 * `String.prototype.trim` and Python's `str.strip`, which differ only in the
 * characters they count as white space), prefix and suffix tests, and
 * Python's substring test `pat in s`.
 */
module Strings {

  /** A classification of characters: the ones a trim removes. */
  type CharClass = char -> bool

  /**
   * WhiteSpace and LineTerminator of ECMA-262 (sections 12.2 and 12.3): what
   * `String.prototype.trim` removes. Unlike Python, it includes U+FEFF and
   * excludes U+001C..U+001F and U+0085.
   */
  predicate IsJsWhitespace(c: char) {
    c == '\t' || c == '\n' || c == '\U{000B}' || c == '\U{000C}' || c == '\r' || c == ' '
    || c == '\U{00A0}' || c == '\U{1680}' || ('\U{2000}' <= c <= '\U{200A}')
    || c == '\U{2028}' || c == '\U{2029}' || c == '\U{202F}' || c == '\U{205F}'
    || c == '\U{3000}' || c == '\U{FEFF}'
  }

  /** The characters for which Python's `str.isspace` holds: what `str.strip()` removes. */
  predicate IsPyWhitespace(c: char) {
    ('\t' <= c <= '\r') || ('\U{001C}' <= c <= '\U{001F}') || c == ' '
    || c == '\U{0085}' || c == '\U{00A0}' || c == '\U{1680}' || ('\U{2000}' <= c <= '\U{200A}')
    || c == '\U{2028}' || c == '\U{2029}' || c == '\U{202F}' || c == '\U{205F}'
    || c == '\U{3000}'
  }

  predicate AllIn(s: string, ws: CharClass) {
    forall i :: 0 <= i < |s| ==> ws(s[i])
  }

  /** `s` with its leading characters of class `ws` removed. */
  function TrimLeft(s: string, ws: CharClass): (r: string)
    ensures |r| <= |s| && r == s[|s| - |r|..]
    ensures forall i :: 0 <= i < |s| - |r| ==> ws(s[i])
    ensures r != [] ==> !ws(r[0])
  {
    if s != [] && ws(s[0]) then TrimLeft(s[1..], ws) else s
  }

  /** `s` with its trailing characters of class `ws` removed. */
  function TrimRight(s: string, ws: CharClass): (r: string)
    ensures |r| <= |s| && r == s[..|r|]
    ensures forall i :: |r| <= i < |s| ==> ws(s[i])
    ensures r != [] ==> !ws(r[|r| - 1])
  {
    if s != [] && ws(s[|s| - 1]) then TrimRight(s[..|s| - 1], ws) else s
  }

  /**
   * `s` without leading and trailing `ws` characters. The result is empty
   * exactly when every character of `s` is in `ws`, and otherwise it begins
   * and ends with a character outside `ws`; `TrimKeepsMiddle` shows that
   * nothing between its ends is touched.
   */
  function Trim(s: string, ws: CharClass): (r: string)
    ensures |r| <= |s|
    ensures r == [] <==> AllIn(s, ws)
    ensures r != [] ==> !ws(r[0]) && !ws(r[|r| - 1])
  {
    TrimLeftRightEmpty(s, ws);
    TrimRight(TrimLeft(s, ws), ws)
  }

  /**
   * Trimming removes only the ends: the result is a contiguous stretch of
   * `s`, and every character before and after that stretch is a `ws`
   * character.
   */
  lemma TrimKeepsMiddle(s: string, ws: CharClass)
    ensures var r := Trim(s, ws);
      exists i :: 0 <= i && i + |r| <= |s| && r == s[i..i + |r|] && AllIn(s[..i], ws) && AllIn(s[i + |r|..], ws)
  {
    var left := TrimLeft(s, ws);
    var r := TrimRight(left, ws);
    var i := |s| - |left|;
    SliceOfSuffix(s, left, r);
    TrailingOfSuffix(s, left, |r|, ws);
    assert AllIn(s[..i], ws);
    assert AllIn(s[i + |r|..], ws);
  }

  /** A prefix `r` of a suffix `left` of `s` is a slice of `s`. */
  lemma SliceOfSuffix(s: string, left: string, r: string)
    requires |left| <= |s| && left == s[|s| - |left|..]
    requires |r| <= |left| && r == left[..|r|]
    ensures r == s[|s| - |left|..|s| - |left| + |r|]
  {
  }

  /** What follows position `n` of a suffix `left` of `s` follows position `|s| - |left| + n` of `s`. */
  lemma TrailingOfSuffix(s: string, left: string, n: nat, ws: CharClass)
    requires |left| <= |s| && left == s[|s| - |left|..]
    requires forall k :: n <= k < |left| ==> ws(left[k])
    ensures forall k :: |s| - |left| + n <= k < |s| ==> ws(s[k])
  {
    forall k | |s| - |left| + n <= k < |s|
      ensures ws(s[k])
    {
      assert s[k] == left[k - (|s| - |left|)];
    }
  }

  /** Trimming both ends leaves nothing exactly when every character is a `ws` character. */
  lemma TrimLeftRightEmpty(s: string, ws: CharClass)
    ensures TrimRight(TrimLeft(s, ws), ws) == [] <==> AllIn(s, ws)
  {
    var left := TrimLeft(s, ws);
    assert TrimRight(left, ws) == [] ==> left == [];
  }

  /** Trimming already-trimmed text changes nothing. */
  lemma TrimIdempotent(s: string, ws: CharClass)
    ensures Trim(Trim(s, ws), ws) == Trim(s, ws)
  {
    var t := Trim(s, ws);
    if t != [] {
      assert TrimLeft(t, ws) == t;
      assert TrimRight(t, ws) == t;
    }
  }

  /**
   * JavaScript's `s.trim()`: the middle of `s` between its leading and its
   * trailing ECMAScript white space; empty for blank text.
   */
  function JsTrim(s: string): (r: string)
    ensures r == [] <==> AllIn(s, IsJsWhitespace)
  {
    Trim(s, IsJsWhitespace)
  }

  /**
   * Python's `s.strip()` with no argument: the middle of `s` between its
   * leading and its trailing `isspace` characters; empty for blank text.
   */
  function PyStrip(s: string): (r: string)
    ensures r == [] <==> AllIn(s, IsPyWhitespace)
  {
    Trim(s, IsPyWhitespace)
  }

  /** Python's `s.startswith(p)`. */
  predicate StartsWith(s: string, p: string) {
    |p| <= |s| && s[..|p|] == p
  }

  /** Python's `s.endswith(p)`; case-sensitive, as every comparison here. */
  predicate EndsWith(s: string, p: string) {
    |p| <= |s| && s[|s| - |p|..] == p
  }

  /** Python's substring test `pat in s`. */
  predicate Contains(s: string, pat: string)
    decreases |s|
  {
    StartsWith(s, pat) || (s != [] && Contains(s[1..], pat))
  }
}
