/**
 * The few `java.lang.String` and Commons Lang `StringUtils` operations the core relies on:
 * `toUpperCase`, `equalsIgnoreCase`, `startsWith`, `isNotEmpty` and `isNotBlank`.
 * Case mapping is modelled on ASCII letters only.
 */
module Text {
  import opened Wrappers

  /** `Character.toUpperCase` on ASCII: 'a'..'z' map to 'A'..'Z', every other character is kept. */
  function UpperChar(c: char): char
  {
    if 'a' <= c <= 'z' then (c as int - 32) as char else c
  }

  /** `String.toUpperCase`: the character-wise upper case of `s`. */
  function ToUpperCase(s: string): (r: string)
    ensures |r| == |s|
    ensures forall i :: 0 <= i < |s| ==> r[i] == UpperChar(s[i])
  {
    if s == [] then [] else [UpperChar(s[0])] + ToUpperCase(s[1..])
  }

  /** `String.equalsIgnoreCase` on a non-null argument: same length and equal characters up to case. */
  function EqualsIgnoreCase(a: string, b: string): (r: bool)
    ensures r <==> ToUpperCase(a) == ToUpperCase(b)
  {
    if |a| != |b| then
      false
    else if a == [] then
      true
    else
      var r := UpperChar(a[0]) == UpperChar(b[0]) && EqualsIgnoreCase(a[1..], b[1..]);
      assert ToUpperCase(a) == [UpperChar(a[0])] + ToUpperCase(a[1..]);
      assert ToUpperCase(b) == [UpperChar(b[0])] + ToUpperCase(b[1..]);
      r
  }

  /** `String.startsWith`. */
  predicate StartsWith(s: string, prefix: string)
  {
    |prefix| <= |s| && s[..|prefix|] == prefix
  }

  /** `StringUtils.isNotEmpty`: not null and not "". */
  predicate IsNotEmpty(s: Option<string>)
  {
    s.Some? && |s.value| > 0
  }

  /**
   * `Character.isWhitespace`: the Unicode space, line and paragraph separators except the
   * no-break spaces U+00A0, U+2007 and U+202F, plus \t, \n, U+000B, \f, \r and U+001C..U+001F.
   */
  predicate IsWhitespace(c: char)
  {
    || c == ' ' || '\t' <= c <= '\r' || '\U{1C}' <= c <= '\U{1F}'
    || c == '\U{1680}' || '\U{2000}' <= c <= '\U{2006}' || '\U{2008}' <= c <= '\U{200A}'
    || c == '\U{2028}' || c == '\U{2029}' || c == '\U{205F}' || c == '\U{3000}'
  }

  /** `StringUtils.isNotBlank` on a non-null string: some character is not whitespace. */
  predicate IsNotBlank(s: string)
  {
    exists i :: 0 <= i < |s| && !IsWhitespace(s[i])
  }
}
