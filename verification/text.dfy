/** The two string operations the wallet screen applies to its input field:
    decimal-separator normalization before parsing, and the blank test that
    enables the withdraw button. */
module Text {

  /** Kotlin's `Char.isWhitespace`: Java's `Character.isWhitespace` together
      with `Character.isSpaceChar` (the Unicode space, line and paragraph
      separators). */
  predicate IsWhitespace(c: char) {
    || ('\t' <= c <= '\r')                  // tab, line feed, vertical tab, form feed, carriage return
    || ('\U{1C}' <= c <= '\U{1F}')          // file, group, record and unit separators
    || c == ' ' || c == '\U{A0}' || c == '\U{1680}'
    || ('\U{2000}' <= c <= '\U{200A}')      // en quad .. hair space
    || c == '\U{2028}' || c == '\U{2029}'   // line and paragraph separators
    || c == '\U{202F}' || c == '\U{205F}' || c == '\U{3000}'
  }

  /** Kotlin's `isBlank`: empty, or whitespace only. */
  predicate IsBlank(s: string) {
    forall i :: 0 <= i < |s| ==> IsWhitespace(s[i])
  }

  /** The fractional-separator normalization `input.replace(",", ".")`: every
      comma becomes a dot, every other character stays where it was. */
  function Normalize(s: string): (r: string)
    ensures |r| == |s|
    ensures forall i :: 0 <= i < |s| && s[i] == ',' ==> r[i] == '.'
    ensures forall i :: 0 <= i < |s| && s[i] != ',' ==> r[i] == s[i]
    ensures ',' !in r
  {
    if s == [] then []
    else [if s[0] == ',' then '.' else s[0]] + Normalize(s[1..])
  }

  /** Normalizing twice is normalizing once. */
  lemma NormalizeIdempotent(s: string)
    ensures Normalize(Normalize(s)) == Normalize(s)
  {
  }

  /** Text without a comma is already normalized. */
  lemma NormalizeWithoutComma(s: string)
    requires ',' !in s
    ensures Normalize(s) == s
  {
  }

  /** Two inputs that agree everywhere except in the choice of separator
      (`,` versus `.`) at some positions. */
  predicate SameUpToSeparators(s: string, t: string) {
    && |s| == |t|
    && forall i :: 0 <= i < |s| ==>
         s[i] == t[i] || ((s[i] == ',' || s[i] == '.') && (t[i] == ',' || t[i] == '.'))
  }

  /** Comma and dot are interchangeable as the separator: inputs that differ
      only in that choice normalize to the same text, so any parser sees the
      same string for "12,50" and "12.50". */
  lemma SeparatorsInterchangeable(s: string, t: string)
    requires SameUpToSeparators(s, t)
    ensures Normalize(s) == Normalize(t)
  {
  }

  /** Normalization keeps text blank exactly when it was blank: neither `,`
      nor `.` is whitespace. */
  lemma NormalizeKeepsBlankness(s: string)
    ensures IsBlank(Normalize(s)) <==> IsBlank(s)
  {
  }
}
