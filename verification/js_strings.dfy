/**
 * ECMAScript's `String.prototype.trim`: it removes the leading and trailing
 * characters that are white space or line terminators.
 */
module JsStrings {

  /**
   * The ECMAScript WhiteSpace and LineTerminator code points: tab, vertical
   * tab, form feed, space, no-break space, zero width no-break space, the
   * other Unicode "Zs" space separators, line feed, carriage return, line
   * separator and paragraph separator.
   */
  predicate IsWhitespace(c: char): (r: bool)
    ensures c < '\U{0080}' ==> (r <==> '\t' <= c <= '\r' || c == ' ')
  {
    || c == '\U{0009}' || c == '\U{000B}' || c == '\U{000C}' || c == '\U{0020}'
    || c == '\U{00A0}' || c == '\U{FEFF}'
    || c == '\U{1680}' || ('\U{2000}' <= c <= '\U{200A}') || c == '\U{202F}' || c == '\U{205F}' || c == '\U{3000}'
    || c == '\U{000A}' || c == '\U{000D}' || c == '\U{2028}' || c == '\U{2029}'
  }

  /** The string neither starts nor ends with white space. */
  predicate IsTrimmed(s: string) {
    s == [] || (!IsWhitespace(s[0]) && !IsWhitespace(s[|s| - 1]))
  }

  /**
   * The end of the white space that starts at index `i`: the first index at
   * or after `i` that holds no white space, or `|s|`.
   */
  function LeadingEnd(s: string, i: nat): (n: nat)
    requires i <= |s|
    ensures i <= n <= |s|
    ensures forall k | i <= k < n :: IsWhitespace(s[k])
    ensures n < |s| ==> !IsWhitespace(s[n])
    decreases |s| - i
  {
    if i < |s| && IsWhitespace(s[i]) then LeadingEnd(s, i + 1) else i
  }

  /**
   * The start of the white space that ends at index `j`, not going below
   * `lo`: the smallest `m` in `lo..j` such that `s[m..j]` is all white space.
   */
  function TrailingStart(s: string, lo: nat, j: nat): (m: nat)
    requires lo <= j <= |s|
    ensures lo <= m <= j
    ensures forall k | m <= k < j :: IsWhitespace(s[k])
    ensures lo < m ==> !IsWhitespace(s[m - 1])
    decreases j
  {
    if lo < j && IsWhitespace(s[j - 1]) then TrailingStart(s, lo, j - 1) else j
  }

  /** `s.trim()`: `s` without its leading and its trailing white space. */
  function Trim(s: string): (r: string)
    ensures IsTrimmed(r)
  {
    var lo := LeadingEnd(s, 0);
    s[lo..TrailingStart(s, lo, |s|)]
  }

  /**
   * The trim of `s` is a contiguous slice of it, and everything cut off on
   * either side is white space.
   */
  lemma TrimIsSlice(s: string)
    ensures exists i, j | 0 <= i <= j <= |s| ::
      && Trim(s) == s[i..j]
      && (forall k | 0 <= k < i :: IsWhitespace(s[k]))
      && (forall k | j <= k < |s| :: IsWhitespace(s[k]))
  {
    var i := LeadingEnd(s, 0);
    var j := TrailingStart(s, i, |s|);
    assert Trim(s) == s[i..j];
  }

  /** A string that neither starts nor ends with white space is its own trim. */
  lemma TrimKeepsTrimmed(s: string)
    requires IsTrimmed(s)
    ensures Trim(s) == s
  {
    if s != [] {
      assert LeadingEnd(s, 0) == 0;
      assert TrailingStart(s, 0, |s|) == |s|;
    }
  }

  /** Trimming twice is trimming once. */
  lemma TrimIdempotent(s: string)
    ensures Trim(Trim(s)) == Trim(s)
  {
    TrimKeepsTrimmed(Trim(s));
  }

  /** A string made only of white space trims to the empty string. */
  lemma TrimOfWhitespaceOnly(s: string)
    requires forall k | 0 <= k < |s| :: IsWhitespace(s[k])
    ensures Trim(s) == []
  {
  }
}
