/** The string operations the workspace uses: JavaScript's `String.prototype.trim`
    (names and titles are validated with `s.trim()`) and `startsWith` (the image
    upload only accepts MIME types starting with "image/"). */
module JsText {

  /** ECMAScript WhiteSpace and LineTerminator code points: exactly what `trim` removes
      (TAB, LF, VT, FF, CR, SPACE, NBSP, the Ogham space mark, the spaces U+2000 to
      U+200A, LINE and PARAGRAPH SEPARATOR, the narrow, medium mathematical and
      ideographic spaces, and the byte order mark). */
  predicate IsWhitespace(c: char) {
    || ('\t' <= c <= '\r') || c == ' ' || c == '\U{00A0}' || c == '\U{1680}'
    || ('\U{2000}' <= c <= '\U{200A}') || c == '\U{2028}' || c == '\U{2029}'
    || c == '\U{202F}' || c == '\U{205F}' || c == '\U{3000}' || c == '\U{FEFF}'
  }

  /** Every character is whitespace; the empty string is blank. */
  predicate IsBlank(s: string) {
    forall i :: 0 <= i < |s| ==> IsWhitespace(s[i])
  }

  /** Where the leading whitespace that starts at `i` ends: everything from `i` up to
      the result is whitespace, and the result is the end of `s` or a
      non-whitespace character. */
  function LeadingEnd(s: string, i: nat): (k: nat)
    requires i <= |s|
    ensures i <= k <= |s|
    ensures forall j :: i <= j < k ==> IsWhitespace(s[j])
    ensures k == |s| || !IsWhitespace(s[k])
    decreases |s| - i
  {
    if i < |s| && IsWhitespace(s[i]) then LeadingEnd(s, i + 1) else i
  }

  /** Where the trailing whitespace before `j` starts, looking no further left than
      `lo`: everything from the result up to `j` is whitespace, and the result is `lo`
      or follows a non-whitespace character. */
  function TrailingStart(s: string, lo: nat, j: nat): (p: nat)
    requires lo <= j <= |s|
    ensures lo <= p <= j
    ensures forall q :: p <= q < j ==> IsWhitespace(s[q])
    ensures p == lo || !IsWhitespace(s[p - 1])
    decreases j - lo
  {
    if lo < j && IsWhitespace(s[j - 1]) then TrailingStart(s, lo, j - 1) else j
  }

  /** `s.trim()`: the infix left after dropping the leading and the trailing
      whitespace. It is empty exactly when `s` is blank, and otherwise starts and ends
      with a non-whitespace character. */
  function Trim(s: string): (r: string)
    ensures |r| <= |s|
    ensures r == [] <==> IsBlank(s)
    ensures r == [] || (!IsWhitespace(r[0]) && !IsWhitespace(r[|r| - 1]))
  {
    var a := LeadingEnd(s, 0);
    var b := TrailingStart(s, a, |s|);
    s[a..b]
  }

  /** The guard `if (!s.trim()) return`: the empty string is falsy, so the input is
      rejected exactly when it is blank. `IsBlank` is the ghost specification; this
      is the compiled test the handlers run, and they see only its contract, not
      the unfolding of `Trim`. */
  method TrimsToEmpty(s: string) returns (blank: bool)
    ensures blank == IsBlank(s)
  {
    blank := Trim(s) == [];
  }

  /** `trim` cuts `s` into a blank head of length `k`, the result, and a blank tail. */
  lemma TrimIsInfix(s: string) returns (k: nat)
    ensures k + |Trim(s)| <= |s| && Trim(s) == s[k..k + |Trim(s)|]
    ensures IsBlank(s[..k]) && IsBlank(s[k + |Trim(s)|..])
  {
    k := LeadingEnd(s, 0);
    var b := TrailingStart(s, k, |s|);
    assert Trim(s) == s[k..b];
    assert forall i :: 0 <= i < k ==> s[..k][i] == s[i];
    assert forall i :: 0 <= i < |s| - b ==> s[b..][i] == s[b + i];
  }

  /** A string that neither starts nor ends with whitespace is its own trim. */
  lemma TrimOfTrimmed(s: string)
    requires s == [] || (!IsWhitespace(s[0]) && !IsWhitespace(s[|s| - 1]))
    ensures Trim(s) == s
  {
    if s != [] {
      assert LeadingEnd(s, 0) == 0;
      assert TrailingStart(s, 0, |s|) == |s|;
    }
  }

  /** Trimming twice is trimming once. */
  lemma TrimIdempotent(s: string)
    ensures Trim(Trim(s)) == Trim(s)
  {
    TrimOfTrimmed(Trim(s));
  }

  /** `s.startsWith(prefix)`. */
  predicate StartsWith(s: string, prefix: string): (b: bool)
    ensures b <==> |prefix| <= |s| && forall i :: 0 <= i < |prefix| ==> s[i] == prefix[i]
    ensures b ==> s == prefix + s[|prefix|..]
  {
    |prefix| <= |s| && s[..|prefix|] == prefix
  }
}
