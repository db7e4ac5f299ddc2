/**
  JavaScript's `String.prototype.trim`, which the workspace uses to reject
  empty prompts. Characters are Unicode scalar values; every character `trim`
  removes lies in the Basic Multilingual Plane, so UTF-16 and scalar values
  agree on it.
 */
module JsText {

  /** WhiteSpace and LineTerminator code points as ECMAScript defines them
      (section 12.2 and 12.3 of ECMA-262): tab, VT, FF, space, NBSP, BOM,
      the Unicode space separators, LF, CR, LS and PS. */
  predicate IsWs(c: char) {
    c == '\t' || c == '\U{000B}' || c == '\U{000C}' || c == ' ' ||
    c == '\U{00A0}' || c == '\U{FEFF}' ||
    c == '\n' || c == '\r' || c == '\U{2028}' || c == '\U{2029}' ||
    c == '\U{1680}' || ('\U{2000}' <= c <= '\U{200A}') ||
    c == '\U{202F}' || c == '\U{205F}' || c == '\U{3000}'
  }

  /** Every character of `s` is whitespace. */
  predicate AllWs(s: string) {
    forall i :: 0 <= i < |s| ==> IsWs(s[i])
  }

  /** The first index at or after `i` that does not hold whitespace, or `|s|`. */
  function SkipWs(s: string, i: nat): (j: nat)
    requires i <= |s|
    ensures i <= j <= |s|
    ensures forall k :: i <= k < j ==> IsWs(s[k])
    ensures j < |s| ==> !IsWs(s[j])
    decreases |s| - i
  {
    if i < |s| && IsWs(s[i]) then SkipWs(s, i + 1) else i
  }

  /** The least `k` in `lo..j` such that `s[k..j]` is all whitespace. */
  function SkipWsBack(s: string, lo: nat, j: nat): (k: nat)
    requires lo <= j <= |s|
    ensures lo <= k <= j
    ensures forall m :: k <= m < j ==> IsWs(s[m])
    ensures lo < k ==> !IsWs(s[k - 1])
    decreases j - lo
  {
    if lo < j && IsWs(s[j - 1]) then SkipWsBack(s, lo, j - 1) else j
  }

  /** Where the trimmed text starts and ends in `s`. */
  function TrimStartAt(s: string): nat { SkipWs(s, 0) }
  function TrimEndAt(s: string): nat { SkipWsBack(s, TrimStartAt(s), |s|) }

  /** `s.trim()`: the piece of `s` left when the whitespace at both ends is
      dropped. Only whitespace is dropped, and the piece neither starts nor
      ends with whitespace. */
  function Trim(s: string): (r: string)
    ensures var lo, hi := TrimStartAt(s), TrimEndAt(s);
      lo <= hi <= |s| && r == s[lo..hi] &&
      (forall k :: 0 <= k < lo ==> IsWs(s[k])) &&
      (forall k :: hi <= k < |s| ==> IsWs(s[k]))
    ensures r != [] ==> !IsWs(r[0]) && !IsWs(r[|r| - 1])
  {
    s[TrimStartAt(s)..TrimEndAt(s)]
  }

  /** The guard `!prompt.trim()`: the trimmed string is empty, hence falsy. */
  predicate IsBlank(s: string) {
    Trim(s) == ""
  }

  /** A prompt is blank exactly when it consists of whitespace only. */
  lemma BlankIffAllWs(s: string)
    ensures IsBlank(s) <==> AllWs(s)
  {
  }

  /** A prompt with a non-whitespace character is never blank. */
  lemma NotBlankWhenVisible(s: string, i: nat)
    requires i < |s| && !IsWs(s[i])
    ensures !IsBlank(s)
  {
    BlankIffAllWs(s);
  }
}
