/** The few JavaScript value rules the application relies on: truthiness of an optional
    string, the `||` default on strings and the whitespace that `String.prototype.trim` removes. */
module JsSemantics {
  import opened Wrappers

  /** An optional string is truthy when it is present and not empty. */
  predicate Truthy(o: Option<string>) {
    o.Some? && o.value != ""
  }

  /** `o || d` for an optional string `o` and a string `d`. */
  function OrElse(o: Option<string>, d: string): (r: string)
    ensures Truthy(o) ==> r == o.value
    ensures !Truthy(o) ==> r == d
  {
    if Truthy(o) then o.value else d
  }

  /** The characters ECMAScript counts as WhiteSpace or LineTerminator. */
  predicate IsJsWhitespace(c: char) {
    c == '\t' || c == '\n' || c == '\U{B}' || c == '\U{C}' || c == '\r' || c == ' '
    || c == '\U{A0}' || c == '\U{1680}' || ('\U{2000}' <= c <= '\U{200A}')
    || c == '\U{2028}' || c == '\U{2029}' || c == '\U{202F}' || c == '\U{205F}'
    || c == '\U{3000}' || c == '\U{FEFF}'
  }

  /** Where the run of whitespace starting at `i` ends: the first non-whitespace position
      from `i` on, or the length of `s`. */
  function WhitespaceRunEnd(s: string, i: nat): (k: nat)
    requires i <= |s|
    ensures i <= k <= |s|
    ensures forall m :: i <= m < k ==> IsJsWhitespace(s[m])
    ensures k == |s| || !IsJsWhitespace(s[k])
    decreases |s| - i
  {
    if i < |s| && IsJsWhitespace(s[i]) then WhitespaceRunEnd(s, i + 1) else i
  }

  /** Where the run of whitespace ending at `j` starts, looking back no further than `lo`:
      the position after the last non-whitespace character before `j`, or `lo`. */
  function WhitespaceRunStart(s: string, lo: nat, j: nat): (k: nat)
    requires lo <= j <= |s|
    ensures lo <= k <= j
    ensures forall m :: k <= m < j ==> IsJsWhitespace(s[m])
    ensures k == lo || !IsJsWhitespace(s[k - 1])
    decreases j
  {
    if lo < j && IsJsWhitespace(s[j - 1]) then WhitespaceRunStart(s, lo, j - 1) else j
  }

  /** Every character of `s` is whitespace. */
  predicate IsBlank(s: string) {
    forall i :: 0 <= i < |s| ==> IsJsWhitespace(s[i])
  }

  /** A stretch of `s` whose characters are all whitespace is blank. */
  lemma BlankRange(s: string, lo: nat, hi: nat)
    requires lo <= hi <= |s|
    requires forall i :: lo <= i < hi ==> IsJsWhitespace(s[i])
    ensures IsBlank(s[lo..hi])
  {
    assert forall i :: 0 <= i < hi - lo ==> s[lo..hi][i] == s[lo + i];
  }

  /** `s.trim()`: the slice of `s` left between its leading and trailing whitespace. */
  function Trim(s: string): (r: string)
    ensures r == [] || (!IsJsWhitespace(r[0]) && !IsJsWhitespace(r[|r| - 1]))
    ensures exists a :: 0 <= a <= |s| - |r| && r == s[a..a + |r|] && IsBlank(s[..a]) && IsBlank(s[a + |r|..])
  {
    var a := WhitespaceRunEnd(s, 0);
    var b := WhitespaceRunStart(s, a, |s|);
    BlankRange(s, 0, a);
    assert s[0..a] == s[..a];
    BlankRange(s, b, |s|);
    assert s[b..|s|] == s[b..];
    s[a..b]
  }

  /** `!s.trim()` holds, the trimmed string being empty and so falsy, exactly when every
      character is whitespace. */
  lemma BlankIffTrimEmpty(s: string)
    ensures Trim(s) == [] <==> IsBlank(s)
  {
    var a := WhitespaceRunEnd(s, 0);
    var b := WhitespaceRunStart(s, a, |s|);
    assert Trim(s) == s[a..b];
  }

}
