/**
 * The part of JavaScript's string semantics the input controller relies on:
 * `String.prototype.trim`, which strips white space and line terminators
 * from both ends of a string.
 */
module JsText {

  /** ECMAScript WhiteSpace and LineTerminator code points. */
  predicate IsJsWhitespace(c: char)
  {
    c == ' ' || c == '\t' || c == '\n' || c == '\r' || c == '\U{000B}' || c == '\U{000C}'
    || c == '\U{00A0}' || c == '\U{1680}' || ('\U{2000}' <= c <= '\U{200A}')
    || c == '\U{2028}' || c == '\U{2029}' || c == '\U{202F}' || c == '\U{205F}'
    || c == '\U{3000}' || c == '\U{FEFF}'
  }

  /** Index of the first character at or after `i` that is not white space (`|s|` if none). */
  function SkipForward(s: string, i: nat): (r: nat)
    requires i <= |s|
    ensures i <= r <= |s|
    ensures forall k :: i <= k < r ==> IsJsWhitespace(s[k])
    ensures r < |s| ==> !IsJsWhitespace(s[r])
    decreases |s| - i
  {
    if i == |s| || !IsJsWhitespace(s[i]) then i else SkipForward(s, i + 1)
  }

  /** End of `s[lo..j]` once its trailing white space is dropped. */
  function SkipBackward(s: string, lo: nat, j: nat): (r: nat)
    requires lo <= j <= |s|
    ensures lo <= r <= j
    ensures forall k :: r <= k < j ==> IsJsWhitespace(s[k])
    ensures r > lo ==> !IsJsWhitespace(s[r - 1])
    decreases j - lo
  {
    if j == lo || !IsJsWhitespace(s[j - 1]) then j else SkipBackward(s, lo, j - 1)
  }

  /** `s.trim()`: a string that neither starts nor ends with white space. */
  function Trim(s: string): (r: string)
    ensures |r| <= |s|
    ensures r == [] || (!IsJsWhitespace(r[0]) && !IsJsWhitespace(r[|r| - 1]))
  {
    var a := SkipForward(s, 0);
    s[a..SkipBackward(s, a, |s|)]
  }

  /**
   * `Trim` keeps the infix `s[a..b]` and drops only white space: every
   * character before `a` and from `b` on is white space.
   */
  lemma TrimKeepsInfix(s: string)
    ensures var a := SkipForward(s, 0); var b := SkipBackward(s, a, |s|);
      Trim(s) == s[a..b]
      && (forall k :: 0 <= k < a ==> IsJsWhitespace(s[k]))
      && (forall k :: b <= k < |s| ==> IsJsWhitespace(s[k]))
  {
  }

  /** Trimming a string that is already trimmed changes nothing. */
  lemma TrimIdempotent(s: string)
    ensures Trim(Trim(s)) == Trim(s)
  {
    var r := Trim(s);
    if r != [] {
      assert SkipForward(r, 0) == 0;
      assert SkipBackward(r, 0, |r|) == |r|;
    }
  }

  /** A string trims to the empty string exactly when it is all white space. */
  lemma TrimEmptyIff(s: string)
    ensures Trim(s) == [] <==> forall k :: 0 <= k < |s| ==> IsJsWhitespace(s[k])
  {
    var a := SkipForward(s, 0);
    var b := SkipBackward(s, a, |s|);
    if Trim(s) == [] {
      assert a == b;
    }
  }
}
