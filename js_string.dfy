/**
  The one JavaScript string built-in whose result both chat clients branch on:
  `String.prototype.trim`, which removes leading and trailing white space and
  line terminators (the WhiteSpace and LineTerminator productions of ECMAScript).
  A `char` here stands for one UTF-16 code unit of a JavaScript string.
 */
module JsString {

  /** The code points `trim` removes: TAB, LF, VT, FF, CR, the space separators
      (category Zs), LINE SEPARATOR, PARAGRAPH SEPARATOR and the byte-order mark. */
  predicate IsWhitespace(c: char) {
    || c == '\t' || c == '\n' || c == '\U{000B}' || c == '\U{000C}' || c == '\r'
    || c == ' ' || c == '\U{00A0}' || c == '\U{1680}'
    || ('\U{2000}' <= c <= '\U{200A}')
    || c == '\U{2028}' || c == '\U{2029}' || c == '\U{202F}' || c == '\U{205F}'
    || c == '\U{3000}' || c == '\U{FEFF}'
  }

  predicate AllWhitespace(s: string) {
    forall i :: 0 <= i < |s| ==> IsWhitespace(s[i])
  }

  /** The index of the first non-white-space character at or after `i`, or `|s|`. */
  function SkipForward(s: string, i: nat): (r: nat)
    requires i <= |s|
    ensures i <= r <= |s|
    ensures forall k :: i <= k < r ==> IsWhitespace(s[k])
    ensures r == |s| || !IsWhitespace(s[r])
    decreases |s| - i
  {
    if i == |s| || !IsWhitespace(s[i]) then i else SkipForward(s, i + 1)
  }

  /** The index just after the last non-white-space character before `j`, going no
      lower than `lo`. */
  function SkipBackward(s: string, lo: nat, j: nat): (r: nat)
    requires lo <= j <= |s|
    ensures lo <= r <= j
    ensures forall k :: r <= k < j ==> IsWhitespace(s[k])
    ensures r == lo || !IsWhitespace(s[r - 1])
    decreases j
  {
    if j == lo || !IsWhitespace(s[j - 1]) then j else SkipBackward(s, lo, j - 1)
  }

  /** Where `s.trim()` starts: just past the leading white space. */
  function TrimStart(s: string): nat
  {
    SkipForward(s, 0)
  }

  /** Where `s.trim()` ends: at the start of the trailing white space. */
  function TrimEnd(s: string): nat
  {
    SkipBackward(s, TrimStart(s), |s|)
  }

  /** `s.trim()`: no white space at either end of the result, and the result is
      empty exactly when `s` is all white space. */
  function Trim(s: string): (r: string)
    ensures |r| <= |s|
    ensures r == [] || (!IsWhitespace(r[0]) && !IsWhitespace(r[|r| - 1]))
    ensures r == [] <==> AllWhitespace(s)
  {
    var a := TrimStart(s);
    var b := TrimEnd(s);
    assert a < |s| ==> !IsWhitespace(s[a]);
    s[a..b]
  }

  /** `s` splits into a white-space prefix, `s.trim()`, and a white-space suffix. */
  lemma TrimIsMiddle(s: string)
    ensures TrimStart(s) <= TrimEnd(s) <= |s|
    ensures s == s[..TrimStart(s)] + Trim(s) + s[TrimEnd(s)..]
    ensures AllWhitespace(s[..TrimStart(s)])
    ensures AllWhitespace(s[TrimEnd(s)..])
  {
    var a := TrimStart(s);
    var b := TrimEnd(s);
    assert Trim(s) == s[a..b];
    SplitInThree(s, a, b);
    WhitespaceSlice(s, 0, a);
    WhitespaceSlice(s, b, |s|);
  }

  lemma SplitInThree(s: string, a: nat, b: nat)
    requires a <= b <= |s|
    ensures s == s[..a] + s[a..b] + s[b..]
  {
  }

  lemma WhitespaceSlice(s: string, i: nat, j: nat)
    requires i <= j <= |s|
    requires forall k :: i <= k < j ==> IsWhitespace(s[k])
    ensures AllWhitespace(s[i..j])
  {
    assert forall k :: 0 <= k < j - i ==> s[i..j][k] == s[i + k];
  }

  /** Trimming twice is trimming once. */
  lemma TrimIdempotent(s: string)
    ensures Trim(Trim(s)) == Trim(s)
  {
    var r := Trim(s);
    if r != [] {
      assert SkipForward(r, 0) == 0;
      assert SkipBackward(r, 0, |r|) == |r|;
      assert r[0..|r|] == r;
    }
  }
}
