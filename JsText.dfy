/**
 * `String.prototype.trim`: removes the leading and trailing characters that
 * ECMAScript counts as white space or line terminators.
 */
module JsText {

  /** ECMAScript WhiteSpace (TAB, VT, FF, ZWNBSP and every space separator) and LineTerminator. */
  predicate IsJsWhitespace(c: char) {
    || c == '\t' || c == '\U{000B}' || c == '\U{000C}' || c == '\U{FEFF}'
    || c == ' ' || c == '\U{00A0}' || c == '\U{1680}' || ('\U{2000}' <= c <= '\U{200A}')
    || c == '\U{202F}' || c == '\U{205F}' || c == '\U{3000}'
    || c == '\n' || c == '\r' || c == '\U{2028}' || c == '\U{2029}'
  }

  /** Every character at positions lo up to (not including) hi is white space. */
  predicate WhitespaceBetween(s: string, lo: int, hi: int)
    requires 0 <= lo && hi <= |s|
  {
    forall x :: lo <= x < hi ==> IsJsWhitespace(s[x])
  }

  predicate AllWhitespace(s: string) {
    WhitespaceBetween(s, 0, |s|)
  }

  /** Neither end of the string is white space. */
  predicate IsTrimmed(s: string) {
    s == [] || (!IsJsWhitespace(s[0]) && !IsJsWhitespace(s[|s| - 1]))
  }

  /** How many characters of white space the string starts with. */
  function Lead(s: string): (n: nat)
    ensures n <= |s| && WhitespaceBetween(s, 0, n)
    ensures n < |s| ==> !IsJsWhitespace(s[n])
  {
    if s == [] || !IsJsWhitespace(s[0]) then 0
    else
      var n := 1 + Lead(s[1..]);
      assert forall x :: 1 <= x < n ==> s[x] == s[1..][x - 1];
      n
  }

  /** How many characters of white space the string ends with. */
  function Trail(s: string): (n: nat)
    ensures n <= |s| && WhitespaceBetween(s, |s| - n, |s|)
    ensures n < |s| ==> !IsJsWhitespace(s[|s| - 1 - n])
  {
    if s == [] || !IsJsWhitespace(s[|s| - 1]) then 0
    else
      var n := 1 + Trail(s[..|s| - 1]);
      assert forall x :: |s| - n <= x < |s| - 1 ==> s[x] == s[..|s| - 1][x];
      n
  }

  /** The first non-white character comes before the white space at the end. */
  lemma LeadTrailDisjoint(s: string)
    requires Lead(s) < |s|
    ensures Lead(s) + Trail(s) < |s|
  {
  }

  /**
   * `trim()`: the result is the slice of the input after its leading white
   * space; its two ends are not white space, and everything cut off before and
   * after it is white space.
   */
  function Trim(s: string): (r: string)
    ensures IsTrimmed(r)
    ensures Lead(s) + |r| <= |s| && r == s[Lead(s)..Lead(s) + |r|]
    ensures WhitespaceBetween(s, 0, Lead(s)) && WhitespaceBetween(s, Lead(s) + |r|, |s|)
  {
    var i := Lead(s);
    if i == |s| then []
    else
      LeadTrailDisjoint(s);
      var j := |s| - Trail(s);
      assert s[i..j][0] == s[i] && s[i..j][j - i - 1] == s[j - 1];
      s[i..j]
  }

  /**
   * The trimmed part is unique: whenever a string is white space, then a
   * trimmed middle, then white space, `trim()` returns exactly that middle.
   */
  lemma TrimUnique(s: string, i: nat, j: nat)
    requires i <= j <= |s|
    requires WhitespaceBetween(s, 0, i) && WhitespaceBetween(s, j, |s|) && IsTrimmed(s[i..j])
    ensures Trim(s) == s[i..j]
  {
    var r := Trim(s);
    var k := Lead(s);
    if i == j {
      assert WhitespaceBetween(s, 0, |s|);
      assert k == |s|;
    } else {
      assert !IsJsWhitespace(s[i]) by { assert s[i] == s[i..j][0]; }
      assert !IsJsWhitespace(s[j - 1]) by { assert s[j - 1] == s[i..j][j - i - 1]; }
      assert k == i;
      assert r != [] by { assert k < |s|; }
      assert r[|r| - 1] == s[k + |r| - 1];
      assert k + |r| == j;
    }
  }

  /** A string whose ends are not white space is left as it is. */
  lemma TrimKeepsTrimmed(s: string)
    requires IsTrimmed(s)
    ensures Trim(s) == s
  {
    assert s[0..|s|] == s;
    TrimUnique(s, 0, |s|);
  }

  /** `trim()` is idempotent. */
  lemma TrimIdempotent(s: string)
    ensures Trim(Trim(s)) == Trim(s)
  {
    TrimKeepsTrimmed(Trim(s));
  }

  /** White space added at either end makes no difference to `trim()`. */
  lemma TrimIgnoresPadding(before: string, s: string, after: string)
    requires AllWhitespace(before) && AllWhitespace(after)
    ensures Trim(before + s + after) == Trim(s)
  {
    var r := Trim(s);
    var k := Lead(s);
    var p := before + s + after;
    var b := |before|;
    var i, j := b + k, b + k + |r|;
    assert forall x :: 0 <= x < |p| ==>
      p[x] == if x < b then before[x] else if x < b + |s| then s[x - b] else after[x - b - |s|];
    assert WhitespaceBetween(p, 0, i);
    assert WhitespaceBetween(p, j, |p|);
    assert p[i..j] == r;
    TrimUnique(p, i, j);
  }
}
