/**
 * The JavaScript string primitives the application relies on:
 * `String.prototype.trim`, `toLowerCase` and `includes`.
 */
module JsText {

  /** The characters `trim` removes: ECMAScript WhiteSpace and LineTerminator code points. */
  predicate IsWhitespace(c: char) {
    var n := c as int;
    || n == 0x09 || n == 0x0A || n == 0x0B || n == 0x0C || n == 0x0D || n == 0x20
    || n == 0xA0 || n == 0x1680 || (0x2000 <= n <= 0x200A) || n == 0x2028 || n == 0x2029
    || n == 0x202F || n == 0x205F || n == 0x3000 || n == 0xFEFF
  }

  predicate AllWhitespace(s: string) {
    forall i :: 0 <= i < |s| ==> IsWhitespace(s[i])
  }

  /** The index of the first non-whitespace character at or after `i`, or `|s|`. */
  function SkipLeading(s: string, i: nat): (k: nat)
    requires i <= |s|
    ensures i <= k <= |s|
    ensures forall j :: i <= j < k ==> IsWhitespace(s[j])
    ensures k < |s| ==> !IsWhitespace(s[k])
    decreases |s| - i
  {
    if i < |s| && IsWhitespace(s[i]) then SkipLeading(s, i + 1) else i
  }

  /** The end of `s[lo..j]` once trailing whitespace is dropped. */
  function SkipTrailing(s: string, lo: nat, j: nat): (k: nat)
    requires lo <= j <= |s|
    ensures lo <= k <= j
    ensures forall m :: k <= m < j ==> IsWhitespace(s[m])
    ensures k > lo ==> !IsWhitespace(s[k - 1])
    decreases j - lo
  {
    if j > lo && IsWhitespace(s[j - 1]) then SkipTrailing(s, lo, j - 1) else j
  }

  /** `r` is `s` with a whitespace prefix of length `k` and a whitespace suffix removed. */
  predicate StripsTo(s: string, k: int, r: string) {
    SliceAt(s, k, r) && AllWhitespace(s[..k]) && AllWhitespace(s[k + |r|..])
  }

  /**
   * `s.trim()`: only leading and trailing whitespace is removed, and what
   * is left neither starts nor ends with whitespace.
   */
  function Trim(s: string): (r: string)
    ensures r == "" <==> AllWhitespace(s)
    ensures |r| > 0 ==> !IsWhitespace(r[0]) && !IsWhitespace(r[|r| - 1])
    ensures exists k :: StripsTo(s, k, r)
  {
    var lo := SkipLeading(s, 0);
    var hi := SkipTrailing(s, lo, |s|);
    assert StripsTo(s, lo, s[lo..hi]);
    s[lo..hi]
  }

  /** Trim's contract determines its result: any such stripping of `s` is `Trim(s)`. */
  lemma TrimDetermined(s: string, k: int, r: string)
    requires StripsTo(s, k, r)
    requires |r| > 0 ==> !IsWhitespace(r[0]) && !IsWhitespace(r[|r| - 1])
    ensures r == Trim(s)
  {
  }

  /** `c.toLowerCase()` for ASCII letters; every other character is its own lower case here. */
  function LowerChar(c: char): char {
    if 'A' <= c <= 'Z' then (c as int + 32) as char else c
  }

  /** `s.toLowerCase()`, restricted to the ASCII letters. */
  function ToLower(s: string): (r: string)
    ensures |r| == |s|
    ensures forall i :: 0 <= i < |s| ==> r[i] == LowerChar(s[i])
    ensures forall i :: 0 <= i < |r| ==> !('A' <= r[i] <= 'Z')
  {
    seq(|s|, i requires 0 <= i < |s| => LowerChar(s[i]))
  }

  /** Lower-casing is idempotent. */
  lemma ToLowerIdempotent(s: string)
    ensures ToLower(ToLower(s)) == ToLower(s)
  {
  }

  /** `s.includes(p)`: some slice of `s` equals `p`. */
  predicate Contains(s: string, p: string) {
    exists i | 0 <= i <= |s| - |p| :: SliceAt(s, i, p)
  }

  /** `p` occurs in `s` starting at index `k`. */
  predicate SliceAt(s: string, k: int, p: string) {
    0 <= k <= |s| - |p| && s[k..k + |p|] == p
  }

  /** A string contains itself placed after any prefix and before any suffix. */
  lemma ContainsInfix(a: string, p: string, b: string)
    ensures Contains(a + p + b, p)
  {
    var s := a + p + b;
    assert SliceAt(s, |a|, p);
  }
}
