/**
 * The JavaScript string operations the views rely on: `trim`, `toLowerCase`
 * (ASCII letters only), `includes`, `startsWith` and `split(' ')[0]`.
 */
module Text {

  /**
   * The characters `String.prototype.trim` strips: the ECMAScript WhiteSpace
   * code points (tab, vertical tab, form feed, space, no-break space, the
   * byte order mark and the Unicode space separators) and the four line
   * terminators.
   */
  predicate IsWhitespace(c: char) {
    c == '\t' || c == '\n' || c == '\U{000B}' || c == '\U{000C}' || c == '\r' || c == ' '
    || c == '\U{00A0}' || c == '\U{1680}' || ('\U{2000}' <= c <= '\U{200A}')
    || c == '\U{2028}' || c == '\U{2029}' || c == '\U{202F}' || c == '\U{205F}'
    || c == '\U{3000}' || c == '\U{FEFF}'
  }

  predicate AllWhitespace(s: string) {
    forall i :: 0 <= i < |s| ==> IsWhitespace(s[i])
  }

  /** The first position at or after `i` that is not whitespace, or `|s|`. */
  function SkipLeading(s: string, i: nat): (j: nat)
    requires i <= |s|
    ensures i <= j <= |s|
    ensures forall k :: i <= k < j ==> IsWhitespace(s[k])
    ensures j == |s| || !IsWhitespace(s[j])
    decreases |s| - i
  {
    if i == |s| || !IsWhitespace(s[i]) then i else SkipLeading(s, i + 1)
  }

  /** The end of `s[lo..j]` once its trailing whitespace is dropped. */
  function SkipTrailing(s: string, lo: nat, j: nat): (i: nat)
    requires lo <= j <= |s|
    ensures lo <= i <= j
    ensures forall k :: i <= k < j ==> IsWhitespace(s[k])
    ensures i == lo || !IsWhitespace(s[i - 1])
    decreases j
  {
    if j == lo || !IsWhitespace(s[j - 1]) then j else SkipTrailing(s, lo, j - 1)
  }

  /** `s` is whitespace, then `r` from position `a` to `b`, then whitespace again. */
  predicate TrimmedBetween(s: string, r: string, a: int, b: int) {
    0 <= a <= b <= |s| && r == s[a..b] && AllWhitespace(s[..a]) && AllWhitespace(s[b..])
  }

  /**
   * `s.trim()`: `s` with its leading and trailing whitespace cut off, so
   * that what is kept neither starts nor ends with whitespace.
   */
  function Trim(s: string): (r: string)
    ensures exists a, b :: TrimmedBetween(s, r, a, b)
    ensures r == [] || (!IsWhitespace(r[0]) && !IsWhitespace(r[|r| - 1]))
  {
    var a := SkipLeading(s, 0);
    var b := SkipTrailing(s, a, |s|);
    assert TrimmedBetween(s, s[a..b], a, b);
    s[a..b]
  }

  /** A string trims to nothing exactly when every character of it is whitespace. */
  lemma TrimEmptyIff(s: string)
    ensures Trim(s) == [] <==> AllWhitespace(s)
  {
    var a := SkipLeading(s, 0);
    var b := SkipTrailing(s, a, |s|);
    assert Trim(s) == s[a..b];
  }

  /** Trimming an already trimmed string changes nothing. */
  lemma TrimIdempotent(s: string)
    ensures Trim(Trim(s)) == Trim(s)
  {
    var r := Trim(s);
    assert SkipLeading(r, 0) == 0;
    assert SkipTrailing(r, 0, |r|) == |r|;
    assert r[0..|r|] == r;
  }

  /** ASCII `toLowerCase`: 'A'..'Z' become 'a'..'z', every other character is kept. */
  function LowerChar(c: char): char {
    if 'A' <= c <= 'Z' then (c as int + 32) as char else c
  }

  function Lower(s: string): (r: string)
    ensures |r| == |s|
    ensures forall i :: 0 <= i < |s| ==> r[i] == LowerChar(s[i])
  {
    seq(|s|, i requires 0 <= i < |s| => LowerChar(s[i]))
  }

  /** `p` is a prefix of `s`. */
  predicate StartsWith(s: string, p: string) {
    |p| <= |s| && s[..|p|] == p
  }

  /** `q` occurs in `s` starting at position `k`. */
  predicate OccursAt(s: string, q: string, k: int) {
    0 <= k <= |s| - |q| && s[k..k + |q|] == q
  }

  /** `s.includes(q)`: `q` occurs in `s` at some position. */
  function Contains(s: string, q: string): (b: bool)
    ensures b <==> exists k :: OccursAt(s, q, k)
    decreases |s|
  {
    if |q| > |s| then false
    else if StartsWith(s, q) then
      assert OccursAt(s, q, 0);
      true
    else
      var b := Contains(s[1..], q);
      assert forall k :: 1 <= k ==> (OccursAt(s, q, k) <==> OccursAt(s[1..], q, k - 1)) by {
        forall k | 1 <= k ensures OccursAt(s, q, k) <==> OccursAt(s[1..], q, k - 1) {
          if k <= |s| - |q| {
            assert s[1..][k - 1..k - 1 + |q|] == s[k..k + |q|];
          }
        }
      }
      if b then
        var k :| OccursAt(s[1..], q, k);
        assert OccursAt(s, q, k + 1);
        b
      else
        assert !OccursAt(s, q, 0);
        b
  }

  /** Every string contains the empty string, as `includes("")` is always true. */
  lemma ContainsEmpty(s: string)
    ensures Contains(s, [])
  {
    assert OccursAt(s, [], 0);
  }

  /** `s.split(' ')[0]`: everything before the first space, or all of `s` when it has none. */
  function FirstWord(s: string): (r: string)
    ensures |r| <= |s| && r == s[..|r|]
    ensures ' ' !in r
    ensures |r| < |s| ==> s[|r|] == ' '
  {
    if s == [] || s[0] == ' ' then []
    else [s[0]] + FirstWord(s[1..])
  }
}
