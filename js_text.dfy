/**
 * The two JavaScript string primitives the handler leans on,
 * `String.prototype.trim` and the `a || b` fallback between strings, and two
 * character predicates shared by the other modules.
 */
module JsText {

  /** ECMAScript WhiteSpace and LineTerminator code points: exactly what `trim` removes. */
  predicate IsTrimmable(c: char)
  {
    || c == '\t' || c == '\n' || c == '\U{000B}' || c == '\U{000C}' || c == '\r'
    || c == ' ' || c == '\U{00A0}' || c == '\U{1680}'
    || ('\U{2000}' <= c <= '\U{200A}')
    || c == '\U{2028}' || c == '\U{2029}' || c == '\U{202F}' || c == '\U{205F}'
    || c == '\U{3000}' || c == '\U{FEFF}'
  }

  /** True when every character of `s` would be removed by `trim`. */
  predicate AllTrimmable(s: string)
  {
    forall i :: 0 <= i < |s| ==> IsTrimmable(s[i])
  }

  /** Every character of `s` from index `lo` up to (not including) `hi` is whitespace. */
  predicate TrimmableBetween(s: string, lo: int, hi: int)
    requires 0 <= lo <= hi <= |s|
  {
    forall k :: lo <= k < hi ==> IsTrimmable(s[k])
  }

  /** How many whitespace characters `s` starts with. */
  function LeadingWhitespace(s: string): (n: nat)
    ensures n <= |s| && TrimmableBetween(s, 0, n)
    ensures n < |s| ==> !IsTrimmable(s[n])
  {
    if s != [] && IsTrimmable(s[0]) then 1 + LeadingWhitespace(s[1..]) else 0
  }

  /** How many whitespace characters `s` ends with. */
  function TrailingWhitespace(s: string): (n: nat)
    ensures n <= |s| && TrimmableBetween(s, |s| - n, |s|)
    ensures n < |s| ==> !IsTrimmable(s[|s| - n - 1])
  {
    if s != [] && IsTrimmable(s[|s| - 1]) then 1 + TrailingWhitespace(s[..|s| - 1]) else 0
  }

  /** Drops leading whitespace: the result is the suffix of `s` after its whitespace prefix. */
  function TrimStart(s: string): (r: string)
    ensures |r| <= |s| && r == s[|s| - |r|..]
    ensures TrimmableBetween(s, 0, |s| - |r|)
    ensures r != [] ==> !IsTrimmable(r[0])
  {
    s[LeadingWhitespace(s)..]
  }

  /** Drops trailing whitespace: the result is the prefix of `s` before its whitespace suffix. */
  function TrimEnd(s: string): (r: string)
    ensures |r| <= |s| && r == s[..|r|]
    ensures TrimmableBetween(s, |r|, |s|)
    ensures r != [] ==> !IsTrimmable(r[|r| - 1])
  {
    s[..|s| - TrailingWhitespace(s)]
  }

  /** Neither the first nor the last character is whitespace. */
  predicate IsTrimmed(s: string)
  {
    s != [] ==> !IsTrimmable(s[0]) && !IsTrimmable(s[|s| - 1])
  }

  /**
   * `s.trim()`: the slice of `s` after its leading whitespace, with only
   * whitespace after it, and no whitespace at either end.
   */
  function Trim(s: string): (r: string)
    ensures LeadingWhitespace(s) + |r| <= |s|
    ensures r == s[LeadingWhitespace(s)..LeadingWhitespace(s) + |r|]
    ensures TrimmableBetween(s, LeadingWhitespace(s) + |r|, |s|)
    ensures IsTrimmed(r)
  {
    var t := TrimStart(s);
    var r := TrimEnd(t);
    MiddleSlice(s, t, r, LeadingWhitespace(s));
    ShiftTrimmable(s, t, LeadingWhitespace(s), |r|);
    r
  }

  /** A prefix `r` of the suffix `t` of `s` that starts at `i` is the slice of `s` from `i`. */
  lemma MiddleSlice(s: string, t: string, r: string, i: nat)
    requires i <= |s| && t == s[i..] && |r| <= |t| && r == t[..|r|]
    ensures r == s[i..i + |r|]
  {
  }

  /** Whitespace at the end of the suffix `t` of `s` is whitespace at the end of `s`. */
  lemma ShiftTrimmable(s: string, t: string, i: nat, n: nat)
    requires i <= |s| && t == s[i..] && n <= |t| && TrimmableBetween(t, n, |t|)
    ensures TrimmableBetween(s, i + n, |s|)
  {
    forall k | i + n <= k < |s| ensures IsTrimmable(s[k]) {
      assert s[k] == t[k - i];
    }
  }

  /** A trimmed string is empty exactly when the original held nothing but whitespace. */
  lemma TrimEmptyIff(s: string)
    ensures Trim(s) == [] <==> AllTrimmable(s)
  {
  }

  /** The result of `trim` neither starts nor ends with whitespace, and trimming it again changes nothing. */
  lemma TrimIdempotent(s: string)
    ensures Trim(Trim(s)) == Trim(s)
  {
  }

  /** `a || b` for two strings: the empty string is the only falsy one, so a non-empty `a` wins. */
  function OrElse(a: string, b: string): (r: string)
    ensures a != [] ==> r == a
    ensures a == [] ==> r == b
    ensures r != [] <==> a != [] || b != []
  {
    if a != [] then a else b
  }

  /** A chain `a || b || c` picks the first non-empty operand however it is grouped. */
  lemma OrElseAssociative(a: string, b: string, c: string)
    ensures OrElse(a, OrElse(b, c)) == OrElse(OrElse(a, b), c)
  {
  }

  /** `\d` in a regular expression, and the digits `Number` reads: ASCII `0`-`9` only. */
  predicate IsDigit(c: char)
  {
    '0' <= c <= '9'
  }

  /** A string with no line feed in it. */
  predicate NoLineFeed(s: string)
  {
    forall i :: 0 <= i < |s| ==> s[i] != '\n'
  }
}
