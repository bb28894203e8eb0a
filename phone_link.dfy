/**
 * The `tel:` link target: `String(phone).replace(/[^+\d]/g, '')` keeps every
 * `+` and every ASCII digit of the phone field, wherever they occur.
 */
module PhoneLink {
  import opened JsText

  /** The characters the regular expression `[^+\d]` does not match. */
  predicate IsDialChar(c: char)
  {
    c == '+' || IsDigit(c)
  }

  predicate AllDialChars(s: string)
  {
    forall i :: 0 <= i < |s| ==> IsDialChar(s[i])
  }

  /** The phone field with every character other than `+` and `0`-`9` removed. */
  function PhoneDigits(s: string): (r: string)
    ensures AllDialChars(r)
    ensures |r| <= |s|
  {
    if s == [] then []
    else (if IsDialChar(s[0]) then [s[0]] else []) + PhoneDigits(s[1..])
  }

  /** `a` is `b` with some characters deleted and the rest kept in order. */
  predicate IsSubsequence(a: string, b: string)
    decreases |b|
  {
    if a == [] then true
    else if b == [] then false
    else if a[0] == b[0] then IsSubsequence(a[1..], b[1..])
    else IsSubsequence(a, b[1..])
  }

  /** The link target is an order-preserving subsequence of the phone field. */
  lemma {:induction false} PhoneDigitsSubsequence(s: string)
    ensures IsSubsequence(PhoneDigits(s), s)
  {
    if s != [] {
      PhoneDigitsSubsequence(s[1..]);
      var r := PhoneDigits(s);
      if IsDialChar(s[0]) {
        assert r[0] == s[0] && r[1..] == PhoneDigits(s[1..]);
      } else {
        assert r == PhoneDigits(s[1..]);
        assert r != [] ==> r[0] != s[0];
      }
    }
  }

  /** Every `+` and digit of the phone field is kept, as many times as it occurs; nothing else is. */
  lemma {:induction false} PhoneDigitsKeepsAll(s: string)
    ensures forall c :: IsDialChar(c) ==> multiset(PhoneDigits(s))[c] == multiset(s)[c]
    ensures forall c :: !IsDialChar(c) ==> multiset(PhoneDigits(s))[c] == 0
  {
    if s != [] {
      PhoneDigitsKeepsAll(s[1..]);
      assert s == [s[0]] + s[1..];
      assert multiset(s) == multiset([s[0]]) + multiset(s[1..]);
    }
  }

  /** A string made only of `+` and digits is its own link target. */
  lemma {:induction false} PhoneDigitsFixes(s: string)
    requires AllDialChars(s)
    ensures PhoneDigits(s) == s
  {
    if s != [] {
      assert AllDialChars(s[1..]) by {
        forall i | 0 <= i < |s[1..]| ensures IsDialChar(s[1..][i]) {
          assert s[1..][i] == s[i + 1];
        }
      }
      PhoneDigitsFixes(s[1..]);
    }
  }

  /** Deriving the link target twice gives the same string as deriving it once. */
  lemma PhoneDigitsIdempotent(s: string)
    ensures PhoneDigits(PhoneDigits(s)) == PhoneDigits(s)
  {
    PhoneDigitsFixes(PhoneDigits(s));
  }
}
