/**
 * `escapeHtml` (api/send-email.js) and the line-break step applied to the
 * escaped message before it goes into the HTML body.
 */
module HtmlEscape {
  import opened JsText

  /** The five characters the escaper's regular expression matches. */
  predicate IsSpecial(c: char)
  {
    c == '&' || c == '<' || c == '>' || c == '"' || c == '\''
  }

  /** Characters that could open a tag or close an attribute value. */
  predicate IsMarkup(c: char)
  {
    c == '<' || c == '>' || c == '"' || c == '\''
  }

  /** The replacement the escaper's lookup table gives each special character. */
  function Entity(c: char): (r: string)
    requires IsSpecial(c)
    ensures 4 <= |r| && r[0] == '&' && r[|r| - 1] == ';'
  {
    match c
    case '&' => "&amp;"
    case '<' => "&lt;"
    case '>' => "&gt;"
    case '"' => "&quot;"
    case '\'' => "&#39;"
  }

  /** True when `t` begins with one of the five entities the escaper emits. */
  predicate StartsWithEntity(t: string)
  {
    "&amp;" <= t || "&lt;" <= t || "&gt;" <= t || "&quot;" <= t || "&#39;" <= t
  }

  /** Text that is safe to place between tags or inside a quoted attribute. */
  predicate IsEscapedText(t: string)
  {
    && (forall i :: 0 <= i < |t| ==> !IsMarkup(t[i]))
    && (forall i :: 0 <= i < |t| && t[i] == '&' ==> StartsWithEntity(t[i..]))
  }

  function EscapeChar(c: char): string
  {
    if IsSpecial(c) then Entity(c) else [c]
  }

  /** `escapeHtml(s)`: every special character replaced by its entity, all others kept in order. */
  function Escape(s: string): (r: string)
    ensures |r| >= |s|
    ensures r == [] <==> s == []
    ensures forall i :: 0 <= i < |r| ==> !IsMarkup(r[i])
  {
    if s == [] then [] else EscapeChar(s[0]) + Escape(s[1..])
  }

  /** Decodes the five entities back to their characters; everything else is copied. */
  function Unescape(t: string): string
    decreases |t|
  {
    if t == [] then []
    else if "&amp;" <= t then ['&'] + Unescape(t[5..])
    else if "&lt;" <= t then ['<'] + Unescape(t[4..])
    else if "&gt;" <= t then ['>'] + Unescape(t[4..])
    else if "&quot;" <= t then ['"'] + Unescape(t[6..])
    else if "&#39;" <= t then ['\''] + Unescape(t[5..])
    else [t[0]] + Unescape(t[1..])
  }

  /** Escaping distributes over concatenation: the escaper works one character at a time. */
  lemma {:induction false} EscapeConcat(a: string, b: string)
    ensures Escape(a + b) == Escape(a) + Escape(b)
  {
    if a == [] {
      assert a + b == b;
    } else {
      assert (a + b)[0] == a[0];
      assert (a + b)[1..] == a[1..] + b;
      EscapeConcat(a[1..], b);
    }
  }

  lemma UnescapeChar(c: char, rest: string)
    ensures Unescape(EscapeChar(c) + rest) == [c] + Unescape(rest)
  {
    if IsSpecial(c) {
      UnescapeEntity(c, rest);
    } else {
      var t := [c] + rest;
      assert t[0] == c && t[1..] == rest;
    }
  }

  lemma UnescapeEntity(c: char, rest: string)
    requires IsSpecial(c)
    ensures Unescape(Entity(c) + rest) == [c] + Unescape(rest)
  {
    var e := Entity(c);
    var t := e + rest;
    assert t[..|e|] == e && t[|e|..] == rest;
    if c == '&' {
      assert "&amp;" <= t;
    } else if c == '<' {
      assert "&lt;" <= t && t[1] == 'l';
    } else if c == '>' {
      assert "&gt;" <= t && t[1] == 'g';
    } else if c == '"' {
      assert "&quot;" <= t && t[1] == 'q';
    } else {
      assert "&#39;" <= t && t[1] == '#';
    }
  }

  /** Decoding the five entities recovers the original text. */
  lemma {:induction false} UnescapeEscape(s: string)
    ensures Unescape(Escape(s)) == s
  {
    if s != [] {
      UnescapeChar(s[0], Escape(s[1..]));
      UnescapeEscape(s[1..]);
    }
  }

  /** A name written as a tag comes out as text. */
  lemma EscapeTagExample()
    ensures Escape("<b>") == "&lt;b&gt;"
  {
  }

  /** Different inputs never escape to the same text. */
  lemma EscapeInjective(a: string, b: string)
    requires Escape(a) == Escape(b)
    ensures a == b
  {
    UnescapeEscape(a);
    UnescapeEscape(b);
  }

  /** An ampersand produced by escaping one character is the first character of an entity. */
  lemma AmpersandOpensEntity(c: char, i: nat, tail: string)
    requires i < |EscapeChar(c)| && EscapeChar(c)[i] == '&'
    ensures i == 0 && StartsWithEntity(EscapeChar(c) + tail)
  {
  }

  lemma {:induction false} EscapeAmpersands(s: string)
    ensures forall i :: 0 <= i < |Escape(s)| && Escape(s)[i] == '&' ==> StartsWithEntity(Escape(s)[i..])
  {
    if s != [] {
      EscapeAmpersands(s[1..]);
      var head, tail := EscapeChar(s[0]), Escape(s[1..]);
      assert Escape(s) == head + tail;
      forall i | 0 <= i < |head + tail| && (head + tail)[i] == '&' ensures StartsWithEntity((head + tail)[i..]) {
        if i < |head| {
          AmpersandOpensEntity(s[0], i, tail);
        } else {
          assert (head + tail)[i..] == tail[i - |head|..];
        }
      }
    }
  }

  /** Every ampersand in the output opens one of the five entities, and no markup character survives. */
  lemma EscapeIsEscapedText(s: string)
    ensures IsEscapedText(Escape(s))
  {
    EscapeAmpersands(s);
  }

  /** Text without special characters passes through unchanged, and only such text does. */
  lemma {:induction false} EscapeIdentityIff(s: string)
    ensures Escape(s) == s <==> forall i :: 0 <= i < |s| ==> !IsSpecial(s[i])
  {
    if s != [] {
      EscapeIdentityIff(s[1..]);
      var head, tail := EscapeChar(s[0]), Escape(s[1..]);
      if Escape(s) == s {
        assert !IsSpecial(s[0]) by {
          assert |head + tail| == |s|;
        }
        assert tail == s[1..] by {
          assert head == [s[0]];
          assert (head + tail)[1..] == tail;
        }
      }
      if forall i :: 0 <= i < |s| ==> !IsSpecial(s[i]) {
        assert !IsSpecial(s[0]);
        assert forall i :: 0 <= i < |s[1..]| ==> !IsSpecial(s[1..][i]) by {
          forall i | 0 <= i < |s[1..]| ensures !IsSpecial(s[1..][i]) {
            assert s[1..][i] == s[i + 1];
          }
        }
      }
    }
  }

  /** `.replace(/\n/g, '<br>')`: every line feed becomes a `<br>` tag. */
  function NewlinesToBreaks(t: string): (r: string)
    ensures |r| >= |t|
    ensures NoLineFeed(r)
  {
    if t == [] then []
    else (if t[0] == '\n' then "<br>" else [t[0]]) + NewlinesToBreaks(t[1..])
  }

  /** Turns each `<br>` back into a line feed; the partner of NewlinesToBreaks. */
  function BreaksToNewlines(r: string): string
    decreases |r|
  {
    if r == [] then []
    else if "<br>" <= r then ['\n'] + BreaksToNewlines(r[4..])
    else [r[0]] + BreaksToNewlines(r[1..])
  }

  /** On text with no `<` (all escaped text) the line-break step loses nothing. */
  lemma {:induction false} BreaksRoundTrip(t: string)
    requires forall i :: 0 <= i < |t| ==> t[i] != '<'
    ensures BreaksToNewlines(NewlinesToBreaks(t)) == t
  {
    if t != [] {
      var head, tail := if t[0] == '\n' then "<br>" else [t[0]], NewlinesToBreaks(t[1..]);
      var r := head + tail;
      BreaksRoundTrip(t[1..]);
      if t[0] == '\n' {
        assert "<br>" <= r && r[4..] == tail;
      } else {
        assert r[0] == t[0] && r[1..] == tail;
      }
    }
  }

  /** The message slot of the HTML body: escaped, then line feeds turned into `<br>`. */
  function SafeMessage(m: string): (r: string)
    ensures |r| >= |m|
    ensures NoLineFeed(r)
  {
    NewlinesToBreaks(Escape(m))
  }

  /** No `"` or `'` and no line feed in the message slot; every `<` in it opens a `<br>` tag. */
  lemma SafeMessageShape(m: string)
    ensures NoLineFeed(SafeMessage(m))
    ensures forall i :: 0 <= i < |SafeMessage(m)| ==> SafeMessage(m)[i] != '"' && SafeMessage(m)[i] != '\''
    ensures forall i :: 0 <= i < |SafeMessage(m)| && SafeMessage(m)[i] == '<' ==> "<br>" <= SafeMessage(m)[i..]
  {
    BreaksShape(Escape(m));
  }

  lemma {:induction false} BreaksShape(t: string)
    requires forall i :: 0 <= i < |t| ==> !IsMarkup(t[i])
    ensures forall i :: 0 <= i < |NewlinesToBreaks(t)| ==> NewlinesToBreaks(t)[i] != '"' && NewlinesToBreaks(t)[i] != '\''
    ensures forall i :: 0 <= i < |NewlinesToBreaks(t)| && NewlinesToBreaks(t)[i] == '<' ==> "<br>" <= NewlinesToBreaks(t)[i..]
  {
    if t != [] {
      BreaksShape(t[1..]);
      var head, tail := if t[0] == '\n' then "<br>" else [t[0]], NewlinesToBreaks(t[1..]);
      var r := head + tail;
      assert r == NewlinesToBreaks(t);
      forall i | 0 <= i < |r| && r[i] == '<' ensures "<br>" <= r[i..] {
        if i < |head| {
          assert i == 0 && head <= r;
        } else {
          assert r[i..] == tail[i - |head|..];
        }
      }
    }
  }

  /** The message slot can be decoded back to the trimmed message it came from. */
  lemma SafeMessageRecoverable(m: string)
    ensures Unescape(BreaksToNewlines(SafeMessage(m))) == m
  {
    BreaksRoundTrip(Escape(m));
    UnescapeEscape(m);
  }
}
