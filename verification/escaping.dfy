/** The two escapers of the content script and the popup: `escapeRegExp` turns user text into a
    regular expression that matches that text literally, and `escapeHTML` turns text into HTML
    that displays as that text. content.js and popup.js carry identical copies of `escapeHTML`;
    it is defined once here. Each escaper is paired with its decoder and proved to round-trip. */
module Escaping {
  import opened Js

  // ----- escapeRegExp -----

  /** The characters `escapeRegExp` prefixes with a backslash: `. * + ? ^ $ { } ( ) | [ ] \`. */
  predicate IsRegExpSyntax(c: char) {
    c in {'.', '*', '+', '?', '^', '$', '{', '}', '(', ')', '|', '[', ']', '\\'}
  }

  /** A pattern that matches its text literally: every syntax character is escaped by a
      backslash, and a backslash only ever escapes a syntax character. */
  predicate IsLiteralPattern(p: string)
    decreases |p|
  {
    if |p| == 0 then true
    else if p[0] == '\\' then |p| >= 2 && IsRegExpSyntax(p[1]) && IsLiteralPattern(p[2..])
    else !IsRegExpSyntax(p[0]) && IsLiteralPattern(p[1..])
  }

  /** `escapeRegExp`: one backslash before each syntax character, everything else copied. */
  function EscapeRegExp(s: string): (r: string)
    ensures IsLiteralPattern(r)
    ensures |r| >= |s|
    decreases |s|
  {
    if |s| == 0 then ""
    else
      var rest := EscapeRegExp(s[1..]);
      if IsRegExpSyntax(s[0]) then
        assert (['\\', s[0]] + rest)[2..] == rest;
        ['\\', s[0]] + rest
      else
        assert ([s[0]] + rest)[1..] == rest;
        [s[0]] + rest
  }

  /** Reads a pattern back as the text it matches: a backslash stands for the character after it. */
  function UnescapeRegExp(p: string): string
    decreases |p|
  {
    if |p| == 0 then ""
    else if p[0] == '\\' && |p| >= 2 then [p[1]] + UnescapeRegExp(p[2..])
    else [p[0]] + UnescapeRegExp(p[1..])
  }

  /** The escaped pattern stands for exactly the original text. */
  lemma {:induction false} RegExpRoundTrip(s: string)
    ensures UnescapeRegExp(EscapeRegExp(s)) == s
    decreases |s|
  {
    if |s| > 0 {
      var rest := EscapeRegExp(s[1..]);
      RegExpRoundTrip(s[1..]);
      if IsRegExpSyntax(s[0]) {
        assert (['\\', s[0]] + rest)[2..] == rest;
      } else {
        assert ([s[0]] + rest)[1..] == rest;
      }
      assert [s[0]] + s[1..] == s;
    }
  }

  /** Every literal pattern is the escape of some text: escaping adds no other shapes. */
  lemma {:induction false} LiteralPatternRoundTrip(p: string)
    requires IsLiteralPattern(p)
    ensures EscapeRegExp(UnescapeRegExp(p)) == p
    decreases |p|
  {
    if |p| > 0 {
      if p[0] == '\\' {
        var tail := p[2..];
        LiteralPatternRoundTrip(tail);
        EscapeRegExpCons(p[1], UnescapeRegExp(tail));
        assert UnescapeRegExp(p) == [p[1]] + UnescapeRegExp(tail);
        assert ['\\', p[1]] + tail == p;
      } else {
        var tail := p[1..];
        LiteralPatternRoundTrip(tail);
        EscapeRegExpCons(p[0], UnescapeRegExp(tail));
        assert UnescapeRegExp(p) == [p[0]] + UnescapeRegExp(tail);
        assert [p[0]] + tail == p;
      }
    }
  }

  /** Escaping one more character in front. */
  lemma EscapeRegExpCons(c: char, rest: string)
    ensures EscapeRegExp([c] + rest) == (if IsRegExpSyntax(c) then ['\\', c] else [c]) + EscapeRegExp(rest)
  {
    assert ([c] + rest)[0] == c && ([c] + rest)[1..] == rest;
  }

  /** Text without syntax characters is its own pattern. */
  lemma {:induction false} EscapeRegExpPlain(s: string)
    requires forall i | 0 <= i < |s| :: !IsRegExpSyntax(s[i])
    ensures EscapeRegExp(s) == s
    decreases |s|
  {
    if |s| > 0 {
      EscapeRegExpPlain(s[1..]);
      assert [s[0]] + s[1..] == s;
    }
  }

  // ----- escapeHTML -----

  /** The characters `escapeHTML` replaces: `& < > " '`. */
  predicate IsHtmlSpecial(c: char) {
    c == '&' || c == '<' || c == '>' || c == '"' || c == '\''
  }

  /** The replacement of one character. */
  function HtmlEntity(c: char): string
  {
    match c
    case '&' => "&amp;"
    case '<' => "&lt;"
    case '>' => "&gt;"
    case '"' => "&quot;"
    case '\'' => "&#39;"
    case _ => [c]
  }

  /** The special character whose entity `p` starts with, if any. */
  function EntityAt(p: string): (r: Option<char>)
    ensures r.Some? ==> IsHtmlSpecial(r.value) && HtmlEntity(r.value) <= p
    ensures r.None? && |p| > 0 && p[0] == '&' ==> !("&amp;" <= p)
  {
    if "&amp;" <= p then Some('&')
    else if "&lt;" <= p then Some('<')
    else if "&gt;" <= p then Some('>')
    else if "&quot;" <= p then Some('"')
    else if "&#39;" <= p then Some('\'')
    else None
  }

  /** The replacement of a character is recognised as exactly that character's entity,
      whatever follows it. */
  lemma EntityAtEntity(c: char, rest: string)
    ensures IsHtmlSpecial(c) ==> EntityAt(HtmlEntity(c) + rest) == Some(c)
    ensures !IsHtmlSpecial(c) ==> EntityAt(HtmlEntity(c) + rest).None?
  {
    var p := HtmlEntity(c) + rest;
    assert p[0] == (HtmlEntity(c))[0];
    if IsHtmlSpecial(c) {
      assert HtmlEntity(c) <= p;
      assert p[1] == (HtmlEntity(c))[1];
      if c == '"' || c == '\'' {
        assert p[2] == (HtmlEntity(c))[2];
      }
    }
  }

  /** HTML whose text is safe to insert: no `< > " '` at all, and every `&` begins one of the
      five entities `escapeHTML` writes. */
  predicate IsEscapedHtml(p: string)
    decreases |p|
  {
    if |p| == 0 then true
    else match EntityAt(p)
      case Some(c) => IsEscapedHtml(p[|HtmlEntity(c)|..])
      case None => !IsHtmlSpecial(p[0]) && IsEscapedHtml(p[1..])
  }

  /** The single replacement pass of `escapeHTML` over a string. */
  function EscapeHtmlText(s: string): (r: string)
    ensures IsEscapedHtml(r)
    ensures '<' !in r && '>' !in r && '"' !in r && '\'' !in r
    ensures |r| >= |s|
    decreases |s|
  {
    if |s| == 0 then ""
    else
      var rest := EscapeHtmlText(s[1..]);
      EscapeStep(s[0], rest);
      HtmlEntity(s[0]) + rest
  }

  /** Putting one replacement in front of safe HTML keeps it safe. */
  lemma EscapeStep(c: char, rest: string)
    requires IsEscapedHtml(rest)
    requires '<' !in rest && '>' !in rest && '"' !in rest && '\'' !in rest
    ensures IsEscapedHtml(HtmlEntity(c) + rest)
    ensures var p := HtmlEntity(c) + rest; '<' !in p && '>' !in p && '"' !in p && '\'' !in p
  {
    var head := HtmlEntity(c);
    assert '<' !in head && '>' !in head && '"' !in head && '\'' !in head;
    assert (head + rest)[|head|..] == rest;
    EntityAtEntity(c, rest);
  }

  /** `escapeHTML(str)`: falsy input (`undefined`, `null` or `''`) gives `''`; a string
      gives its escaped form, which never contains `< > " '`. */
  function EscapeHtml(str: Option<string>): (r: string)
    ensures !Truthy(str) ==> r == ""
    ensures Truthy(str) ==> r != "" && IsEscapedHtml(r) && DecodeHtml(r) == str.value
    ensures '<' !in r && '>' !in r && '"' !in r && '\'' !in r
  {
    if !Truthy(str) then "" else
      HtmlRoundTrip(str.value);
      EscapeHtmlText(str.value)
  }

  /** What a browser shows for escaped HTML: each entity stands for its character. */
  function DecodeHtml(p: string): string
    decreases |p|
  {
    if |p| == 0 then ""
    else match EntityAt(p)
      case Some(c) => [c] + DecodeHtml(p[|HtmlEntity(c)|..])
      case None => [p[0]] + DecodeHtml(p[1..])
  }

  /** Escaped text displays as the original text: the entities the pass writes are never
      escaped a second time. */
  lemma {:induction false} HtmlRoundTrip(s: string)
    ensures DecodeHtml(EscapeHtmlText(s)) == s
    decreases |s|
  {
    if |s| > 0 {
      var rest := EscapeHtmlText(s[1..]);
      HtmlRoundTrip(s[1..]);
      assert EscapeHtmlText(s) == HtmlEntity(s[0]) + rest;
      DecodeEntity(s[0], rest);
      assert [s[0]] + s[1..] == s;
    }
  }

  /** A character's replacement decodes to that character, whatever follows it. */
  lemma DecodeEntity(c: char, rest: string)
    ensures DecodeHtml(HtmlEntity(c) + rest) == [c] + DecodeHtml(rest)
  {
    var head := HtmlEntity(c);
    var p := head + rest;
    EntityAtEntity(c, rest);
    assert |p| > 0 && p[0] == head[0];
    if IsHtmlSpecial(c) {
      assert p[|head|..] == rest;
    } else {
      assert head == [c] && p[1..] == rest;
    }
  }

  /** Escaping one more character in front. */
  lemma EscapeHtmlCons(c: char, rest: string)
    ensures EscapeHtmlText([c] + rest) == HtmlEntity(c) + EscapeHtmlText(rest)
  {
    assert ([c] + rest)[0] == c && ([c] + rest)[1..] == rest;
  }

  /** Every safe HTML text is the escape of what it displays. */
  lemma {:induction false} EscapedHtmlRoundTrip(p: string)
    requires IsEscapedHtml(p)
    ensures EscapeHtmlText(DecodeHtml(p)) == p
    decreases |p|
  {
    if |p| > 0 {
      match EntityAt(p)
      case Some(c) =>
        var n := |HtmlEntity(c)|;
        var tail := p[n..];
        assert IsEscapedHtml(tail);
        EscapedHtmlRoundTrip(tail);
        assert DecodeHtml(p) == [c] + DecodeHtml(tail);
        EscapeHtmlCons(c, DecodeHtml(tail));
        assert HtmlEntity(c) + tail == p;
      case None =>
        var tail := p[1..];
        assert !IsHtmlSpecial(p[0]) && IsEscapedHtml(tail);
        EscapedHtmlRoundTrip(tail);
        assert DecodeHtml(p) == [p[0]] + DecodeHtml(tail);
        EscapeHtmlCons(p[0], DecodeHtml(tail));
        assert HtmlEntity(p[0]) == [p[0]];
        assert [p[0]] + tail == p;
    }
  }

  /** Text without special characters passes through unchanged. */
  lemma {:induction false} EscapeHtmlPlain(s: string)
    requires forall i | 0 <= i < |s| :: !IsHtmlSpecial(s[i])
    ensures EscapeHtmlText(s) == s
    decreases |s|
  {
    if |s| > 0 {
      EscapeHtmlPlain(s[1..]);
      assert [s[0]] + s[1..] == s;
    }
  }
}
