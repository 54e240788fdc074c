/** The pure rules of the content script, src/content/content.js: which element's text a page
    summary starts from, how that text is cleaned, which element a highlight modifies, and the
    message router. The DOM is reduced to what these rules read: the text of the first element
    each selector matches, and the texts of the elements a highlight may modify. */
module Content {
  import opened Js
  import opened Escaping

  // ----- extractPageContent -----

  /** The selectors tried for the page's main content, in priority order, `body` last. */
  const Selectors: seq<string> :=
    ["article", "main", "[role=\"main\"]", ".content", ".main-content", "#content", "body"]

  const MaxContentLength: nat := 5000
  const NoContentText := "No content found on this page."

  /** A page as the content script sees it: `innerText` of the first element each selector
      matches (selectors that match nothing are absent), the title, the URL, and the `innerText`
      of each element a highlight may modify, in document order. */
  datatype Page = Page(matches: map<string, string>, title: string, url: string, highlightable: seq<string>)

  /** The first selector at or after `from` that matches, if any. */
  function FirstMatch(matches: map<string, string>, from: nat): (i: Option<nat>)
    ensures i.Some? ==>
      && from <= i.value < |Selectors|
      && Selectors[i.value] in matches
      && forall j | from <= j < i.value :: Selectors[j] !in matches
    ensures i.None? ==> forall j | from <= j < |Selectors| :: Selectors[j] !in matches
    decreases |Selectors| - from
  {
    if from >= |Selectors| then None
    else if Selectors[from] in matches then Some(from)
    else FirstMatch(matches, from + 1)
  }

  /** The raw text the selector loop settles on; `''` when no selector matches. */
  function PageText(page: Page): string
  {
    match FirstMatch(page.matches, 0)
    case Some(i) => page.matches[Selectors[i]]
    case None => ""
  }

  /** Every white-space character is a plain space, and no two of them are adjacent. */
  predicate IsCollapsed(s: string)
  {
    && (forall i | 0 <= i < |s| :: IsSpace(s[i]) ==> s[i] == ' ')
    && (forall i, j | 0 <= i < |s| && 0 <= j < |s| && j == i + 1 :: !(IsSpace(s[i]) && IsSpace(s[j])))
  }

  /** The characters of `s` that are not white space, in order. */
  function NonSpace(s: string): string
  {
    if |s| == 0 then "" else (if IsSpace(s[0]) then "" else [s[0]]) + NonSpace(s[1..])
  }

  lemma {:induction false} NonSpaceAppend(a: string, b: string)
    ensures NonSpace(a + b) == NonSpace(a) + NonSpace(b)
    decreases |a|
  {
    if |a| == 0 {
      assert a + b == b;
    } else {
      assert (a + b)[1..] == a[1..] + b;
      NonSpaceAppend(a[1..], b);
    }
  }

  lemma {:induction false} NonSpaceOfSpaces(s: string)
    requires forall i | 0 <= i < |s| :: IsSpace(s[i])
    ensures NonSpace(s) == ""
    decreases |s|
  {
    if |s| > 0 {
      NonSpaceOfSpaces(s[1..]);
    }
  }

  /** Dropping leading white space keeps every non-space character. */
  lemma {:induction false} NonSpaceTrimStart(s: string)
    ensures NonSpace(TrimStart(s)) == NonSpace(s)
    decreases |s|
  {
    if |s| > 0 && IsSpace(s[0]) {
      NonSpaceTrimStart(s[1..]);
    }
  }

  /** `replace(/\s+/g, ' ')`: each maximal run of white space becomes one space. The result is
      collapsed, keeps every non-space character in order, and starts with a space exactly
      when `s` starts with white space. */
  function CollapseSpaces(s: string): (r: string)
    ensures IsCollapsed(r)
    ensures NonSpace(r) == NonSpace(s)
    ensures |r| <= |s|
    ensures |s| > 0 ==> |r| > 0 && r[0] == (if IsSpace(s[0]) then ' ' else s[0])
    decreases |s|
  {
    if |s| == 0 then ""
    else if IsSpace(s[0]) then
      var rest := TrimStart(s);
      var tail := CollapseSpaces(rest);
      NonSpaceTrimStart(s);
      CollapsedCons(' ', tail);
      " " + tail
    else
      var tail := CollapseSpaces(s[1..]);
      CollapsedCons(s[0], tail);
      assert NonSpace(s) == [s[0]] + NonSpace(s[1..]);
      [s[0]] + tail
  }

  /** One more character in front of a collapsed string: the result stays collapsed when a
      white-space character is a plain space not followed by white space, and its non-space
      characters are the new one (if it is not white space) followed by the old ones. */
  lemma CollapsedCons(c: char, tail: string)
    requires IsCollapsed(tail)
    requires IsSpace(c) ==> c == ' ' && (|tail| > 0 ==> !IsSpace(tail[0]))
    ensures IsCollapsed([c] + tail)
    ensures NonSpace([c] + tail) == (if IsSpace(c) then "" else [c]) + NonSpace(tail)
  {
    var r := [c] + tail;
    assert r[1..] == tail;
    forall i | 0 <= i < |r| && IsSpace(r[i])
      ensures r[i] == ' '
    {
      if i > 0 {
        assert r[i] == tail[i - 1];
      }
    }
    forall i, j | 0 <= i < j < |r| && j == i + 1
      ensures !(IsSpace(r[i]) && IsSpace(r[j]))
    {
      assert r[j] == tail[i];
      if i > 0 {
        assert r[i] == tail[i - 1];
      }
    }
  }

  /** Text without white space is left as it is. */
  lemma {:induction false} CollapseSpacesWord(w: string)
    requires forall i | 0 <= i < |w| :: !IsSpace(w[i])
    ensures CollapseSpaces(w) == w
    decreases |w|
  {
    if |w| > 0 {
      CollapseSpacesWord(w[1..]);
      assert [w[0]] + w[1..] == w;
    }
  }

  /** Each maximal white-space run becomes exactly one space: a run `w` between text `a` that
      does not end with white space and text `b` that does not start with it is replaced by
      `" "`, and the two sides collapse on their own. */
  lemma {:induction false} CollapseSpacesRun(a: string, w: string, b: string)
    requires a == [] || !IsSpace(a[|a| - 1])
    requires |w| > 0 && forall i | 0 <= i < |w| :: IsSpace(w[i])
    requires b == [] || !IsSpace(b[0])
    ensures CollapseSpaces(a + w + b) == CollapseSpaces(a) + " " + CollapseSpaces(b)
    decreases |a|
  {
    if |a| == 0 {
      RunAtStart(w, b);
      RunEmptyPrefix(a, w, b);
    } else if IsSpace(a[0]) {
      TrimStartAppend(a, w + b);
      CollapseSpacesRun(TrimStart(a), w, b);
      RunAfterSpace(a, w, b);
    } else {
      CollapseSpacesRun(a[1..], w, b);
      RunAfterChar(a, w, b);
    }
  }

  /** Text starting with white space collapses to one space and the rest after that run. */
  lemma CollapseSpaceStep(s: string, rest: string)
    requires |s| > 0 && IsSpace(s[0]) && TrimStart(s) == rest
    ensures CollapseSpaces(s) == " " + CollapseSpaces(rest)
  {
  }

  lemma RunAtStart(w: string, b: string)
    requires |w| > 0 && forall i | 0 <= i < |w| :: IsSpace(w[i])
    requires b == [] || !IsSpace(b[0])
    ensures CollapseSpaces(w + b) == " " + CollapseSpaces(b)
  {
    TrimStartSpaces(w, b);
    assert (w + b)[0] == w[0];
    CollapseSpaceStep(w + b, b);
  }

  lemma RunEmptyPrefix(a: string, w: string, b: string)
    requires a == [] && CollapseSpaces(w + b) == " " + CollapseSpaces(b)
    ensures CollapseSpaces(a + w + b) == CollapseSpaces(a) + " " + CollapseSpaces(b)
  {
    EmptyFront(a, w, b);
    assert CollapseSpaces(a) == "";
    JoinAround("", "", CollapseSpaces(b));
  }

  lemma RunAfterSpace(a: string, w: string, b: string)
    requires |a| > 0 && IsSpace(a[0])
    requires TrimStart(a + (w + b)) == TrimStart(a) + (w + b)
    requires CollapseSpaces(TrimStart(a) + w + b) == CollapseSpaces(TrimStart(a)) + " " + CollapseSpaces(b)
    ensures CollapseSpaces(a + w + b) == CollapseSpaces(a) + " " + CollapseSpaces(b)
  {
    var front := TrimStart(a);
    Regroup(a, w, b);
    Regroup(front, w, b);
    FrontOfAppend(a, w, b);
    CollapseSpaceStep(a + w + b, front + w + b);
    CollapseSpaceStep(a, front);
    JoinAround(" ", CollapseSpaces(front), CollapseSpaces(b));
  }

  lemma RunAfterChar(a: string, w: string, b: string)
    requires |a| > 0 && !IsSpace(a[0])
    requires CollapseSpaces(a[1..] + w + b) == CollapseSpaces(a[1..]) + " " + CollapseSpaces(b)
    ensures CollapseSpaces(a + w + b) == CollapseSpaces(a) + " " + CollapseSpaces(b)
  {
    var s := a + w + b;
    FrontOfAppend(a, w, b);
    assert CollapseSpaces(s) == [a[0]] + CollapseSpaces(a[1..] + w + b);
    assert CollapseSpaces(a) == [a[0]] + CollapseSpaces(a[1..]);
    JoinAround([a[0]], CollapseSpaces(a[1..]), CollapseSpaces(b));
  }

  lemma JoinAround(p: string, x: string, y: string)
    ensures p + (x + " " + y) == (p + x) + " " + y
  {
  }

  lemma EmptyFront(a: string, w: string, b: string)
    requires a == []
    ensures a + w + b == w + b
  {
  }

  lemma Regroup(a: string, w: string, b: string)
    ensures a + w + b == a + (w + b)
  {
  }

  lemma FrontOfAppend(a: string, w: string, b: string)
    requires |a| > 0
    ensures (a + w + b)[0] == a[0] && (a + w + b)[1..] == a[1..] + w + b
  {
  }

  /** White space followed by text that does not start with white space trims to that text. */
  lemma {:induction false} TrimStartSpaces(w: string, b: string)
    requires forall i | 0 <= i < |w| :: IsSpace(w[i])
    requires b == [] || !IsSpace(b[0])
    ensures TrimStart(w + b) == b
    decreases |w|
  {
    if |w| == 0 {
      assert w + b == b;
    } else {
      assert (w + b)[1..] == w[1..] + b;
      TrimStartSpaces(w[1..], b);
    }
  }

  /** Leading white space of a string that ends with other text is trimmed before anything
      appended to it is reached. */
  lemma {:induction false} TrimStartAppend(a: string, x: string)
    requires |a| > 0 && !IsSpace(a[|a| - 1])
    ensures TrimStart(a + x) == TrimStart(a) + x
    ensures |TrimStart(a)| > 0 && !IsSpace(TrimStart(a)[|TrimStart(a)| - 1])
    decreases |a|
  {
    if IsSpace(a[0]) {
      assert |a| > 1;
      assert (a + x)[1..] == a[1..] + x;
      TrimStartAppend(a[1..], x);
    }
  }

  /** `replace(/\n+/g, ' ')`: each maximal run of line feeds becomes one space. */
  function CollapseLineFeeds(s: string): string
    decreases |s|
  {
    if |s| == 0 then ""
    else if s[0] == '\n' then " " + CollapseLineFeeds(DropLineFeeds(s))
    else [s[0]] + CollapseLineFeeds(s[1..])
  }

  function DropLineFeeds(s: string): (r: string)
    ensures |r| <= |s| && (|s| > 0 && s[0] == '\n' ==> |r| < |s|)
    decreases |s|
  {
    if |s| > 0 && s[0] == '\n' then DropLineFeeds(s[1..]) else s
  }

  /** With no line feed left, the second replacement changes nothing: after the first one it is
      always a no-op. */
  lemma {:induction false} CollapseLineFeedsNoop(s: string)
    requires '\n' !in s
    ensures CollapseLineFeeds(s) == s
    decreases |s|
  {
    if |s| > 0 {
      assert s[0] in s;
      CollapseLineFeedsNoop(s[1..]);
      assert [s[0]] + s[1..] == s;
    }
  }

  /** A collapsed string holds no line feed. */
  lemma CollapsedHasNoLineFeed(s: string)
    requires IsCollapsed(s)
    ensures '\n' !in s
  {
    if '\n' in s {
      var i :| 0 <= i < |s| && s[i] == '\n';
      assert IsSpace(s[i]);
    }
  }

  /** Every slice of a collapsed string is collapsed. */
  lemma CollapsedSlice(s: string, i: nat, j: nat)
    requires IsCollapsed(s) && i <= j <= |s|
    ensures IsCollapsed(s[i..j])
  {
    var t := s[i..j];
    forall k | 0 <= k < |t| && IsSpace(t[k])
      ensures t[k] == ' '
    {
      assert t[k] == s[i + k];
    }
    forall k, l | 0 <= k < l < |t| && l == k + 1
      ensures !(IsSpace(t[k]) && IsSpace(t[l]))
    {
      assert t[k] == s[i + k] && t[l] == s[i + l];
    }
  }

  /** The page-text cleanup: collapse white space, trim, keep at most 5000 characters. */
  function CleanText(raw: string): string
  {
    SliceTo(Trim(CollapseLineFeeds(CollapseSpaces(raw))), MaxContentLength)
  }

  /** The cleaned text is at most 5000 characters, collapsed, free of leading white space, and
      empty exactly when the raw text is all white space. Because the slice comes after the
      trim, it may end with a space (see `SliceCanEndWithSpace`). */
  lemma CleanTextShape(raw: string)
    ensures var r := CleanText(raw);
      && |r| <= MaxContentLength
      && IsCollapsed(r)
      && (r == [] || r[0] != ' ')
      && (r == [] <==> forall i | 0 <= i < |raw| :: IsSpace(raw[i]))
  {
    var collapsed := CollapseSpaces(raw);
    CollapsedHasNoLineFeed(collapsed);
    CollapseLineFeedsNoop(collapsed);
    assert CleanText(raw) == SliceTo(Trim(collapsed), MaxContentLength);
    TrimmedSliceShape(collapsed);
    CollapsedEmptyIff(raw);
  }

  /** Trimming and slicing a collapsed string keeps it collapsed; the result is empty only when
      the trim is. */
  lemma TrimmedSliceShape(s: string)
    requires IsCollapsed(s)
    ensures var r := SliceTo(Trim(s), MaxContentLength);
      && IsCollapsed(r)
      && (r == [] || r[0] != ' ')
      && (r == [] <==> Trim(s) == [])
  {
    TrimCollapsed(s);
    PrefixCollapsed(Trim(s), MaxContentLength);
  }

  /** The trim of a collapsed string is collapsed. */
  lemma TrimCollapsed(s: string)
    requires IsCollapsed(s)
    ensures IsCollapsed(Trim(s))
  {
    var front := TrimStart(s);
    CollapsedSlice(s, |s| - |front|, |s|);
    CollapsedSlice(front, 0, |TrimEnd(front)|);
  }

  /** Cutting a collapsed string with no leading white space keeps both properties, and leaves
      something exactly when there was something. */
  lemma PrefixCollapsed(t: string, n: nat)
    requires IsCollapsed(t) && (t == [] || !IsSpace(t[0])) && n > 0
    ensures var r := SliceTo(t, n);
      && IsCollapsed(r)
      && (r == [] || r[0] != ' ')
      && (r == [] <==> t == [])
  {
    var r := SliceTo(t, n);
    assert r == t[..|r|];
    CollapsedSlice(t, 0, |r|);
    if r != [] {
      assert r[0] == t[0];
    }
  }

  /** Collapsing leaves a string whose trim is empty exactly when the original is all white space. */
  lemma CollapsedEmptyIff(raw: string)
    ensures Trim(CollapseSpaces(raw)) == [] <==> forall i | 0 <= i < |raw| :: IsSpace(raw[i])
  {
    var collapsed := CollapseSpaces(raw);
    TrimEmptyIff(collapsed);
    SpacesOnlyIff(collapsed);
    SpacesOnlyIff(raw);
  }

  /** A string has no non-space character exactly when it is all white space. */
  lemma {:induction false} SpacesOnlyIff(s: string)
    ensures NonSpace(s) == "" <==> forall i | 0 <= i < |s| :: IsSpace(s[i])
    decreases |s|
  {
    if |s| > 0 {
      SpacesOnlyIff(s[1..]);
      assert forall i | 1 <= i < |s| :: s[i] == s[1..][i - 1];
    }
  }

  /** `extractPageContent`: the cleaned text of the first matching selector, or the fixed
      fallback text, so the result is never empty and never longer than 5000 characters. */
  function ExtractPageContent(page: Page): (r: string)
    ensures r != "" && |r| <= MaxContentLength
  {
    var cleaned := CleanText(PageText(page));
    if cleaned == "" then NoContentText else cleaned
  }

  /** The fallback text is used when no selector matches or the matched text is all white
      space. */
  lemma ExtractPageContentFallback(page: Page)
    ensures FirstMatch(page.matches, 0).None? ==> ExtractPageContent(page) == NoContentText
    ensures AllSpace(PageText(page)) ==> ExtractPageContent(page) == NoContentText
  {
    CleanTextShape(PageText(page));
  }

  /** Otherwise the result is the matched text cleaned: collapsed, with no white space in front
      and some non-space character. */
  lemma ExtractPageContentCleaned(page: Page)
    requires !AllSpace(PageText(page))
    ensures ExtractPageContent(page) == CleanText(PageText(page))
    ensures CleanedText(ExtractPageContent(page))
  {
    var raw := PageText(page);
    CleanTextShape(raw);
    CleanedNonBlank(CleanText(raw));
  }

  /** Every character is white space (vacuously so for `''`). */
  predicate AllSpace(s: string) {
    forall i | 0 <= i < |s| :: IsSpace(s[i])
  }

  /** What a non-blank cleaned text looks like: collapsed, not starting with white space, and
      holding some non-space character. */
  predicate CleanedText(r: string) {
    IsCollapsed(r) && |r| > 0 && !IsSpace(r[0]) && NonSpace(r) != ""
  }

  lemma CleanedNonBlank(r: string)
    requires IsCollapsed(r) && r != [] && r[0] != ' '
    ensures CleanedText(r)
  {
    SpacesOnlyIff(r);
  }

  /** A collapsed text with no white space at either end comes through the cleanup unchanged
      when it fits. */
  lemma {:induction false} CollapseSpacesFixed(s: string)
    requires IsCollapsed(s)
    ensures CollapseSpaces(s) == s
    decreases |s|
  {
    if |s| > 0 {
      var tail := s[1..];
      CollapsedSlice(s, 1, |s|);
      CollapseSpacesFixed(tail);
      if IsSpace(s[0]) {
        assert s[0] == ' ';
        if |tail| > 0 {
          assert tail[0] == s[1] && !IsSpace(tail[0]);
        }
        assert TrimStart(tail) == tail;
        assert TrimStart(s) == tail;
        assert CollapseSpaces(s) == " " + tail;
      } else {
        assert CollapseSpaces(s) == [s[0]] + tail;
      }
      assert [s[0]] + tail == s;
    }
  }

  /** Because the slice follows the trim, the 5000 characters kept can end with a space: a
      4999-character word followed by " x" is cut just after the space. */
  lemma SliceCanEndWithSpace(word: string)
    requires |word| == MaxContentLength - 1
    requires forall i | 0 <= i < |word| :: !IsSpace(word[i])
    ensures CleanText(word + " x") == word + " "
  {
    var s := word + " x";
    WordSpaceCollapsed(word);
    CollapseSpacesFixed(s);
    CollapsedHasNoLineFeed(s);
    CollapseLineFeedsNoop(s);
    assert CollapseLineFeeds(CollapseSpaces(s)) == s;
    assert s[0] == word[0] && s[|s| - 1] == 'x';
    TrimFixed(s);
    assert CleanText(s) == SliceTo(s, MaxContentLength);
    assert s[..MaxContentLength] == word + " ";
  }

  lemma WordSpaceCollapsed(word: string)
    requires forall i | 0 <= i < |word| :: !IsSpace(word[i])
    ensures IsCollapsed(word + " x")
  {
    var s := word + " x";
    forall i | 0 <= i < |s|
      ensures IsSpace(s[i]) <==> i == |word|
    {
      if i < |word| { assert s[i] == word[i]; }
    }
  }

  // ----- highlightText -----

  /** The first element at or after `from` whose text includes `text`. */
  function FirstContaining(texts: seq<string>, text: string, from: nat): (i: Option<nat>)
    ensures i.Some? ==>
      && from <= i.value < |texts|
      && Includes(texts[i.value], text)
      && forall j | from <= j < i.value :: !Includes(texts[j], text)
    ensures i.None? ==> forall j | from <= j < |texts| :: !Includes(texts[j], text)
    decreases |texts| - from
  {
    if from >= |texts| then None
    else if Includes(texts[from], text) then Some(from)
    else FirstContaining(texts, text, from + 1)
  }

  /** The element `highlightText(text)` modifies: none for falsy text, otherwise the first
      element whose text includes it, and at most that one. */
  function HighlightTarget(text: Option<string>, elements: seq<string>): (target: Option<nat>)
    ensures !Truthy(text) ==> target.None?
    ensures target.Some? ==>
      && target.value < |elements|
      && Includes(elements[target.value], text.value)
      && forall j | 0 <= j < target.value :: !Includes(elements[j], text.value)
    ensures Truthy(text) && target.None? ==> forall j | 0 <= j < |elements| :: !Includes(elements[j], text.value)
  {
    if !Truthy(text) then None else FirstContaining(elements, text.value, 0)
  }

  /** The pattern `highlightText` searches with matches the text literally. */
  lemma HighlightPatternIsLiteral(text: string)
    ensures IsLiteralPattern(EscapeRegExp(text))
    ensures UnescapeRegExp(EscapeRegExp(text)) == text
  {
    RegExpRoundTrip(text);
  }

  // ----- The message router -----

  /** A message to the content script; each action reads only its own fields. */
  datatype ContentRequest = ContentRequest(action: string, text: Option<string>,
                                           originalText: Option<string>, translatedText: string)

  datatype ContentReply =
    | PageContent(content: string, title: string, url: string)
    | Done
    | ContentFailed(error: string)

  /** The reply, the element highlighted (if any) and the tooltip shown (if any). */
  datatype ContentEffect = ContentEffect(reply: ContentReply, highlighted: Option<nat>, tooltip: Option<string>)

  /** The `onMessage` listener of the content script. Page content is the extracted text with
      the page's title and URL; a highlight modifies the element `highlightText` picks for the
      selected text, a translation notice the one it picks for the original text, and each
      shows its tooltip. */
  function HandleContentMessage(req: ContentRequest, page: Page): (e: ContentEffect)
    ensures req.action !in {"getPageContent", "highlightSelection", "showTranslationResult"} ==>
      e == ContentEffect(ContentFailed("Unknown action"), None, None)
    ensures req.action == "getPageContent" ==>
      && e.reply == PageContent(ExtractPageContent(page), page.title, page.url)
      && e.reply.content != "" && |e.reply.content| <= MaxContentLength
      && e.highlighted.None? && e.tooltip.None?
    ensures req.action == "highlightSelection" ==>
      && e.highlighted == HighlightTarget(req.text, page.highlightable)
      && e.tooltip == Some("Selection highlighted!")
    ensures req.action == "showTranslationResult" ==>
      && e.highlighted == HighlightTarget(req.originalText, page.highlightable)
      && e.tooltip == Some("Translation: " + req.translatedText)
    ensures req.action in {"highlightSelection", "showTranslationResult"} ==> e.reply == Done
    ensures e.highlighted.Some? ==> e.highlighted.value < |page.highlightable|
  {
    if req.action == "getPageContent" then
      ContentEffect(PageContent(ExtractPageContent(page), page.title, page.url), None, None)
    else if req.action == "highlightSelection" then
      ContentEffect(Done, HighlightTarget(req.text, page.highlightable), Some("Selection highlighted!"))
    else if req.action == "showTranslationResult" then
      ContentEffect(Done, HighlightTarget(req.originalText, page.highlightable),
                    Some("Translation: " + req.translatedText))
    else ContentEffect(ContentFailed("Unknown action"), None, None)
  }
}
